/** Canonical decimal quantities of release formats, and the row fields that hold them. */
module Quantity {
  import opened Options

  /** Go's `int32`. */
  newtype int32 = x: int | -0x8000_0000 <= x < 0x8000_0000

  const MAX_INT32_DECIMAL := "2147483647"
  const MAX_INT32 := 2147483647

  predicate IsDigit(c: char) { '0' <= c <= '9' }

  predicate IsDecimal(s: string) {
    s != "" && forall i :: 0 <= i < |s| ==> IsDigit(s[i])
  }

  function Digit(c: char): (d: nat)
    requires IsDigit(c)
    ensures d <= 9
  {
    c as int - '0' as int
  }

  /** The number a digit string denotes. */
  ghost function Value(s: string): nat
    requires forall i :: 0 <= i < |s| ==> IsDigit(s[i])
  {
    if s == "" then 0 else Value(s[..|s| - 1]) * 10 + Digit(s[|s| - 1])
  }

  /** No leading zero, except in "0" itself. */
  predicate Canonical(s: string) {
    IsDecimal(s) && (|s| > 1 ==> s[0] != '0')
  }

  ghost function Pow10(n: nat): (p: nat)
    ensures p >= 1
  {
    if n == 0 then 1 else 10 * Pow10(n - 1)
  }

  /** The value read from the most significant digit. */
  lemma {:induction false} FirstDigit(s: string)
    requires IsDecimal(s)
    ensures Value(s) == Digit(s[0]) * Pow10(|s| - 1) + Value(s[1..])
  {
    var n := |s| - 1;
    if n == 0 {
      assert s[..0] == "";
    } else {
      FirstDigit(s[..n]);
      assert s[..n][1..] == s[1..][..n - 1];
      assert s[1..][n - 1] == s[n];
      Shifted(Digit(s[0]), Pow10(n - 1), Value(s[1..n]), Digit(s[n]));
      assert s[1..n] == s[..n][1..];
    }
  }

  lemma Shifted(d: nat, p: nat, v: nat, last: nat)
    ensures (d * p + v) * 10 + last == d * (10 * p) + (v * 10 + last)
  {}

  /** Leading zeros do not change the value. */
  lemma {:induction false} LeadingZeros(s: string, k: nat)
    requires IsDecimal(s) && k < |s| && forall i :: 0 <= i < k ==> s[i] == '0'
    ensures Value(s) == Value(s[k..])
    decreases k
  {
    if k == 0 {
      assert s[0..] == s;
    } else {
      FirstDigit(s);
      LeadingZeros(s[1..], k - 1);
      assert s[1..][k - 1..] == s[k..];
    }
  }

  lemma {:induction false} Bounded(s: string)
    requires forall i :: 0 <= i < |s| ==> IsDigit(s[i])
    ensures Value(s) < Pow10(|s|)
  {
    if s != "" {
      Bounded(s[..|s| - 1]);
    }
  }

  lemma {:induction false} Pow10Grows(a: nat, b: nat)
    requires a <= b
    ensures Pow10(a) <= Pow10(b)
  {
    if a < b {
      Pow10Grows(a, b - 1);
    }
  }

  /** A canonical string of length `n > 1` denotes at least `10^(n-1)`. */
  lemma LeadingDigitCounts(s: string)
    requires Canonical(s) && |s| > 1
    ensures Pow10(|s| - 1) <= Value(s)
  {
    FirstDigit(s);
    Scaled(Digit(s[0]), Pow10(|s| - 1));
  }

  lemma Scaled(d: nat, p: nat)
    requires d >= 1
    ensures p <= d * p
  {
    assert d * p == p + (d - 1) * p;
    assert (d - 1) * p >= 0;
  }

  /** Among canonical strings, the longer one is the greater one. */
  lemma LongerIsGreater(a: string, b: string)
    requires Canonical(a) && Canonical(b) && |a| < |b|
    ensures Value(a) < Value(b)
  {
    Bounded(a);
    LeadingDigitCounts(b);
    Pow10Grows(|a|, |b| - 1);
  }

  lemma {:induction false} SameLengthSameValue(a: string, b: string)
    requires |a| == |b| && (forall i :: 0 <= i < |a| ==> IsDigit(a[i]) && IsDigit(b[i]))
    requires Value(a) == Value(b)
    ensures a == b
  {
    if a != "" {
      var n := |a| - 1;
      SameLengthSameValue(a[..n], b[..n]);
      assert a == a[..n] + [a[n]] && b == b[..n] + [b[n]];
    }
  }

  /** Canonical text is unique per value, for texts of any length. */
  lemma CanonicalIsUnique(a: string, b: string)
    requires Canonical(a) && Canonical(b) && Value(a) == Value(b)
    ensures a == b
  {
    if |a| < |b| { LongerIsGreater(a, b); }
    if |b| < |a| { LongerIsGreater(b, a); }
    SameLengthSameValue(a, b);
  }

  /** Go's string comparison, byte by byte. */
  predicate TextGreater(a: string, b: string) {
    if a == "" then false
    else if b == "" then true
    else if a[0] != b[0] then a[0] > b[0]
    else TextGreater(a[1..], b[1..])
  }

  /** For digit strings of one length, comparing the texts compares the numbers. */
  lemma {:induction false} TextOrderIsNumericOrder(a: string, b: string)
    requires |a| == |b| && (forall i :: 0 <= i < |a| ==> IsDigit(a[i]) && IsDigit(b[i]))
    ensures TextGreater(a, b) <==> Value(a) > Value(b)
  {
    if a != "" {
      FirstDigit(a);
      FirstDigit(b);
      TextOrderIsNumericOrder(a[1..], b[1..]);
      Bounded(a[1..]);
      Bounded(b[1..]);
      LeadDecides(Digit(a[0]), Digit(b[0]), Pow10(|a| - 1), Value(a[1..]), Value(b[1..]));
    }
  }

  lemma LeadDecides(x: nat, y: nat, p: nat, v: nat, w: nat)
    requires v < p && w < p
    ensures x > y ==> x * p + v > y * p + w
    ensures x < y ==> x * p + v < y * p + w
  {
    if x > y {
      assert x * p == y * p + (x - y) * p;
      Scaled(x - y, p);
    }
    if x < y {
      assert y * p == x * p + (y - x) * p;
      Scaled(y - x, p);
    }
  }

  lemma LimitValue()
    ensures Canonical(MAX_INT32_DECIMAL) && Value(MAX_INT32_DECIMAL) == MAX_INT32
  {
    var s := MAX_INT32_DECIMAL;
    assert s[..9][..8] == s[..8] && s[..8][..7] == s[..7] && s[..7][..6] == s[..6];
    assert s[..6][..5] == s[..5] && s[..5][..4] == s[..4] && s[..4][..3] == s[..3];
    assert s[..3][..2] == s[..2] && s[..2][..1] == s[..1] && s[..1][..0] == "";
    assert Value(s[..1]) == 2;
    assert Value(s[..2]) == 21;
    assert Value(s[..3]) == 214;
    assert Value(s[..4]) == 2147;
    assert Value(s[..5]) == 21474;
    assert Value(s[..6]) == 214748;
    assert Value(s[..7]) == 2147483;
    assert Value(s[..8]) == 21474836;
    assert Value(s[..9]) == 214748364;
  }

  /** The length-then-text comparison of the importer decides whether the number exceeds `int32`. */
  lemma OversizedIff(s: string)
    requires Canonical(s)
    ensures Value(s) > MAX_INT32
            <==> |s| > |MAX_INT32_DECIMAL| || (|s| == |MAX_INT32_DECIMAL| && TextGreater(s, MAX_INT32_DECIMAL))
  {
    LimitValue();
    if |s| > |MAX_INT32_DECIMAL| {
      LongerIsGreater(MAX_INT32_DECIMAL, s);
    } else if |s| < |MAX_INT32_DECIMAL| {
      LongerIsGreater(s, MAX_INT32_DECIMAL);
    } else {
      TextOrderIsNumericOrder(s, MAX_INT32_DECIMAL);
    }
  }

  lemma {:induction false} PrefixIsSmaller(s: string, k: nat)
    requires k <= |s| && forall i :: 0 <= i < |s| ==> IsDigit(s[i])
    ensures Value(s[..k]) <= Value(s)
    decreases |s|
  {
    if k == |s| {
      assert s[..k] == s;
    } else {
      PrefixIsSmaller(s[..|s| - 1], k);
      assert s[..|s| - 1][..k] == s[..k];
    }
  }

  /** The integer column of a value: absent when it does not fit. */
  ghost function IntegerOf(value: nat): Option<int32> {
    if value <= MAX_INT32 then Some(value as int32) else None
  }

  /**
   * Strip leading zeros and compute the `int32` value when there is one. The accumulating
   * loop never leaves the range of `int32`.
   */
  method CanonicalReleaseFormatQuantity(value: string) returns (r: Result<(string, Option<int32>)>)
    ensures r.Ok? <==> IsDecimal(value)
    ensures r.Ok? ==> Canonical(r.value.0) && Value(r.value.0) == Value(value)
    ensures r.Ok? ==> r.value.1 == IntegerOf(Value(value))
  {
    if value == "" {
      return Err("quantity is empty");
    }
    for index := 0 to |value|
      invariant forall i :: 0 <= i < index ==> IsDigit(value[i])
    {
      if value[index] < '0' || value[index] > '9' {
        return Err("quantity contains a non-decimal character");
      }
    }
    var firstSignificant := 0;
    while firstSignificant < |value| - 1 && value[firstSignificant] == '0'
      invariant 0 <= firstSignificant < |value|
      invariant forall i :: 0 <= i < firstSignificant ==> value[i] == '0'
    {
      firstSignificant := firstSignificant + 1;
    }
    var canonical := value[firstSignificant..];
    LeadingZeros(value, firstSignificant);
    OversizedIff(canonical);
    if |canonical| > |MAX_INT32_DECIMAL|
       || (|canonical| == |MAX_INT32_DECIMAL| && TextGreater(canonical, MAX_INT32_DECIMAL)) {
      return Ok((canonical, None));
    }
    var integer: int32 := 0;
    for index := 0 to |canonical|
      invariant integer as int == Value(canonical[..index])
    {
      PrefixIsSmaller(canonical, index + 1);
      assert canonical[..index + 1][..index] == canonical[..index];
      integer := integer * 10 + (canonical[index] as int - '0' as int) as int32;
    }
    assert canonical[..|canonical|] == canonical;
    r := Ok((canonical, Some(integer)));
  }

  /** `strconv.FormatInt` of a non-negative number. */
  function FormatDecimal(n: nat): (s: string)
    ensures Canonical(s) && Value(s) == n
    ensures n > 0 ==> s[0] != '0'
  {
    if n < 10 then
      assert Value([('0' as int + n) as char][..0]) == 0;
      [('0' as int + n) as char]
    else
      var s := FormatDecimal(n / 10);
      var t := s + [('0' as int + n % 10) as char];
      assert t[..|t| - 1] == s;
      t
  }

  /** Text and integer of a row agree: canonical text, and the integer exactly when it fits. */
  ghost predicate Consistent(quantity: Option<int32>, text: Option<string>) {
    match text
    case None => quantity == None
    case Some(s) => Canonical(s) && quantity == IntegerOf(Value(s))
  }

  /** When a row can be canonicalized. */
  ghost predicate Canonicalizable(quantity: Option<int32>, text: Option<string>) {
    match text
    case None => quantity.Some? ==> 0 <= quantity.value
    case Some(s) => IsDecimal(s) && (quantity.Some? ==> quantity == IntegerOf(Value(s)))
  }

  /** The number a row denotes, from whichever column has it. */
  ghost function Denoted(quantity: Option<int32>, text: Option<string>): Option<nat>
    requires Canonicalizable(quantity, text)
  {
    match text
    case Some(s) => Some(Value(s))
    case None => if quantity.Some? then Some(quantity.value as int) else None
  }

  class ReleaseItemFormat {
    var quantity: Option<int32>
    var quantityText: Option<string>

    /** Derive each quantity column from the other, or reject the row. */
    method CanonicalizeQuantity() returns (failure: Option<string>)
      modifies this
      ensures failure.None? <==> old(Canonicalizable(quantity, quantityText))
      ensures failure.None? ==> Consistent(quantity, quantityText)
      ensures failure.None? ==> Canonicalizable(quantity, quantityText)
      ensures failure.None? ==> Denoted(quantity, quantityText) == old(if Canonicalizable(quantity, quantityText)
                                                                       then Denoted(quantity, quantityText) else None)
      ensures failure.Some? ==> quantity == old(quantity)
      ensures var text := old(quantityText);
              failure.Some? ==>
                if text.Some? && IsDecimal(text.value) then
                  quantityText.Some? && Canonical(quantityText.value) && Value(quantityText.value) == Value(text.value)
                else quantityText == text
      ensures old(Consistent(quantity, quantityText)) ==>
                failure.None? && quantity == old(quantity) && quantityText == old(quantityText)
    {
      if quantityText.None? {
        if quantity.None? {
          return None;
        }
        if quantity.value < 0 {
          return Some("quantity must be non-negative");
        }
        quantityText := Some(FormatDecimal(quantity.value as int));
        return None;
      }
      var canonical := CanonicalReleaseFormatQuantity(quantityText.value);
      if canonical.Err? {
        return Some("quantity text must be a non-negative decimal");
      }
      ghost var before := quantityText.value;
      if Canonical(before) {
        CanonicalIsUnique(before, canonical.value.0);
      }
      quantityText := Some(canonical.value.0);
      if canonical.value.1.Some? {
        var expected := canonical.value.1.value;
        if quantity.Some? && quantity.value != expected {
          return Some("integer quantity does not match quantity text");
        }
        quantity := Some(expected);
        return None;
      }
      if quantity.Some? {
        return Some("oversized quantity must not have an integer value");
      }
      return None;
    }
  }

  /** Two consistent rows that denote the same number are the same row. */
  lemma ConsistentIsUnique(q1: Option<int32>, t1: Option<string>, q2: Option<int32>, t2: Option<string>)
    requires Consistent(q1, t1) && Consistent(q2, t2)
    requires Denoted(q1, t1) == Denoted(q2, t2)
    ensures q1 == q2 && t1 == t2
  {
    if t1.Some? && t2.Some? {
      CanonicalIsUnique(t1.value, t2.value);
    }
  }
}
