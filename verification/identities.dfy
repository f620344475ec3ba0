/** From the columns of a source row to its framed identity, and why rows built that way never conflict. */
module Identities {
  import opened Options
  import opened Utf8
  import opened Framing
  import opened Slots
  import opened Deduplication

  predicate IsWhiteSpace(c: char) {
    || c in ['\U{0009}', '\U{000A}', '\U{000B}', '\U{000C}', '\U{000D}', '\U{0020}', '\U{0085}', '\U{00A0}', '\U{1680}',
             '\U{2028}', '\U{2029}', '\U{202F}', '\U{205F}', '\U{3000}']
    || '\U{2000}' <= c <= '\U{200A}'
  }

  function TrimLeft(s: string): string {
    if s != "" && IsWhiteSpace(s[0]) then TrimLeft(s[1..]) else s
  }

  function TrimRight(s: string): string {
    if s != "" && IsWhiteSpace(s[|s| - 1]) then TrimRight(s[..|s| - 1]) else s
  }

  /** `strings.TrimFunc(s, isWhiteSpace)`; `strings.TrimSpace` trims the same characters. */
  function Trim(s: string): string {
    TrimRight(TrimLeft(s))
  }

  /** No white space at either end. */
  predicate Tight(s: string) {
    s != "" ==> !IsWhiteSpace(s[0]) && !IsWhiteSpace(s[|s| - 1])
  }

  lemma {:induction false} TrimRightEnds(s: string)
    ensures TrimRight(s) <= s
    ensures TrimRight(s) != "" ==> !IsWhiteSpace(TrimRight(s)[|TrimRight(s)| - 1])
  {
    if s != "" && IsWhiteSpace(s[|s| - 1]) {
      TrimRightEnds(s[..|s| - 1]);
    }
  }

  lemma {:induction false} TrimLeftStarts(s: string)
    ensures TrimLeft(s) != "" ==> !IsWhiteSpace(TrimLeft(s)[0])
  {
    if s != "" && IsWhiteSpace(s[0]) {
      TrimLeftStarts(s[1..]);
    }
  }

  lemma TrimIsTight(s: string)
    ensures Tight(Trim(s))
  {
    TrimLeftStarts(s);
    TrimRightEnds(TrimLeft(s));
  }

  lemma TightIsKept(s: string)
    requires Tight(s)
    ensures Trim(s) == s
  {}

  /** `StringField`: a blank or missing value is null. */
  function StringField(value: Option<string>): Field {
    if value.None? || Trim(value.value) == "" then Null else Present(Encode(Trim(value.value)))
  }

  /** `FilterStr`, through which the XML getters read their columns. */
  function FilterStr(value: Option<string>): Option<string> {
    if value.None? || Trim(value.value) == "" then None else Some(Trim(value.value))
  }

  /** What a column of a source row is: absent, or a non-empty text without surrounding white space. */
  predicate IsColumn(column: Option<string>) {
    column.Some? ==> column.value != "" && Tight(column.value)
  }

  lemma FilteredIsColumn(value: Option<string>)
    ensures IsColumn(FilterStr(value))
  {
    if value.Some? {
      TrimIsTight(value.value);
    }
  }

  predicate AllWhite(s: string) {
    forall i :: 0 <= i < |s| ==> IsWhiteSpace(s[i])
  }

  lemma {:induction false} TrimLeftStrips(s: string) returns (left: string)
    ensures s == left + TrimLeft(s) && AllWhite(left)
  {
    hide IsWhiteSpace;
    left := "";
    if s != "" && IsWhiteSpace(s[0]) {
      left := TrimLeftStrips(s[1..]);
      assert s == [s[0]] + s[1..];
      left := [s[0]] + left;
    }
  }

  lemma {:induction false} TrimRightStrips(s: string) returns (right: string)
    ensures s == TrimRight(s) + right && AllWhite(right)
  {
    hide IsWhiteSpace;
    right := "";
    if s != "" && IsWhiteSpace(s[|s| - 1]) {
      right := TrimRightStrips(s[..|s| - 1]);
      assert s == s[..|s| - 1] + [s[|s| - 1]];
      right := right + [s[|s| - 1]];
    }
  }

  /** A column is its value without the white space around it, and absent when nothing else is left. */
  lemma FilterStrStrips(value: string) returns (left: string, right: string)
    ensures AllWhite(left) && AllWhite(right)
    ensures var text := if FilterStr(Some(value)).Some? then FilterStr(Some(value)).value else "";
            value == left + text + right && Tight(text)
    ensures FilterStr(Some(value)).None? <==> AllWhite(value)
  {
    left := TrimLeftStrips(value);
    right := TrimRightStrips(TrimLeft(value));
    TrimIsTight(value);
    assert Trim(value) == TrimRight(TrimLeft(value));
    Surrounded(value, left, Trim(value), right);
    hide Trim, TrimLeft, TrimRight, IsWhiteSpace, AllWhite;
  }

  lemma Surrounded(value: string, left: string, text: string, right: string)
    requires value == left + (text + right) && AllWhite(left) && AllWhite(right) && Tight(text)
    ensures value == left + text + right
    ensures text == "" <==> AllWhite(value)
  {
    hide IsWhiteSpace;
    if text != "" {
      assert value[|left|] == text[0];
    } else {
      forall i | 0 <= i < |value|
        ensures IsWhiteSpace(value[i])
      {
        assert value[i] == if i < |left| then left[i] else right[i - |left|];
      }
    }
  }

  /** Description items in brackets, joined with commas. */
  function ReducedDescription(values: seq<string>): Option<string> {
    if values == [] then None
    else
      var before, value := ReducedDescription(values[..|values| - 1]), Trim(values[|values| - 1]);
      if value == "" then before
      else Some((if before.None? then "" else before.value + ",") + "[d:" + value + "]")
  }

  lemma {:induction false} ReducedIsColumn(values: seq<string>)
    ensures IsColumn(ReducedDescription(values))
    ensures var r := ReducedDescription(values); r.Some? ==> r.value[0] == '['
  {
    if values != [] {
      ReducedIsColumn(values[..|values| - 1]);
    }
  }

  /** The trimmed texts that are not blank, in order. */
  function Texts(values: seq<string>): seq<string> {
    if values == [] then []
    else
      var before, text := Texts(values[..|values| - 1]), Trim(values[|values| - 1]);
      if text == "" then before else before + [text]
  }

  /** The bracketed texts, read from the front. */
  function Bracketed(texts: seq<string>): string {
    if texts == [] then ""
    else "[d:" + texts[0] + "]" + if |texts| == 1 then "" else "," + Bracketed(texts[1..])
  }

  lemma {:induction false} BracketedAppend(texts: seq<string>, last: string)
    requires texts != []
    ensures Bracketed(texts + [last]) == Bracketed(texts) + "," + "[d:" + last + "]"
  {
    var all := texts + [last];
    if |texts| == 1 {
      assert all[1..] == [last] && Bracketed([last]) == "[d:" + last + "]" + "";
    } else {
      assert all[1..] == texts[1..] + [last];
      BracketedAppend(texts[1..], last);
    }
  }

  /** The reduced description lists exactly the texts, each in brackets, in their order. */
  lemma {:induction false} ReducedListsTexts(values: seq<string>)
    ensures ReducedDescription(values) == if Texts(values) == [] then None else Some(Bracketed(Texts(values)))
  {
    if values != [] {
      var before, text := values[..|values| - 1], Trim(values[|values| - 1]);
      ReducedListsTexts(before);
      hide Trim, Bracketed;
      if Texts(before) == [] {
        BracketedOne(text);
        assert Texts(before) + [text] == [text];
      } else {
        BracketedAppend(Texts(before), text);
      }
    }
  }

  lemma BracketedOne(text: string)
    ensures Bracketed([text]) == "" + "[d:" + text + "]"
  {}

  ghost predicate NoBracket(texts: seq<string>) {
    forall i :: 0 <= i < |texts| ==> ']' !in texts[i]
  }

  lemma SplitAtBracket(a: string, x: string, b: string, y: string)
    requires ']' !in a && ']' !in b && a + "]" + x == b + "]" + y
    ensures a == b && x == y
  {
    var s, t := a + "]" + x, b + "]" + y;
    assert s[|a|] == ']' && t[|b|] == ']';
    assert forall k :: 0 <= k < |a| ==> s[k] == a[k];
    assert forall k :: 0 <= k < |b| ==> t[k] == b[k];
    assert |a| == |b|;
    assert a == s[..|a|] && b == t[..|b|];
    assert x == s[|a| + 1..] && y == t[|b| + 1..];
  }

  lemma {:induction false} BracketedIsInjective(a: seq<string>, b: seq<string>)
    requires NoBracket(a) && NoBracket(b) && Bracketed(a) == Bracketed(b)
    ensures a == b
  {
    if a != [] && b != [] {
      var x := if |a| == 1 then "" else "," + Bracketed(a[1..]);
      var y := if |b| == 1 then "" else "," + Bracketed(b[1..]);
      assert Bracketed(a)[3..] == a[0] + "]" + x && Bracketed(b)[3..] == b[0] + "]" + y;
      SplitAtBracket(a[0], x, b[0], y);
      if |a| > 1 && |b| > 1 {
        assert x[1..] == Bracketed(a[1..]) && y[1..] == Bracketed(b[1..]);
        BracketedIsInjective(a[1..], b[1..]);
      }
      assert a == [a[0]] + a[1..] && b == [b[0]] + b[1..];
    }
  }

  /** For descriptions without a closing bracket, the column determines the texts and their order. */
  lemma ReducedDeterminesTexts(a: seq<string>, b: seq<string>)
    requires NoBracket(Texts(a)) && NoBracket(Texts(b)) && ReducedDescription(a) == ReducedDescription(b)
    ensures Texts(a) == Texts(b)
  {
    ReducedListsTexts(a);
    ReducedListsTexts(b);
    if Texts(a) != [] && Texts(b) != [] {
      BracketedIsInjective(Texts(a), Texts(b));
    }
  }

  /** With a closing bracket it does not. */
  lemma BracketsCollide()
    ensures Bracketed(["a],[d:b"]) == Bracketed(["a", "b"])
  {
    BracketedOne("a],[d:b");
    BracketedOne("a");
    assert ["a", "b"] == ["a"] + ["b"];
    BracketedAppend(["a"], "b");
    hide Bracketed;
    assert Bracketed(["a"]) == "[d:a]";
  }

  /** Among columns, the field determines the column. */
  lemma FieldDeterminesColumn(a: Option<string>, b: Option<string>)
    requires IsColumn(a) && IsColumn(b) && StringField(a) == StringField(b)
    ensures a == b
  {
    if a.Some? { TightIsKept(a.value); }
    if b.Some? { TightIsKept(b.value); }
    if a.Some? && b.Some? {
      EncodeIsInjective(a.value, b.value);
    }
  }

  function FieldsOf(payload: Payload): seq<Field> {
    seq(|payload|, i requires 0 <= i < |payload| => StringField(payload[i]))
  }

  lemma FieldsDeterminePayload(a: Payload, b: Payload)
    requires (forall i :: 0 <= i < |a| ==> IsColumn(a[i])) && (forall i :: 0 <= i < |b| ==> IsColumn(b[i]))
    requires FieldsOf(a) == FieldsOf(b)
    ensures a == b
  {
    assert |a| == |FieldsOf(a)| == |FieldsOf(b)| == |b|;
    forall i | 0 <= i < |a|
      ensures a[i] == b[i]
    {
      assert FieldsOf(a)[i] == FieldsOf(b)[i];
      FieldDeterminesColumn(a[i], b[i]);
    }
  }

  /** The identity of a payload; `hash` stands for SHA-256. */
  function IdentityOf(hash: seq<Byte> -> nat, domain: string, relation: string, payload: Payload): Digest {
    hash(IdentityFrame(Encode(domain), Encode(relation), FieldsOf(payload)))
  }

  ghost predicate InjectiveHash(hash: seq<Byte> -> nat) {
    forall x, y :: hash(x) == hash(y) ==> x == y
  }

  /** One identity, one payload. */
  lemma IdentityDeterminesPayload(hash: seq<Byte> -> nat, domain: string, relation: string, a: Payload, b: Payload)
    requires InjectiveHash(hash)
    requires (forall i :: 0 <= i < |a| ==> IsColumn(a[i])) && (forall i :: 0 <= i < |b| ==> IsColumn(b[i]))
    requires Short(FieldsOf(a)) && Short(FieldsOf(b))
    requires IdentityOf(hash, domain, relation, a) == IdentityOf(hash, domain, relation, b)
    ensures a == b
  {
    var header := Header(Encode(domain), Encode(relation));
    SameHead(header, EncodeFields(FieldsOf(a)), header, EncodeFields(FieldsOf(b)));
    FieldsRoundTrip(FieldsOf(a));
    FieldsRoundTrip(FieldsOf(b));
    FieldsDeterminePayload(a, b);
  }

  /** What a getter guarantees of a row: columns, and a legacy hash computed from them. */
  ghost predicate FromGetter(row: Row, legacy: Payload -> int) {
    && (forall i :: 0 <= i < |row.payload| ==> IsColumn(row.payload[i]))
    && Short(FieldsOf(row.payload))
    && row.hash == legacy(row.payload)
  }

  function Filtered(columns: Payload): Payload {
    seq(|columns|, i requires 0 <= i < |columns| => FilterStr(columns[i]))
  }

  /** The rows of the elements that are not blank, in order. */
  function Built(scope: int, elements: seq<Payload>, legacy: Payload -> int, blank: Payload -> bool): seq<Row> {
    if elements == [] then []
    else
      var n := |elements| - 1;
      var payload := Filtered(elements[n]);
      Built(scope, elements[..n], legacy, blank)
      + if blank(payload) then [] else [Row(scope, payload, legacy(payload), None)]
  }

  /** The row is that of an element that is not blank. */
  ghost predicate RowOfSome(scope: int, elements: seq<Payload>, legacy: Payload -> int, blank: Payload -> bool, row: Row) {
    exists i :: 0 <= i < |elements| && RowOfElement(scope, elements[i], legacy, blank, row)
  }

  ghost predicate RowOfElement(scope: int, element: Payload, legacy: Payload -> int, blank: Payload -> bool, row: Row) {
    !blank(Filtered(element)) && row == Row(scope, Filtered(element), legacy(Filtered(element)), None)
  }

  /** Each element that is not blank gives its row, and there are no others. */
  lemma {:induction false} BuiltRows(scope: int, elements: seq<Payload>, legacy: Payload -> int, blank: Payload -> bool, row: Row)
    ensures row in Built(scope, elements, legacy, blank) <==> RowOfSome(scope, elements, legacy, blank, row)
  {
    if elements != [] {
      var n := |elements| - 1;
      BuiltRows(scope, elements[..n], legacy, blank, row);
      OneMoreElement(scope, elements[..n], elements[n], legacy, blank, row);
      assert elements == elements[..n] + [elements[n]];
      hide RowOfSome, Filtered;
    }
  }

  lemma OneMoreElement(
      scope: int, before: seq<Payload>, element: Payload, legacy: Payload -> int, blank: Payload -> bool, row: Row)
    ensures RowOfSome(scope, before + [element], legacy, blank, row)
            <==> RowOfSome(scope, before, legacy, blank, row) || RowOfElement(scope, element, legacy, blank, row)
  {
    hide RowOfElement;
    var all := before + [element];
    assert forall i :: 0 <= i < |before| ==> all[i] == before[i];
    assert all[|before|] == element;
  }

  /** The shape of the hashed-relation getters: filter the columns, skip blank elements, hash what is left. */
  method GetRows(scope: int, elements: seq<Payload>, legacy: Payload -> int, blank: Payload -> bool) returns (rows: seq<Row>)
    ensures rows == Built(scope, elements, legacy, blank)
    ensures forall i, j :: 0 <= i < |rows| && 0 <= j < |rows[i].payload| ==> IsColumn(rows[i].payload[j])
    ensures forall i :: 0 <= i < |rows| ==>
              rows[i].scope == scope && rows[i].hash == legacy(rows[i].payload) && !blank(rows[i].payload)
  {
    rows := [];
    for k := 0 to |elements|
      invariant rows == Built(scope, elements[..k], legacy, blank)
      invariant forall i, j :: 0 <= i < |rows| && 0 <= j < |rows[i].payload| ==> IsColumn(rows[i].payload[j])
      invariant forall i :: 0 <= i < |rows| ==>
                  rows[i].scope == scope && rows[i].hash == legacy(rows[i].payload) && !blank(rows[i].payload)
    {
      assert elements[..k + 1][..k] == elements[..k];
      var columns := elements[k];
      var payload: Payload := [];
      for c := 0 to |columns|
        invariant payload == Filtered(columns)[..c]
        invariant forall j :: 0 <= j < c ==> IsColumn(payload[j])
      {
        FilteredIsColumn(columns[c]);
        payload := payload + [FilterStr(columns[c])];
      }
      assert payload == Filtered(columns);
      if !blank(payload) {
        rows := rows + [Row(scope, payload, legacy(payload), None)];
      }
    }
    assert elements[..|elements|] == elements;
  }

  /**
   * Given a collision-free hash, a batch of getter rows never meets the conflicting-payload or
   * the conflicting-legacy-hash error.
   */
  lemma GetterRowsNeverConflict(
      hash: seq<Byte> -> nat, domain: string, relation: string, legacy: Payload -> int, heap: seq<Row>, items: seq<Option<nat>>)
    requires InjectiveHash(hash) && Points(heap, items)
    requires forall i :: 0 <= i < |items| && items[i].Some? ==> FromGetter(heap[items[i].value], legacy)
    ensures !Conflicting(EntriesOf(heap, items, payload => IdentityOf(hash, domain, relation, payload)))
  {
    var digest := (payload: Payload) => IdentityOf(hash, domain, relation, payload);
    var entries := EntriesOf(heap, items, digest);
    forall a, b | a in entries && b in entries && a.key == b.key
      ensures a == b
    {
      var i :| 0 <= i < |items| && items[i].Some? && EntryOf(heap[items[i].value], digest) == a;
      var j :| 0 <= j < |items| && items[j].Some? && EntryOf(heap[items[j].value], digest) == b;
      SameIdentity(hash, domain, relation, legacy, heap[items[i].value], heap[items[j].value]);
    }
    assert entries == EntriesOf(heap, items, payload => IdentityOf(hash, domain, relation, payload));
  }

  lemma SameIdentity(hash: seq<Byte> -> nat, domain: string, relation: string, legacy: Payload -> int, a: Row, b: Row)
    requires InjectiveHash(hash) && FromGetter(a, legacy) && FromGetter(b, legacy)
    requires IdentityOf(hash, domain, relation, a.payload) == IdentityOf(hash, domain, relation, b.payload)
    ensures a.payload == b.payload && a.hash == b.hash
  {
    IdentityDeterminesPayload(hash, domain, relation, a.payload, b.payload);
  }

  // ----- names -----

  lemma {:induction false} NulFreeText(s: string)
    requires '\0' !in s
    ensures NulFree(Encode(s))
  {
    if s != "" {
      assert s[0] in s;
      NulFreeText(s[1..]);
      NulFreeRune(s[0]);
    }
  }

  lemma NulFreeRune(c: char)
    requires c != '\0'
    ensures NulFree(EncodeRune(c))
  {
    var bytes := EncodeRune(c);
    assert forall i :: 0 < i < |bytes| ==> bytes[i] >= 0x80;
  }

  /** Identities of different domains, relations or fields are hashes of different bytes. */
  lemma NamesAreSeparated(d1: string, r1: string, f1: seq<Field>, d2: string, r2: string, f2: seq<Field>)
    requires '\0' !in d1 && '\0' !in r1 && '\0' !in d2 && '\0' !in r2 && Short(f1) && Short(f2)
    requires IdentityFrame(Encode(d1), Encode(r1), f1) == IdentityFrame(Encode(d2), Encode(r2), f2)
    ensures d1 == d2 && r1 == r2 && f1 == f2
  {
    NulFreeText(d1);
    NulFreeText(r1);
    NulFreeText(d2);
    NulFreeText(r2);
    IdentityFrameIsInjective(Encode(d1), Encode(r1), f1, Encode(d2), Encode(r2), f2);
    EncodeIsInjective(d1, d2);
    EncodeIsInjective(r1, r2);
  }
}
