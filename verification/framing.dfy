/** The byte strings hashed for relation identities and compatibility slots. */
module Framing {
  import opened Options
  import opened Utf8

  const FIELD_NULL: Byte := 0
  const FIELD_PRESENT: Byte := 1
  const DOMAIN_SEPARATOR: Byte := 0

  datatype Field = Null | Present(value: seq<Byte>)

  const TWO32 := 0x1_0000_0000

  /** `binary.BigEndian.PutUint32`. */
  function BigEndian32(n: nat): (bytes: seq<Byte>)
    requires n < TWO32
    ensures |bytes| == 4
  {
    [n / 0x100_0000, n / 0x1_0000 % 256, n / 256 % 256, n % 256]
  }

  function ReadBigEndian32(bytes: seq<Byte>): (n: nat)
    requires |bytes| == 4
  {
    var a: int, b: int, c: int, d: int := bytes[0], bytes[1], bytes[2], bytes[3];
    a * 0x100_0000 + b * 0x1_0000 + c * 256 + d
  }

  lemma BigEndianRoundTrip(n: nat)
    requires n < TWO32
    ensures ReadBigEndian32(BigEndian32(n)) == n
  {
    SplitByte(n);
    SplitByte(n / 256);
    SplitByte(n / 0x1_0000);
    assert n / 256 / 256 == n / 0x1_0000 && n / 0x1_0000 / 256 == n / 0x100_0000;
  }

  lemma SplitByte(n: nat)
    ensures n == n / 256 * 256 + n % 256
  {}

  /** The length is converted to 32 bits before it is written. */
  function EncodeField(field: Field): seq<Byte> {
    match field
    case Null => [FIELD_NULL]
    case Present(value) => [FIELD_PRESENT] + BigEndian32(|value| % TWO32) + value
  }

  function EncodeFields(fields: seq<Field>): seq<Byte> {
    if fields == [] then [] else EncodeFields(fields[..|fields| - 1]) + EncodeField(fields[|fields| - 1])
  }

  function Header(domain: seq<Byte>, relation: seq<Byte>): seq<Byte> {
    domain + [DOMAIN_SEPARATOR] + relation + [DOMAIN_SEPARATOR]
  }

  /** What `sum` feeds to the hash. */
  function IdentityFrame(domain: seq<Byte>, relation: seq<Byte>, fields: seq<Field>): seq<Byte> {
    Header(domain, relation) + EncodeFields(fields)
  }

  /** What `compatibilitySlot` feeds to the hash. */
  function SlotFrame(domain: seq<Byte>, relation: seq<Byte>, digest: seq<Byte>, attempt: nat): seq<Byte>
    requires attempt < TWO32
  {
    Header(domain, relation) + digest + BigEndian32(attempt)
  }

  // ----- decoding -----

  /** Fields from the front; a length that runs past the end is malformed. */
  function DecodeFields(bytes: seq<Byte>): Option<seq<Field>>
    decreases |bytes|
  {
    if bytes == [] then Some([])
    else if bytes[0] == FIELD_NULL then Prefixed(Null, DecodeFields(bytes[1..]))
    else if bytes[0] != FIELD_PRESENT || |bytes| < 5 then None
    else
      var length := ReadBigEndian32(bytes[1..5]);
      if length > |bytes| - 5 then None
      else Prefixed(Present(bytes[5..5 + length]), DecodeFields(bytes[5 + length..]))
  }

  function Prefixed(field: Field, rest: Option<seq<Field>>): Option<seq<Field>> {
    if rest.None? then None else Some([field] + rest.value)
  }

  /** The part before the first zero byte and the part after it. */
  function SplitAtNul(bytes: seq<Byte>): Option<(seq<Byte>, seq<Byte>)> {
    if bytes == [] then None
    else if bytes[0] == 0 then Some(([], bytes[1..]))
    else
      var rest := SplitAtNul(bytes[1..]);
      if rest.None? then None else Some(([bytes[0]] + rest.value.0, rest.value.1))
  }

  predicate NulFree(bytes: seq<Byte>) {
    0 !in bytes
  }

  predicate Short(fields: seq<Field>) {
    forall i :: 0 <= i < |fields| && fields[i].Present? ==> |fields[i].value| < TWO32
  }

  lemma {:induction false} SplitRoundTrip(name: seq<Byte>, rest: seq<Byte>)
    requires NulFree(name)
    ensures SplitAtNul(name + [0] + rest) == Some((name, rest))
  {
    var all := name + [0] + rest;
    if name == [] {
      assert all[1..] == rest;
    } else {
      assert name[0] in name && all[0] == name[0];
      assert all[1..] == name[1..] + [0] + rest;
      assert 0 !in name[1..];
      SplitRoundTrip(name[1..], rest);
      assert [name[0]] + name[1..] == name;
    }
  }

  lemma DecodeFirst(field: Field, rest: seq<Byte>)
    requires field.Present? ==> |field.value| < TWO32
    ensures DecodeFields(EncodeField(field) + rest) == Prefixed(field, DecodeFields(rest))
  {
    var bytes := EncodeField(field) + rest;
    match field
    case Null => assert bytes[1..] == rest;
    case Present(value) =>
      BigEndianRoundTrip(|value|);
      assert |value| % TWO32 == |value|;
      hide BigEndian32, ReadBigEndian32;
      assert bytes[1..5] == BigEndian32(|value|);
      assert bytes[5..5 + |value|] == value;
      assert bytes[5 + |value|..] == rest;
  }

  lemma EncodeOne(field: Field)
    ensures EncodeFields([field]) == EncodeField(field)
  {
    hide EncodeField;
    assert [field][..0] == [];
    assert EncodeFields([field][..0]) == [];
  }

  lemma EncodeLast(fields: seq<Field>, last: Field)
    ensures EncodeFields(fields + [last]) == EncodeFields(fields) + EncodeField(last)
  {
    hide EncodeField;
    assert (fields + [last])[..|fields|] == fields;
  }

  lemma {:induction false} EncodeFromFront(fields: seq<Field>)
    requires fields != []
    ensures EncodeFields(fields) == EncodeField(fields[0]) + EncodeFields(fields[1..])
  {
    hide EncodeField;
    var n := |fields| - 1;
    if n == 0 {
      EncodeOne(fields[0]);
      assert fields == [fields[0]];
    } else {
      var middle := fields[1..n];
      EncodeFromFront(fields[..n]);
      assert fields[..n][1..] == middle;
      EncodeLast(fields[..n], fields[n]);
      EncodeLast(middle, fields[n]);
      hide EncodeFields;
      assert fields == fields[..n] + [fields[n]] && fields[1..] == middle + [fields[n]];
      Associative(EncodeField(fields[0]), EncodeFields(middle), EncodeField(fields[n]));
    }
  }

  lemma Associative(a: seq<Byte>, b: seq<Byte>, c: seq<Byte>)
    ensures (a + b) + c == a + (b + c)
  {}

  /** Decoding returns the fields that were encoded. */
  lemma {:induction false} FieldsRoundTrip(fields: seq<Field>)
    requires Short(fields)
    ensures DecodeFields(EncodeFields(fields)) == Some(fields)
  {
    if fields != [] {
      EncodeFromFront(fields);
      FieldsRoundTrip(fields[1..]);
      DecodeFirst(fields[0], EncodeFields(fields[1..]));
      assert [fields[0]] + fields[1..] == fields;
    }
  }

  lemma HeaderSplits(domain: seq<Byte>, relation: seq<Byte>, rest: seq<Byte>)
    requires NulFree(domain) && NulFree(relation)
    ensures SplitAtNul(Header(domain, relation) + rest) == Some((domain, relation + [0] + rest))
    ensures SplitAtNul(relation + [0] + rest) == Some((relation, rest))
  {
    assert Header(domain, relation) + rest == domain + [0] + (relation + [0] + rest);
    SplitRoundTrip(domain, relation + [0] + rest);
    SplitRoundTrip(relation, rest);
  }

  /** The hashed bytes of an identity determine domain, relation and fields. */
  lemma IdentityFrameIsInjective(
      d1: seq<Byte>, r1: seq<Byte>, f1: seq<Field>, d2: seq<Byte>, r2: seq<Byte>, f2: seq<Field>)
    requires NulFree(d1) && NulFree(r1) && NulFree(d2) && NulFree(r2) && Short(f1) && Short(f2)
    requires IdentityFrame(d1, r1, f1) == IdentityFrame(d2, r2, f2)
    ensures d1 == d2 && r1 == r2 && f1 == f2
  {
    HeaderSplits(d1, r1, EncodeFields(f1));
    HeaderSplits(d2, r2, EncodeFields(f2));
    FieldsRoundTrip(f1);
    FieldsRoundTrip(f2);
  }

  /** The hashed bytes of a slot determine domain, relation, digest and attempt. */
  lemma SlotFrameIsInjective(
      d1: seq<Byte>, r1: seq<Byte>, g1: seq<Byte>, a1: nat, d2: seq<Byte>, r2: seq<Byte>, g2: seq<Byte>, a2: nat)
    requires NulFree(d1) && NulFree(r1) && NulFree(d2) && NulFree(r2) && a1 < TWO32 && a2 < TWO32
    requires SlotFrame(d1, r1, g1, a1) == SlotFrame(d2, r2, g2, a2)
    ensures d1 == d2 && r1 == r2 && g1 == g2 && a1 == a2
  {
    var x, y := g1 + BigEndian32(a1), g2 + BigEndian32(a2);
    assert SlotFrame(d1, r1, g1, a1) == Header(d1, r1) + x;
    assert SlotFrame(d2, r2, g2, a2) == Header(d2, r2) + y;
    HeaderSplits(d1, r1, x);
    HeaderSplits(d2, r2, y);
    assert x == y;
    SameHead(g1, BigEndian32(a1), g2, BigEndian32(a2));
    BigEndianRoundTrip(a1);
    BigEndianRoundTrip(a2);
  }

  function Zeros(n: nat): (zeros: seq<Byte>)
    ensures |zeros| == n
  {
    seq(n, _ => 0)
  }

  lemma {:induction false} NullFieldsAreZeros(n: nat)
    ensures EncodeFields(seq(n, _ => Null)) == Zeros(n)
  {
    if n > 0 {
      var nulls: seq<Field> := seq(n, _ => Null);
      assert nulls[..n - 1] == seq(n - 1, _ => Null);
      NullFieldsAreZeros(n - 1);
    }
  }

  /** Why lengths below 2^32 matter: a longer field has the bytes of a short field and many null ones. */
  lemma LongFieldCollides()
    ensures var long, short := [Present(Zeros(TWO32 + 1))], [Present(Zeros(1))] + seq(TWO32, _ => Null);
            long != short && EncodeFields(long) == EncodeFields(short)
  {
    var nulls: seq<Field> := seq(TWO32, _ => Null);
    var first := Present(Zeros(1));
    EncodeFromFront([first] + nulls);
    assert ([first] + nulls)[1..] == nulls;
    NullFieldsAreZeros(TWO32);
    EncodeOne(Present(Zeros(TWO32 + 1)));
    assert Zeros(TWO32 + 1) == Zeros(1) + Zeros(TWO32);
  }

  // ----- the writer -----

  class HashWriter {
    var written: seq<Byte>

    constructor ()
      ensures written == []
    {
      written := [];
    }

    method Write(bytes: seq<Byte>)
      modifies this
      ensures written == old(written) + bytes
    {
      written := written + bytes;
    }

    /** A null marker, or a presence marker, the length and the value. */
    method WriteField(field: Field)
      modifies this
      ensures written == old(written) + EncodeField(field)
    {
      match field
      case Null => Write([FIELD_NULL]);
      case Present(value) =>
        Write([FIELD_PRESENT]);
        Write(BigEndian32(|value| % TWO32));
        Write(value);
    }
  }

  /** `sum`: the writes it makes, one after the other, give the framed bytes; `hash` stands for SHA-256. */
  method Sum(hash: seq<Byte> -> nat, domain: string, relation: string, fields: seq<Field>) returns (digest: nat)
    ensures digest == hash(IdentityFrame(Encode(domain), Encode(relation), fields))
  {
    var writer := new HashWriter();
    writer.Write(Encode(domain));
    writer.Write([DOMAIN_SEPARATOR]);
    writer.Write(Encode(relation));
    writer.Write([DOMAIN_SEPARATOR]);
    ghost var header := writer.written;
    assert header == Header(Encode(domain), Encode(relation));
    assert header + EncodeFields(fields[..0]) == header;
    for i := 0 to |fields|
      invariant writer.written == header + EncodeFields(fields[..i])
    {
      writer.WriteField(fields[i]);
      assert fields[..i + 1][..i] == fields[..i];
      Associative(header, EncodeFields(fields[..i]), EncodeField(fields[i]));
    }
    assert fields[..|fields|] == fields;
    digest := hash(writer.written);
  }
}
