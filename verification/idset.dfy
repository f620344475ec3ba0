/** The segmented bit set of positive identifiers, sequentially and under concurrent additions. */
module IdSets {
  import opened Options
  import opened Sets

  /** A Go `int32` as its bit pattern. */
  type Id = bv32

  /** `id >= 1` as a signed number. */
  predicate Positive(id: Id) { 0 < id < 0x8000_0000 }

  const SEGMENT_WORDS := 1024

  function SegmentOf(id: Id): nat { (id >> 16) as int }

  /** The word within the segment. */
  function WordOf(id: Id): (word: nat)
    ensures word < SEGMENT_WORDS
  {
    WordInRange(id);
    ((id & 0xFFFF) >> 6) as int
  }

  lemma WordInRange(id: Id)
    ensures ((id & 0xFFFF) >> 6) as int < 1024
  {
    Small((id & 0xFFFF) >> 6);
  }

  lemma Small(x: bv32)
    requires x < 1024
    ensures x as int < 1024
  {}

  lemma AndBack(x: bv32)
    ensures (x as int) as bv32 == x
  {}

  /** The bit within the word. */
  function BitOf(id: Id): bv64 {
    (1 as bv64) << (id & 0xFFFF & 63)
  }

  /** Two words with a common bit. */
  predicate Meets(x: bv64, y: bv64) { x & y != 0 }

  /** Segment, word and bit together identify the identifier. */
  lemma PositionIsUnique(a: Id, b: Id)
    ensures SegmentOf(a) == SegmentOf(b) && WordOf(a) == WordOf(b) && Meets(BitOf(a), BitOf(b)) <==> a == b
  {
    hide SegmentOf, WordOf, BitOf, Meets;
    OwnBit(a);
    if SegmentOf(a) == SegmentOf(b) && WordOf(a) == WordOf(b) && Meets(BitOf(a), BitOf(b)) {
      SameSegment(a, b);
      SameWord(a, b);
      CommonBit(a, b);
      SameParts(a, b);
    }
  }

  lemma OwnBit(a: Id)
    ensures Meets(BitOf(a), BitOf(a))
  {
    LowBits(a);
    SelfBit(a & 63);
  }

  lemma CommonBit(a: Id, b: Id)
    requires Meets(BitOf(a), BitOf(b))
    ensures a & 63 == b & 63
  {
    LowBits(a);
    LowBits(b);
    SameBit(a & 63, b & 63);
  }

  lemma LowBits(a: Id)
    ensures a & 0xFFFF & 63 == a & 63 && a & 63 < 64
  {}

  lemma SelfBit(b: bv32)
    requires b < 64
    ensures ((1 as bv64) << b) & ((1 as bv64) << b) != 0
  {}

  lemma SameBit(b: bv32, c: bv32)
    requires b < 64 && c < 64 && ((1 as bv64) << b) & ((1 as bv64) << c) != 0
    ensures b == c
  {}

  lemma SameWord(a: Id, b: Id)
    requires WordOf(a) == WordOf(b)
    ensures (a & 0xFFFF) >> 6 == (b & 0xFFFF) >> 6
  {
    AndBack((a & 0xFFFF) >> 6);
    AndBack((b & 0xFFFF) >> 6);
  }

  lemma SameSegment(a: Id, b: Id)
    requires SegmentOf(a) == SegmentOf(b)
    ensures a >> 16 == b >> 16
  {
    AndBack(a >> 16);
    AndBack(b >> 16);
  }

  lemma SameParts(a: bv32, b: bv32)
    requires a >> 16 == b >> 16 && (a & 0xFFFF) >> 6 == (b & 0xFFFF) >> 6 && a & 63 == b & 63
    ensures a == b
  {}

  predicate HasBit(word: bv64, id: Id) { Meets(word, BitOf(id)) }

  function WithBit(word: bv64, id: Id): bv64 { word | BitOf(id) }

  lemma OrSets(word: bv64, set_: bv64, asked: bv64)
    ensures Meets(word | set_, asked) <==> Meets(word, asked) || Meets(set_, asked)
  {
    Distributes(word, set_, asked);
    NoneOfBoth(word & asked, set_ & asked);
  }

  lemma Distributes(x: bv64, y: bv64, z: bv64)
    ensures (x | y) & z == (x & z) | (y & z)
  {}

  lemma NoneOfBoth(x: bv64, y: bv64)
    ensures x | y == 0 <==> x == 0 && y == 0
  {}

  /** Setting the bit of `id` adds `id` to the identifiers of its word, and no other. */
  lemma WithBitAdds(word: bv64, id: Id, other: Id)
    requires SegmentOf(other) == SegmentOf(id) && WordOf(other) == WordOf(id)
    ensures HasBit(WithBit(word, id), other) <==> HasBit(word, other) || other == id
  {
    hide SegmentOf, WordOf, BitOf, Meets;
    PositionIsUnique(id, other);
    OrSets(word, BitOf(id), BitOf(other));
  }

  lemma EmptyWord(id: Id)
    ensures !HasBit(0, id)
  {
    hide BitOf, Meets;
    NoBit(BitOf(id));
  }

  lemma NoBit(bit: bv64)
    ensures !Meets(0, bit)
  {}

  class IDSet {
    var segments: map<nat, array<bv64>>

    /** Segments are arrays of their own. */
    ghost predicate Shaped()
      reads this, segments.Values
    {
      && (forall s :: s in segments ==> segments[s].Length == SEGMENT_WORDS)
      && (forall s, t :: s in segments && t in segments && segments[s] == segments[t] ==> s == t)
    }

    ghost predicate Holds(id: Id)
      requires Shaped()
      reads this, segments.Values
    {
      Positive(id) && SegmentOf(id) in segments && HasBit(segments[SegmentOf(id)][WordOf(id)], id)
    }

    ghost function Contents(): iset<Id>
      requires Shaped()
      reads this, segments.Values
    {
      iset id | Holds(id)
    }

    /** A segment is allocated only for an identifier that is in the set. */
    ghost predicate Valid()
      reads this, segments.Values
    {
      Shaped() && forall s :: s in segments ==> exists id :: id in Contents() && SegmentOf(id) == s
    }

    constructor ()
      ensures Valid() && Contents() == iset{} && segments == map[]
    {
      segments := map[];
    }

    method Contains(id: Id) returns (found: bool)
      requires Shaped()
      ensures found <==> id in Contents()
    {
      if !Positive(id) {
        return false;
      }
      if SegmentOf(id) !in segments {
        return false;
      }
      var word := segments[SegmentOf(id)][WordOf(id)];
      return HasBit(word, id);
    }

    /** `LoadOrStore`: the segment of a range, allocated empty when missing. */
    method LoadOrStore(range: nat) returns (segment: array<bv64>)
      requires Shaped()
      modifies this
      ensures Shaped() && range in segments && segments[range] == segment
      ensures segments.Keys == old(segments.Keys) + {range}
      ensures segment in old(segments.Values) || fresh(segment)
      ensures forall s :: s in old(segments) ==> segments[s] == old(segments[s])
      ensures Contents() == old(Contents())
    {
      ghost var before := Contents();
      if range in segments {
        return segments[range];
      }
      segment := new bv64[SEGMENT_WORDS](_ => 0);
      segments := segments[range := segment];
      hide SegmentOf, WordOf, Meets, HasBit, WithBit;
      forall other: Id
        ensures Holds(other) <==> other in before
      {
        EmptyWord(other);
      }
    }

    /** Setting the bit of `id` in its segment adds `id` and nothing else. */
    method SetBit(segment: array<bv64>, id: Id)
      requires Shaped() && Positive(id) && SegmentOf(id) in segments && segments[SegmentOf(id)] == segment
      modifies segment
      ensures Shaped() && Contents() == old(Contents()) + iset{id}
    {
      hide SegmentOf, WordOf, Meets, HasBit, WithBit;
      ghost var before, word := Contents(), segment[WordOf(id)];
      segment[WordOf(id)] := WithBit(segment[WordOf(id)], id);
      forall other: Id
        ensures Holds(other) <==> other in before || other == id
      {
        if SegmentOf(other) == SegmentOf(id) && WordOf(other) == WordOf(id) {
          WithBitAdds(word, id, other);
        }
      }
    }

    method Add(id: Id)
      requires Valid()
      modifies this, segments.Values
      ensures Valid() && Contents() == old(Contents()) + (if Positive(id) then iset{id} else iset{})
    {
      if !Positive(id) {
        return;
      }
      hide SegmentOf, WordOf, Meets, HasBit, WithBit, Holds;
      ghost var before := Contents();
      var segment := LoadOrStore(SegmentOf(id));
      SetBit(segment, id);
      assert Contents() == before + iset{id};
      forall s | s in segments
        ensures exists x :: x in Contents() && SegmentOf(x) == s
      {
        if s in old(segments) {
          var x :| x in before && SegmentOf(x) == s;
          assert x in Contents();
        } else {
          assert id in Contents();
        }
      }
    }

    /** Delete the segments one by one, in any order. */
    method Reset()
      requires Valid()
      modifies this
      ensures Valid() && Contents() == iset{}
    {
      while segments != map[]
        invariant Shaped() && segments.Values <= old(segments.Values)
        decreases |segments|
      {
        ghost var some := Pick(segments.Keys);
        var s :| s in segments;
        ghost var before := segments;
        segments := segments - {s};
        assert before.Keys == segments.Keys + {s} && |before.Keys| == |before| && |segments.Keys| == |segments|;
      }
    }

    /** One 8 KiB segment per range of 65,536 identifiers that has a member. */
    method AllocatedWordBytes() returns (bytes: int)
      requires Valid()
      ensures bytes == |segments.Keys| * 8192
      ensures forall s :: s in segments.Keys <==> exists id :: id in Contents() && SegmentOf(id) == s
    {
      var count := 0;
      var rest := segments.Keys;
      while rest != {}
        invariant count + |rest| == |segments.Keys|
        decreases |rest|
      {
        ghost var some := Pick(rest);
        var s :| s in rest;
        rest := rest - {s};
        count := count + 1;
      }
      bytes := count * SEGMENT_WORDS * 8;
    }
  }

  // ----- concurrent additions -----

  /** Where a goroutine stands in `Add`. */
  datatype Thread =
    | Loading(id: Id)
      // the load found no segment
    | Missing(id: Id)
    | Holding(id: Id, segment: nat)

  /** `segments` maps ranges to segment pointers, `heap` pointers to words; `added` are the completed additions. */
  datatype Shared = Shared(
    segments: map<nat, nat>, heap: map<nat, seq<bv64>>, threads: map<nat, Thread>, added: set<Id>)

  datatype Step =
    | Call(thread: nat, id: Id)
    | Load(thread: nat)
      // `pointer` is the freshly allocated segment that the call offers
    | LoadOrStore(thread: nat, pointer: nat)
    | Or(thread: nat)

  ghost predicate Enabled(s: Shared, step: Step) {
    match step
    case Call(t, id) => t !in s.threads && Positive(id)
    case Load(t) => t in s.threads && s.threads[t].Loading?
    case LoadOrStore(t, p) => t in s.threads && s.threads[t].Missing? && p !in s.heap
    case Or(t) => t in s.threads && s.threads[t].Holding? && s.threads[t].segment in s.heap
                  && |s.heap[s.threads[t].segment]| == SEGMENT_WORDS
  }

  ghost function Apply(s: Shared, step: Step): Shared
    requires Enabled(s, step)
  {
    match step
    case Call(t, id) => s.(threads := s.threads[t := Loading(id)])
    case Load(t) =>
      var id := s.threads[t].id;
      var next := if SegmentOf(id) in s.segments then Holding(id, s.segments[SegmentOf(id)]) else Missing(id);
      s.(threads := s.threads[t := next])
    case LoadOrStore(t, p) =>
      var id := s.threads[t].id;
      var range := SegmentOf(id);
      if range in s.segments then s.(threads := s.threads[t := Holding(id, s.segments[range])])
      else
        s.(segments := s.segments[range := p], heap := s.heap[p := seq(SEGMENT_WORDS, _ => 0)],
           threads := s.threads[t := Holding(id, p)])
    case Or(t) =>
      var id, p := s.threads[t].id, s.threads[t].segment;
      s.(heap := s.heap[p := s.heap[p][WordOf(id) := WithBit(s.heap[p][WordOf(id)], id)]],
         threads := s.threads - {t}, added := s.added + {id})
  }

  ghost predicate ShapeOk(s: Shared) {
    && (forall r :: r in s.segments ==> s.segments[r] in s.heap && |s.heap[s.segments[r]]| == SEGMENT_WORDS)
    && (forall r, q :: r in s.segments && q in s.segments && s.segments[r] == s.segments[q] ==> r == q)
  }

  /** What a `Contains` would answer now. */
  ghost predicate Visible(s: Shared, id: Id)
    requires ShapeOk(s)
  {
    Positive(id) && SegmentOf(id) in s.segments && HasBit(s.heap[s.segments[SegmentOf(id)]][WordOf(id)], id)
  }

  /** A goroutine that holds a segment holds the one that is in the map. */
  ghost predicate ThreadsOk(s: Shared) {
    forall t :: t in s.threads ==>
      && Positive(s.threads[t].id)
      && (s.threads[t].Holding? ==>
            SegmentOf(s.threads[t].id) in s.segments && s.segments[SegmentOf(s.threads[t].id)] == s.threads[t].segment)
  }

  ghost predicate Inv(s: Shared) {
    ShapeOk(s) && ThreadsOk(s) && forall id :: Visible(s, id) <==> id in s.added
  }

  lemma OrKeepsInv(s: Shared, t: nat)
    requires Inv(s) && Enabled(s, Or(t))
    ensures Inv(Apply(s, Or(t)))
  {
    hide SegmentOf, WordOf, Meets, HasBit, WithBit;
    var s' := Apply(s, Or(t));
    var id := s.threads[t].id;
    assert ShapeOk(s');
    forall other: Id
      ensures Visible(s', other) <==> other in s'.added
    {
      assert Visible(s, other) <==> other in s.added;
      if SegmentOf(other) == SegmentOf(id) && WordOf(other) == WordOf(id) {
        WithBitAdds(s.heap[s.threads[t].segment][WordOf(id)], id, other);
      }
    }
  }

  lemma StoreKeepsInv(s: Shared, t: nat, p: nat)
    requires Inv(s) && Enabled(s, LoadOrStore(t, p))
    ensures Inv(Apply(s, LoadOrStore(t, p)))
  {
    hide SegmentOf, WordOf, Meets, HasBit, WithBit;
    var s' := Apply(s, LoadOrStore(t, p));
    assert ShapeOk(s');
    forall other: Id
      ensures Visible(s', other) <==> other in s'.added
    {
      assert Visible(s, other) <==> other in s.added;
      EmptyWord(other);
    }
  }

  lemma StepKeepsInv(s: Shared, step: Step)
    requires Inv(s) && Enabled(s, step)
    ensures Inv(Apply(s, step))
  {
    hide SegmentOf, WordOf, Meets, HasBit, WithBit;
    match step
    case Or(t) => OrKeepsInv(s, t);
    case LoadOrStore(t, p) => StoreKeepsInv(s, t, p);
    case _ =>
      var s' := Apply(s, step);
      forall other: Id
        ensures Visible(s', other) <==> other in s'.added
      {
        assert Visible(s, other) <==> other in s.added;
      }
  }

  ghost predicate Possible(s: Shared, steps: seq<Step>)
    decreases |steps|
  {
    steps == [] || (Enabled(s, steps[0]) && Possible(Apply(s, steps[0]), steps[1..]))
  }

  ghost function After(s: Shared, steps: seq<Step>): Shared
    requires Possible(s, steps)
    decreases |steps|
  {
    if steps == [] then s else After(Apply(s, steps[0]), steps[1..])
  }

  /** However concurrent additions interleave, the set shows exactly the identifiers whose addition has completed. */
  lemma {:induction false} NoMemberIsLost(s: Shared, steps: seq<Step>)
    requires Inv(s) && Possible(s, steps)
    ensures Inv(After(s, steps))
    ensures forall id :: Visible(After(s, steps), id) <==> id in After(s, steps).added
    decreases |steps|
  {
    if steps != [] {
      StepKeepsInv(s, steps[0]);
      NoMemberIsLost(Apply(s, steps[0]), steps[1..]);
    }
  }

  /** The empty set, before any goroutine has called `Add`. */
  const EMPTY := Shared(map[], map[], map[], {})

  lemma EmptyInv()
    ensures Inv(EMPTY)
  {}

  /** In particular from the empty set: it shows exactly what was added. */
  lemma ConcurrentAddsAreComplete(steps: seq<Step>)
    requires Possible(EMPTY, steps)
    ensures Inv(After(EMPTY, steps))
    ensures forall id :: Visible(After(EMPTY, steps), id) <==> id in After(EMPTY, steps).added
  {
    EmptyInv();
    hide Inv, Possible, After;
    NoMemberIsLost(EMPTY, steps);
  }
}
