/**
 * The cache of genre and style names known to be committed, shared by concurrent chunk
 * workers whose transactions may roll back.
 */
module NameCache {
  import opened Options

  /** The names confirmed so far; the map is allocated by the first addition. */
  class NameSet {
    var names: Option<set<string>>

    constructor ()
      ensures Contents() == {}
    {
      names := None;
    }

    function Contents(): set<string>
      reads this
    {
      if names.None? then {} else names.value
    }

    method Add(name: string)
      modifies this
      ensures Contents() == old(Contents()) + {name}
    {
      if names.None? {
        names := Some({});
      }
      names := Some(names.value + {name});
    }

    method Contains(name: string) returns (exists_: bool)
      ensures exists_ <==> name in Contents()
    {
      exists_ := names.Some? && name in names.value;
    }

    method Reset()
      modifies this
      ensures Contents() == {}
    {
      names := None;
    }
  }

  ghost predicate Unique(names: seq<string>) {
    forall i, j :: 0 <= i < j < |names| ==> names[i] != names[j]
  }

  ghost predicate Named(rows: seq<Option<string>>, trim: string -> string, name: string) {
    exists i :: 0 <= i < |rows| && rows[i].Some? && trim(rows[i].value) == name
  }

  /** `a` occurs in a beginning of the rows in which `b` does not. */
  ghost predicate Precedes(rows: seq<Option<string>>, trim: string -> string, a: string, b: string) {
    exists p :: 0 <= p <= |rows| && Named(rows[..p], trim, a) && !Named(rows[..p], trim, b)
  }

  /** Drop missing rows, blank names and repetitions; normalize what remains. */
  method FilterNames(rows: seq<Option<string>>, trim: string -> string) returns (r: seq<string>)
    ensures Unique(r)
    ensures forall name :: name in r <==> name != "" && Named(rows, trim, name)
    ensures forall i, j :: 0 <= i < j < |r| ==> Precedes(rows, trim, r[i], r[j])
  {
    var seen: set<string> := {};
    r := [];
    for i := 0 to |rows|
      invariant Unique(r) && forall name :: name in r <==> name in seen
      invariant forall name :: name in seen <==> name != "" && Named(rows[..i], trim, name)
      invariant forall a, b :: 0 <= a < b < |r| ==> Precedes(rows, trim, r[a], r[b])
    {
      ghost var before, after := rows[..i], rows[..i + 1];
      assert after == before + [rows[i]];
      assert forall name :: Named(after, trim, name)
                            <==> Named(before, trim, name) || (rows[i].Some? && trim(rows[i].value) == name) by {
        forall name | Named(before, trim, name)
          ensures Named(after, trim, name)
        {
          var j :| 0 <= j < |before| && before[j].Some? && trim(before[j].value) == name;
          assert after[j] == before[j];
        }
        assert after[i] == rows[i];
      }
      if rows[i].Some? {
        var name := trim(rows[i].value);
        if name != "" && name !in seen {
          assert forall a :: 0 <= a < |r| ==> r[a] in r && Precedes(rows, trim, r[a], name);
          seen := seen + {name};
          r := r + [name];
        }
      }
    }
    assert rows[..|rows|] == rows;
  }

  /** The two names stand in this order in `names`. */
  ghost predicate InOrder(names: seq<string>, a: string, b: string) {
    exists p, q :: 0 <= p < q < |names| && names[p] == a && names[q] == b
  }

  ghost function Unconfirmed(names: seq<string>, known: set<string>): seq<string> {
    if names == [] then []
    else
      var n := |names| - 1;
      Unconfirmed(names[..n], known) + if names[n] in known then [] else [names[n]]
  }

  ghost predicate KeepsOrder(names: seq<string>, some: seq<string>) {
    forall i, j :: 0 <= i < j < |some| ==> InOrder(names, some[i], some[j])
  }

  lemma OrderGrows(before: seq<string>, name: string, some: seq<string>)
    requires KeepsOrder(before, some) && forall x :: x in some ==> x in before
    ensures KeepsOrder(before + [name], some) && KeepsOrder(before + [name], some + [name])
  {
    var names := before + [name];
    forall i, j | 0 <= i < j < |some|
      ensures InOrder(names, some[i], some[j])
    {
      var p, q :| 0 <= p < q < |before| && before[p] == some[i] && before[q] == some[j];
      assert names[p] == some[i] && names[q] == some[j];
    }
    forall i | 0 <= i < |some|
      ensures InOrder(names, some[i], name)
    {
      assert some[i] in before;
      var p :| 0 <= p < |before| && before[p] == some[i];
      assert names[p] == some[i] && names[|before|] == name;
    }
    hide InOrder;
  }

  /** A name is left out when it is known, and otherwise kept as often as it occurs. */
  lemma {:induction false} UnconfirmedCount(names: seq<string>, known: set<string>, name: string)
    ensures multiset(Unconfirmed(names, known))[name] == if name in known then 0 else multiset(names)[name]
  {
    if names != [] {
      var n := |names| - 1;
      UnconfirmedCount(names[..n], known, name);
      assert names == names[..n] + [names[n]];
    }
  }

  lemma {:induction false} UnconfirmedInOrder(names: seq<string>, known: set<string>)
    ensures forall name :: name in Unconfirmed(names, known) ==> name in names
    ensures KeepsOrder(names, Unconfirmed(names, known))
  {
    if names != [] {
      var n := |names| - 1;
      UnconfirmedInOrder(names[..n], known);
      OrderGrows(names[..n], names[n], Unconfirmed(names[..n], known));
      assert names == names[..n] + [names[n]];
      hide KeepsOrder;
    }
  }

  /** The names that the cache does not vouch for, in order and as often as they were given. */
  method FilterConfirmed(cache: NameSet, names: seq<string>) returns (pending: seq<string>)
    ensures forall name :: name in pending <==> name in names && name !in cache.Contents()
    ensures forall name :: name !in cache.Contents() ==> multiset(pending)[name] == multiset(names)[name]
    ensures forall i, j :: 0 <= i < j < |pending| ==> InOrder(names, pending[i], pending[j])
  {
    pending := [];
    for i := 0 to |names|
      invariant pending == Unconfirmed(names[..i], cache.Contents())
    {
      assert names[..i + 1][..i] == names[..i];
      var confirmed := cache.Contains(names[i]);
      if !confirmed {
        pending := pending + [names[i]];
      }
    }
    assert names[..|names|] == names;
    hide Unconfirmed, InOrder;
    UnconfirmedInOrder(names, cache.Contents());
    forall name
      ensures multiset(pending)[name] == if name in cache.Contents() then 0 else multiset(names)[name]
      ensures name in pending <==> name in names && name !in cache.Contents()
    {
      UnconfirmedCount(names, cache.Contents(), name);
      assert name in pending <==> name in multiset(pending);
      assert name in names <==> name in multiset(names);
    }
  }

  method Confirm(cache: NameSet, names: seq<string>)
    modifies cache
    ensures cache.Contents() == old(cache.Contents()) + set name | name in names
  {
    for i := 0 to |names|
      invariant cache.Contents() == old(cache.Contents()) + set name | name in names[..i]
    {
      cache.Add(names[i]);
    }
    assert names[..|names|] == names;
  }

  // ----- concurrent workers -----

  /** A worker examines the names of its chunk one by one, runs its transaction, then confirms one by one. */
  datatype Phase = Filtering(examined: nat) | Confirming(confirmed: nat)

  datatype Worker = Worker(chunk: int, pending: seq<string>, phase: Phase)

  /** `committed` and `recorded` are in the database; `cache` and `workers` belong to the process. */
  datatype State = State(
    cache: set<string>, workers: map<nat, Worker>,
    committed: set<string>, recorded: set<int>)

  datatype Step =
    | Begin(worker: nat, chunk: int)
    | Examine(worker: nat)
    | Commit(worker: nat)
      // the chunk was recorded before: the transaction writes nothing, yet the worker goes on to confirm
    | AlreadyCompleted(worker: nat)
    | Rollback(worker: nat)
    | ConfirmNext(worker: nat)
    | Finish(worker: nat)
      // the cache is emptied at the start of an import, whatever workers are doing
    | ResetCache
      // the process dies; a resuming one starts with an empty cache and without workers
    | Crash
      // ledger rows may be dropped; names are never deleted
    | Forget(chunk: int)

  /** `names` gives the normalized names of each chunk of the source. */
  ghost predicate Enabled(s: State, names: int -> seq<string>, step: Step) {
    match step
    case Begin(w, _) => w !in s.workers
    case Examine(w) =>
      w in s.workers && s.workers[w].phase.Filtering? && s.workers[w].phase.examined < |names(s.workers[w].chunk)|
    case Commit(w) => Examined(s, names, w) && s.workers[w].chunk !in s.recorded
    case AlreadyCompleted(w) => Examined(s, names, w) && s.workers[w].chunk in s.recorded
    case Rollback(w) => w in s.workers && s.workers[w].phase.Filtering?
    case ConfirmNext(w) =>
      w in s.workers && s.workers[w].phase.Confirming? && s.workers[w].phase.confirmed < |s.workers[w].pending|
    case Finish(w) =>
      w in s.workers && s.workers[w].phase.Confirming? && s.workers[w].phase.confirmed == |s.workers[w].pending|
    case ResetCache => true
    case Crash => true
    case Forget(_) => true
  }

  ghost predicate Examined(s: State, names: int -> seq<string>, w: nat) {
    w in s.workers && s.workers[w].phase.Filtering? && s.workers[w].phase.examined == |names(s.workers[w].chunk)|
  }

  ghost function Names(names: seq<string>): set<string> {
    set name | name in names
  }

  ghost function Apply(s: State, names: int -> seq<string>, step: Step): State
    requires Enabled(s, names, step)
  {
    match step
    case Begin(w, chunk) => s.(workers := s.workers[w := Worker(chunk, [], Filtering(0))])
    case Examine(w) =>
      var worker := s.workers[w];
      var name := names(worker.chunk)[worker.phase.examined];
      var pending := if name in s.cache then worker.pending else worker.pending + [name];
      s.(workers := s.workers[w := Worker(worker.chunk, pending, Filtering(worker.phase.examined + 1))])
    case Commit(w) =>
      var worker := s.workers[w];
      s.(committed := s.committed + Names(worker.pending),
         recorded := s.recorded + {worker.chunk},
         workers := s.workers[w := worker.(phase := Confirming(0))])
    case AlreadyCompleted(w) => s.(workers := s.workers[w := s.workers[w].(phase := Confirming(0))])
    case Rollback(w) => s.(workers := s.workers - {w})
    case ConfirmNext(w) =>
      var worker := s.workers[w];
      s.(cache := s.cache + {worker.pending[worker.phase.confirmed]},
         workers := s.workers[w := worker.(phase := Confirming(worker.phase.confirmed + 1))])
    case Finish(w) => s.(workers := s.workers - {w})
    case ResetCache => s.(cache := {})
    case Crash => s.(cache := {}, workers := map[])
    case Forget(chunk) => s.(recorded := s.recorded - {chunk})
  }

  /** The worker's pending names and those it skipped, as far as it got. */
  ghost predicate WorkerOk(s: State, names: int -> seq<string>, worker: Worker) {
    match worker.phase
    case Filtering(examined) =>
      && examined <= |names(worker.chunk)|
      && (forall i :: 0 <= i < examined ==>
            names(worker.chunk)[i] in worker.pending || names(worker.chunk)[i] in s.committed)
      && (forall name :: name in worker.pending ==> name in names(worker.chunk))
    case Confirming(_) => forall name :: name in worker.pending ==> name in s.committed
  }

  ghost predicate Inv(s: State, names: int -> seq<string>) {
    && s.cache <= s.committed
    && (forall i, name :: i in s.recorded && name in names(i) ==> name in s.committed)
    && (forall w :: w in s.workers ==> WorkerOk(s, names, s.workers[w]))
  }

  /** A committing worker leaves all names of its chunk committed, whether it inserted or skipped them. */
  lemma CommitCoversChunk(s: State, names: int -> seq<string>, w: nat)
    requires Inv(s, names) && Examined(s, names, w)
    ensures forall name :: name in names(s.workers[w].chunk) ==> name in s.committed + Names(s.workers[w].pending)
  {
    var worker := s.workers[w];
    assert WorkerOk(s, names, worker);
    forall name | name in names(worker.chunk)
      ensures name in s.committed + Names(worker.pending)
    {
      var i :| 0 <= i < |names(worker.chunk)| && names(worker.chunk)[i] == name;
    }
  }

  lemma StepKeepsInv(s: State, names: int -> seq<string>, step: Step)
    requires Inv(s, names) && Enabled(s, names, step)
    ensures Inv(Apply(s, names, step), names)
    ensures s.committed <= Apply(s, names, step).committed
  {
    var s' := Apply(s, names, step);
    if step.Commit? {
      CommitCoversChunk(s, names, step.worker);
    }
    forall w | w in s'.workers
      ensures WorkerOk(s', names, s'.workers[w])
    {
      if w in s.workers {
        assert WorkerOk(s, names, s.workers[w]);
      }
    }
  }

  ghost predicate Possible(s: State, names: int -> seq<string>, steps: seq<Step>)
    decreases |steps|
  {
    steps == [] || (Enabled(s, names, steps[0]) && Possible(Apply(s, names, steps[0]), names, steps[1..]))
  }

  ghost function After(s: State, names: int -> seq<string>, steps: seq<Step>): State
    requires Possible(s, names, steps)
    decreases |steps|
  {
    if steps == [] then s else After(Apply(s, names, steps[0]), names, steps[1..])
  }

  lemma {:induction false} HistoriesKeepInv(s: State, names: int -> seq<string>, steps: seq<Step>)
    requires Inv(s, names) && Possible(s, names, steps)
    ensures Inv(After(s, names, steps), names)
    decreases |steps|
  {
    if steps != [] {
      StepKeepsInv(s, names, steps[0]);
      HistoriesKeepInv(Apply(s, names, steps[0]), names, steps[1..]);
    }
  }

  /**
   * In every reachable state a cached name is committed, so skipping its insert is safe: a chunk
   * that commits finds all of its names in the database, including those it did not insert.
   */
  lemma CacheIsSound(s: State, names: int -> seq<string>, steps: seq<Step>, w: nat)
    requires s.cache == {} && s.workers == map[] && s.recorded == {}
    requires Possible(s, names, steps)
    ensures var t := After(s, names, steps);
            && t.cache <= t.committed
            && (forall i, name :: i in t.recorded && name in names(i) ==> name in t.committed)
            && (Enabled(t, names, Commit(w)) ==>
                  forall name :: name in names(t.workers[w].chunk) ==> name in Apply(t, names, Commit(w)).committed)
  {
    HistoriesKeepInv(s, names, steps);
    var t := After(s, names, steps);
    if Enabled(t, names, Commit(w)) {
      CommitCoversChunk(t, names, w);
    }
  }
}
