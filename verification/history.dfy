/** Counting in the history of committed business transactions, along resume paths. */
module History {
  import opened Database

  /** A run and the failed runs whose progress it inherited. */
  ghost function Path(runs: map<RunId, Run>, run: RunId): set<RunId>
    decreases if run < 0 then 0 else run
  {
    if run in runs && 0 < runs[run].resumedFrom < run then {run} + Path(runs, runs[run].resumedFrom) else {run}
  }

  /** A run resumes only from an earlier run, which had failed. */
  ghost predicate RunsOk(runs: map<RunId, Run>, length: nat) {
    forall r :: r in runs ==>
      && 0 < r
      && runs[r].admittedAt <= length
      && (runs[r].resumedFrom != 0 ==>
            && 0 < runs[r].resumedFrom < r
            && runs[r].resumedFrom in runs
            && runs[runs[r].resumedFrom].status == Failed
            && runs[runs[r].resumedFrom].admittedAt <= runs[r].admittedAt)
  }

  lemma {:induction false} PathMembers(runs: map<RunId, Run>, length: nat, run: RunId)
    requires RunsOk(runs, length) && run in runs
    ensures run in Path(runs, run)
    ensures forall r :: r in Path(runs, run) ==> r in runs && r <= run
    ensures forall r :: r in Path(runs, run) && r != run ==> runs[r].status == Failed
    decreases run
  {
    if runs[run].resumedFrom != 0 {
      PathMembers(runs, length, runs[run].resumedFrom);
    }
  }

  /** The path depends only on the links of runs that already existed. */
  lemma {:induction false} PathFrame(runs: map<RunId, Run>, runs': map<RunId, Run>, length: nat, run: RunId)
    requires RunsOk(runs, length) && run in runs
    requires forall r :: r in runs ==> r in runs' && runs'[r].resumedFrom == runs[r].resumedFrom
    ensures Path(runs', run) == Path(runs, run)
    decreases run
  {
    if runs[run].resumedFrom != 0 {
      PathFrame(runs, runs', length, runs[run].resumedFrom);
    }
  }

  ghost predicate IsChunk(c: Commit, path: set<RunId>, e: Entity) {
    c.ChunkCommit? && c.run in path && c.entity == e
  }

  /** How often chunk `i` of entity `e` was committed by the runs of `path`. */
  ghost function CommitCount(h: seq<Commit>, path: set<RunId>, e: Entity, i: int): nat {
    if h == [] then 0
    else
      var n := |h| - 1;
      CommitCount(h[..n], path, e, i) + if IsChunk(h[n], path, e) && h[n].index == i then 1 else 0
  }

  /** The items of all chunks of `e` committed by the runs of `path`. */
  ghost function CommittedItems(h: seq<Commit>, path: set<RunId>, e: Entity): int {
    if h == [] then 0
    else
      var n := |h| - 1;
      CommittedItems(h[..n], path, e) + if IsChunk(h[n], path, e) then h[n].range.count else 0
  }

  lemma Append(h: seq<Commit>, c: Commit, path: set<RunId>, e: Entity)
    ensures CommittedItems(h + [c], path, e)
            == CommittedItems(h, path, e) + if IsChunk(c, path, e) then c.range.count else 0
    ensures forall i :: (CommitCount(h + [c], path, e, i)
              == CommitCount(h, path, e, i) + if IsChunk(c, path, e) && c.index == i then 1 else 0)
  {
    assert (h + [c])[..|h|] == h;
  }

  /** Runs without a commit may be added to a path. */
  lemma {:induction false} IdleRun(h: seq<Commit>, path: set<RunId>, idle: RunId, e: Entity)
    requires forall p :: 0 <= p < |h| ==> h[p].run != idle
    ensures CommittedItems(h, path + {idle}, e) == CommittedItems(h, path, e)
    ensures forall i :: CommitCount(h, path + {idle}, e, i) == CommitCount(h, path, e, i)
  {
    if h != [] {
      IdleRun(h[..|h| - 1], path, idle, e);
    }
  }

  ghost predicate PositiveChunks(h: seq<Commit>) {
    forall p :: 0 <= p < |h| && h[p].ChunkCommit? ==> 0 < h[p].range.count
  }

  /** Without items there was no commit, because no chunk is empty. */
  lemma {:induction false} NoItemsNoCommits(h: seq<Commit>, path: set<RunId>, e: Entity)
    requires PositiveChunks(h)
    ensures 0 <= CommittedItems(h, path, e)
    ensures CommittedItems(h, path, e) == 0 ==> forall p :: 0 <= p < |h| ==> !IsChunk(h[p], path, e)
    ensures CommittedItems(h, path, e) == 0 ==> forall i :: CommitCount(h, path, e, i) == 0
  {
    if h != [] {
      var n := |h| - 1;
      assert PositiveChunks(h[..n]);
      NoItemsNoCommits(h[..n], path, e);
      if CommittedItems(h, path, e) == 0 {
        forall p | 0 <= p < |h|
          ensures !IsChunk(h[p], path, e)
        {
          if p < n { assert h[p] == h[..n][p]; }
        }
      }
    }
  }

  /** A chunk that was never counted appears nowhere. */
  lemma {:induction false} CountedOnce(h: seq<Commit>, path: set<RunId>, e: Entity, p: nat)
    requires p < |h| && IsChunk(h[p], path, e)
    ensures 1 <= CommitCount(h, path, e, h[p].index)
    ensures forall q :: p < q < |h| && IsChunk(h[q], path, e) && h[q].index == h[p].index ==>
              2 <= CommitCount(h, path, e, h[p].index)
  {
    var n := |h| - 1;
    if p < n {
      CountedOnce(h[..n], path, e, p);
      forall q | p < q < |h| && IsChunk(h[q], path, e) && h[q].index == h[p].index
        ensures 2 <= CommitCount(h, path, e, h[p].index)
      {
        if q < n { assert h[q] == h[..n][q]; }
      }
    }
  }

  lemma {:induction false} CountedSomewhere(h: seq<Commit>, path: set<RunId>, e: Entity, i: int) returns (p: nat)
    requires 1 <= CommitCount(h, path, e, i)
    ensures p < |h| && IsChunk(h[p], path, e) && h[p].index == i
  {
    var n := |h| - 1;
    if IsChunk(h[n], path, e) && h[n].index == i {
      p := n;
    } else {
      p := CountedSomewhere(h[..n], path, e, i);
    }
  }

  /** The effect of one commit on the content of an entity. */
  ghost function Effect(c: Content, commit: Commit, e: Entity): Content {
    if commit.entity != e then c
    else if commit.ChunkCommit? then WriteBatch(c, commit.batch)
    else c.(roots := c.roots + commit.rootRows)
  }

  /** The content an entity has after a history. */
  ghost function Replay(base: Content, h: seq<Commit>, e: Entity): Content {
    if h == [] then base else Effect(Replay(base, h[..|h| - 1], e), h[|h| - 1], e)
  }

  lemma ReplayAppend(base: Content, h: seq<Commit>, c: Commit, e: Entity)
    ensures Replay(base, h + [c], e) == Effect(Replay(base, h, e), c, e)
  {
    assert (h + [c])[..|h|] == h;
  }
}
