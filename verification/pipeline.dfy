/**
 * The worker pipeline of one entity: a source callback that submits chunks, a semaphore that
 * bounds the workers, an unbuffered results channel, and a receiver that sums and finalizes.
 */
module Pipeline {
  import opened Options
  import opened Coverage

  /** A written count and the first error. */
  datatype Outcome = Outcome(count: int, err: Option<string>)

  /** `Result`, whose `Sum` updates its receiver. */
  class Tally {
    var count: int
    var err: Option<string>

    ghost function Value(): Outcome
      reads this
    {
      Outcome(count, err)
    }

    constructor (count: int, err: Option<string>)
      ensures Value() == Outcome(count, err)
    {
      this.count := count;
      this.err := err;
    }

    method Sum(that: Outcome)
      modifies this
      ensures Value() == Total(old(Value()), that)
    {
      count := count + that.count;
      if err.None? {
        err := that.err;
      }
    }
  }

  /** Counts add up; the earlier error wins. */
  function Total(a: Outcome, b: Outcome): Outcome {
    Outcome(a.count + b.count, if a.err.Some? then a.err else b.err)
  }

  ghost function TotalOf(outcomes: seq<Outcome>): Outcome {
    if outcomes == [] then Outcome(0, None)
    else Total(TotalOf(outcomes[..|outcomes| - 1]), outcomes[|outcomes| - 1])
  }

  /** The total is without error exactly when every part is, whatever the order in which the parts came. */
  lemma {:induction false} TotalOkIff(outcomes: seq<Outcome>)
    ensures TotalOf(outcomes).err.None? <==> forall i :: 0 <= i < |outcomes| ==> outcomes[i].err.None?
  {
    if outcomes != [] {
      var n := |outcomes| - 1;
      TotalOkIff(outcomes[..n]);
      assert forall i :: 0 <= i < n ==> outcomes[..n][i] == outcomes[i];
    }
  }

  lemma NoneYet()
    ensures TotalOf([]) == Outcome(0, None)
  {}

  lemma OneMoreOutcome(outcomes: seq<Outcome>, outcome: Outcome)
    ensures TotalOf(outcomes + [outcome]) == Total(TotalOf(outcomes), outcome)
    ensures (forall i :: 0 <= i < |outcomes| ==> outcomes[i].err.None?) ==> TotalOf(outcomes).err.None?
  {
    assert (outcomes + [outcome])[..|outcomes|] == outcomes;
    TotalOkIff(outcomes);
  }

  /** What some reconciliations, run one after the other, make of the tables, and what each of them reports. */
  ghost function RunAll<S>(reconcile: seq<S -> (S, Outcome)>, before: S): (r: (S, seq<Outcome>))
    ensures |r.1| == |reconcile|
  {
    if reconcile == [] then (before, [])
    else
      var n := |reconcile| - 1;
      var (state, outcomes) := RunAll(reconcile[..n], before);
      var (state', outcome) := reconcile[n](state);
      (state', outcomes + [outcome])
  }

  lemma NothingRun<S>(reconcile: seq<S -> (S, Outcome)>, before: S)
    ensures RunAll(reconcile[..0], before) == (before, [])
  {}

  lemma RunOneMore<S>(reconcile: seq<S -> (S, Outcome)>, before: S, n: nat)
    requires n < |reconcile|
    ensures var (state, outcomes) := RunAll(reconcile[..n], before);
            var (state', outcome) := reconcile[n](state);
            RunAll(reconcile[..n + 1], before) == (state', outcomes + [outcome])
  {
    assert reconcile[..n + 1][..n] == reconcile[..n];
  }

  /**
   * `reconcileRelations`: run the reconciliations in order and stop after the first that fails, so
   * that the tables are as the first `ran` of them leave them.
   */
  method ReconcileRelations<S>(reconcile: seq<S -> (S, Outcome)>, before: S) returns (tables: S, written: Tally, ran: nat)
    ensures ran <= |reconcile| && tables == RunAll(reconcile[..ran], before).0
    ensures var outcomes := RunAll(reconcile[..ran], before).1;
            && written.Value() == TotalOf(outcomes)
            && (forall i :: 0 <= i < ran - 1 ==> outcomes[i].err.None?)
            && (ran < |reconcile| ==> ran > 0 && outcomes[ran - 1].err.Some?)
    ensures fresh(written)
  {
    hide TotalOf, RunAll;
    NothingRun(reconcile, before);
    written := new Tally(0, None);
    tables, ran := before, 0;
    ghost var outcomes: seq<Outcome> := [];
    NoneYet();
    for i := 0 to |reconcile|
      invariant ran == i && fresh(written) && written.Value() == TotalOf(outcomes)
      invariant RunAll(reconcile[..i], before) == (tables, outcomes)
      invariant forall j :: 0 <= j < i ==> outcomes[j].err.None?
    {
      RunOneMore(reconcile, before, i);
      var (next, outcome) := reconcile[i](tables);
      OneMoreOutcome(outcomes, outcome);
      tables := next;
      outcomes := outcomes + [outcome];
      written.Sum(outcome);
      ran := i + 1;
      if written.err.Some? {
        return;
      }
    }
  }

  /** Keeps the first error it is given. */
  class SourceErrorRecorder {
    var err: Option<string>

    constructor ()
      ensures err == None
    {
      err := None;
    }

    method Record(e: Option<string>)
      modifies this
      ensures err == if old(err).Some? then old(err) else e
    {
      if e.None? {
        return;
      }
      if err.Some? {
        return;
      }
      err := e;
    }
  }

  // ----- the pipeline as a state machine -----

  /** A worker: its body writes, then blocks sending its result, then returns; its slot is freed last. */
  datatype Phase = Writing | Sending(outcome: Outcome) | Sent | Exiting

  /** The source callback: between windows, submitting a chunk, waiting for the workers, or done. */
  datatype Callback = Between | Submitting(chunk: nat) | Selecting(chunk: nat) | Waiting | Closed

  datatype State = State(
    ranges: seq<ChunkRange>, totalItems: int, callback: Callback, workers: map<nat, Phase>,
    pending: int, slots: int, cancelled: bool, sourceErr: Option<string>,
    accepted: set<nat>, skipped: set<nat>, received: seq<(nat, Outcome)>, finalized: Option<bool>)

  const START := State([], 0, Between, map[], 0, 0, false, None, {}, {}, [], None)

  datatype Step =
    | Window(count: nat)
    | CheckContext
    | Accept
    | Refuse
    | FinishWriting(chunk: nat, outcome: Outcome)
    | Receive(chunk: nat)
    | BodyReturns(chunk: nat)
    | FreeSlot(chunk: nat)
    | SourceFails(err: string)
    | CancelFromOutside
    | SourceEnds
    | Close
    | Finish

  predicate CallbackBusy(c: Callback) { c.Submitting? || c.Selecting? }

  ghost predicate Enabled(s: State, maxWorkers: nat, step: Step) {
    match step
    case Window(_) => s.callback == Between
    case CheckContext => s.callback.Submitting?
    case Accept => s.callback.Selecting? && s.slots < maxWorkers
    case Refuse => s.callback.Selecting? && s.cancelled
    case FinishWriting(c, _) => c in s.workers && s.workers[c] == Writing
    case Receive(c) => c in s.workers && s.workers[c].Sending? && s.finalized.None?
    case BodyReturns(c) => c in s.workers && s.workers[c] == Sent
    case FreeSlot(c) => c in s.workers && s.workers[c] == Exiting
    case SourceFails(_) => s.callback == Between
    case CancelFromOutside => true
    case SourceEnds => s.callback == Between
    case Close => s.callback == Waiting && s.pending == 0
    case Finish => s.callback == Closed && s.finalized.None?
  }

  ghost function Record(s: State, err: string): State {
    if s.sourceErr.Some? then s else s.(sourceErr := Some(err))
  }

  /** A chunk that the inventory records with this range is skipped; with another range it is an error. */
  ghost function Deliver(s: State, inventory: Ledger, count: nat): State {
    if count == 0 then s
    else
      var c, range := |s.ranges|, ChunkRange(s.totalItems, count);
      var t := s.(ranges := s.ranges + [range], totalItems := s.totalItems + count);
      if c in inventory then
        if inventory[c] == range then t.(skipped := t.skipped + {c})
        else Record(t, "recorded range does not match").(cancelled := true)
      else t.(callback := Submitting(c), pending := t.pending + 1)
  }

  ghost function Reject(s: State): State {
    Record(s, "context canceled").(callback := Between, pending := s.pending - 1)
  }

  ghost function Apply(s: State, maxWorkers: nat, inventory: Ledger, step: Step): State
    requires Enabled(s, maxWorkers, step)
  {
    match step
    case Window(count) => Deliver(s, inventory, count)
    case CheckContext => if s.cancelled then Reject(s) else s.(callback := Selecting(s.callback.chunk))
    case Accept =>
      var c := s.callback.chunk;
      s.(callback := Between, workers := s.workers[c := Writing], slots := s.slots + 1, accepted := s.accepted + {c})
    case Refuse => Reject(s)
    case FinishWriting(c, outcome) =>
      s.(workers := s.workers[c := Sending(outcome)], cancelled := s.cancelled || outcome.err.Some?)
    case Receive(c) => s.(workers := s.workers[c := Sent], received := s.received + [(c, s.workers[c].outcome)])
    case BodyReturns(c) => s.(workers := s.workers[c := Exiting], pending := s.pending - 1)
    case FreeSlot(c) => s.(workers := s.workers - {c}, slots := s.slots - 1)
    case SourceFails(err) => Record(s, err)
    case CancelFromOutside => s.(cancelled := true)
    case SourceEnds => s.(callback := Waiting)
    case Close => s.(callback := Closed)
    case Finish => s.(finalized := Some(TotalOf(Outcomes(s.received)).err.None? && s.sourceErr.None?))
  }

  ghost function Outcomes(received: seq<(nat, Outcome)>): seq<Outcome> {
    seq(|received|, i requires 0 <= i < |received| => received[i].1)
  }

  /** Workers whose body has not returned. */
  ghost function Active(workers: map<nat, Phase>): set<nat> {
    set c | c in workers && workers[c] != Exiting
  }

  ghost predicate Unsent(workers: map<nat, Phase>, c: nat) {
    c in workers && (workers[c].Writing? || workers[c].Sending?)
  }

  ghost predicate Delivered(received: seq<(nat, Outcome)>, c: nat) {
    exists i :: 0 <= i < |received| && received[i].0 == c
  }

  /** Slots and the wait group count what they should. */
  ghost predicate CountsOk(slots: int, pending: int, workers: map<nat, Phase>, callback: Callback, maxWorkers: nat) {
    && slots == |workers| && slots <= maxWorkers
    && pending == |Active(workers)| + (if CallbackBusy(callback) then 1 else 0)
    && (callback == Closed ==> pending == 0)
  }

  /** Each accepted worker sends one result, and only accepted workers do. */
  ghost predicate ResultsOk(workers: map<nat, Phase>, accepted: set<nat>, received: seq<(nat, Outcome)>) {
    && (forall c :: c in workers ==> c in accepted)
    && (forall c :: c in accepted ==> (Delivered(received, c) <==> !Unsent(workers, c)))
    && (forall i :: 0 <= i < |received| ==> received[i].0 in accepted)
    && (forall i, j :: 0 <= i < j < |received| ==> received[i].0 != received[j].0)
  }

  /** Every delivered window is accounted for. */
  ghost predicate WindowsOk(
      ranges: seq<ChunkRange>, accepted: set<nat>, skipped: set<nat>, callback: Callback, sourceErr: Option<string>,
      inventory: Ledger)
  {
    && (forall c :: c in accepted ==> c < |ranges|)
    && (forall c :: c in skipped ==> c < |ranges| && c in inventory && inventory[c] == ranges[c])
    && (CallbackBusy(callback) ==> callback.chunk < |ranges| && callback.chunk !in accepted)
    && (forall c: nat :: c < |ranges| ==>
          || c in accepted || c in skipped || sourceErr.Some?
          || (CallbackBusy(callback) && callback.chunk == c))
  }

  /** The windows follow one another without gap, and the item total is where the last one ends. */
  ghost predicate RangesOk(ranges: seq<ChunkRange>, totalItems: int) {
    && (if ranges == [] then totalItems == 0 else ranges[0].first == 0 && Stop(ranges[|ranges| - 1]) == totalItems)
    && (forall i :: 0 <= i < |ranges| ==> 0 < ranges[i].count)
    && (forall i :: 0 < i < |ranges| ==> ranges[i].first == Stop(ranges[i - 1]))
  }

  ghost function Stop(range: ChunkRange): int { range.first + range.count }

  ghost predicate FinalOk(finalized: Option<bool>, callback: Callback, received: seq<(nat, Outcome)>, sourceErr: Option<string>) {
    finalized.Some? ==>
      && callback == Closed
      && (finalized.value <==> TotalOf(Outcomes(received)).err.None? && sourceErr.None?)
  }

  ghost predicate Inv(s: State, maxWorkers: nat, inventory: Ledger) {
    && CountsOk(s.slots, s.pending, s.workers, s.callback, maxWorkers)
    && ResultsOk(s.workers, s.accepted, s.received)
    && WindowsOk(s.ranges, s.accepted, s.skipped, s.callback, s.sourceErr, inventory)
    && RangesOk(s.ranges, s.totalItems)
    && FinalOk(s.finalized, s.callback, s.received, s.sourceErr)
  }

  lemma StartInv(maxWorkers: nat, inventory: Ledger)
    ensures Inv(START, maxWorkers, inventory)
  {}

  lemma ActiveAdded(workers: map<nat, Phase>, c: nat)
    requires c !in workers
    ensures |Active(workers[c := Writing])| == |Active(workers)| + 1 && |workers[c := Writing]| == |workers| + 1
  {
    assert Active(workers[c := Writing]) == Active(workers) + {c};
  }

  lemma ActiveMoved(workers: map<nat, Phase>, c: nat, phase: Phase)
    requires c in workers && workers[c] != Exiting && phase != Exiting
    ensures |Active(workers[c := phase])| == |Active(workers)| && |workers[c := phase]| == |workers|
  {
    assert Active(workers[c := phase]) == Active(workers);
    assert workers[c := phase].Keys == workers.Keys;
    assert |workers[c := phase].Keys| == |workers[c := phase]| && |workers.Keys| == |workers|;
  }

  lemma ActiveExited(workers: map<nat, Phase>, c: nat)
    requires c in workers && workers[c] != Exiting
    ensures |Active(workers[c := Exiting])| == |Active(workers)| - 1 && |workers[c := Exiting]| == |workers|
  {
    assert c in Active(workers) && Active(workers[c := Exiting]) == Active(workers) - {c};
    assert workers[c := Exiting].Keys == workers.Keys;
    assert |workers[c := Exiting].Keys| == |workers[c := Exiting]| && |workers.Keys| == |workers|;
  }

  lemma WorkerFreed(workers: map<nat, Phase>, c: nat)
    requires c in workers && workers[c] == Exiting
    ensures |Active(workers - {c})| == |Active(workers)| && |workers - {c}| == |workers| - 1
  {
    assert Active(workers - {c}) == Active(workers);
    assert (workers - {c}).Keys == workers.Keys - {c};
    assert |(workers - {c}).Keys| == |workers - {c}| && |workers.Keys| == |workers|;
  }

  lemma ReceivedOne(received: seq<(nat, Outcome)>, c: nat, outcome: Outcome)
    ensures forall d :: Delivered(received + [(c, outcome)], d) <==> Delivered(received, d) || d == c
  {
    var more := received + [(c, outcome)];
    forall d
      ensures Delivered(more, d) <==> Delivered(received, d) || d == c
    {
      if Delivered(received, d) {
        var i :| 0 <= i < |received| && received[i].0 == d;
        assert more[i].0 == d;
      }
      assert more[|received|].0 == c;
    }
  }

  /** An error is recorded, the context is cancelled, or the idle callback moves on. */
  lemma QuietKeepsInv(s: State, s': State, maxWorkers: nat, inventory: Ledger)
    requires Inv(s, maxWorkers, inventory)
    requires s' == s.(callback := s'.callback, cancelled := s'.cancelled, sourceErr := s'.sourceErr)
    requires s.sourceErr.Some? || s.callback == Closed ==> s'.sourceErr == s.sourceErr
    requires || s'.callback == s.callback
             || (s.callback == Between && s'.callback == Waiting)
             || (s.callback == Waiting && s.pending == 0 && s'.callback == Closed)
    ensures Inv(s', maxWorkers, inventory)
  {
    hide Active, TotalOf, Outcomes, ResultsOk, RangesOk;
  }

  /** The callback has looked at the context: it goes on, or gives the chunk up with an error. */
  lemma BusyKeepsInv(s: State, s': State, maxWorkers: nat, inventory: Ledger)
    requires Inv(s, maxWorkers, inventory) && CallbackBusy(s.callback)
    requires s' == Reject(s) || s' == s.(callback := Selecting(s.callback.chunk))
    ensures Inv(s', maxWorkers, inventory)
  {
    hide Active, TotalOf, Outcomes, ResultsOk, RangesOk;
  }

  lemma RangeAdded(ranges: seq<ChunkRange>, totalItems: int, count: nat)
    requires RangesOk(ranges, totalItems) && count > 0
    ensures RangesOk(ranges + [ChunkRange(totalItems, count)], totalItems + count)
  {
    var more := ranges + [ChunkRange(totalItems, count)];
    assert forall i :: 0 <= i < |ranges| ==> more[i] == ranges[i];
  }

  lemma WindowAdded(
      ranges: seq<ChunkRange>, range: ChunkRange, accepted: set<nat>, skipped: set<nat>, sourceErr: Option<string>,
      inventory: Ledger)
    requires WindowsOk(ranges, accepted, skipped, Between, sourceErr, inventory)
    ensures WindowsOk(ranges + [range], accepted, skipped, Submitting(|ranges|), sourceErr, inventory)
    ensures forall err: string :: WindowsOk(ranges + [range], accepted, skipped, Between, Some(err), inventory)
    ensures |ranges| in inventory && inventory[|ranges|] == range ==>
              WindowsOk(ranges + [range], accepted, skipped + {|ranges|}, Between, sourceErr, inventory)
  {}

  lemma WindowKeepsInv(s: State, maxWorkers: nat, inventory: Ledger, count: nat)
    requires Inv(s, maxWorkers, inventory) && s.callback == Between
    ensures Inv(Deliver(s, inventory, count), maxWorkers, inventory)
  {
    if count > 0 {
      hide Active, TotalOf, Outcomes, ResultsOk, RangesOk, WindowsOk;
      RangeAdded(s.ranges, s.totalItems, count);
      WindowAdded(s.ranges, ChunkRange(s.totalItems, count), s.accepted, s.skipped, s.sourceErr, inventory);
    }
  }

  lemma AcceptKeepsInv(s: State, maxWorkers: nat, inventory: Ledger)
    requires Inv(s, maxWorkers, inventory) && Enabled(s, maxWorkers, Accept)
    ensures Inv(Apply(s, maxWorkers, inventory, Accept), maxWorkers, inventory)
  {
    ActiveAdded(s.workers, s.callback.chunk);
    assert !Delivered(s.received, s.callback.chunk);
    hide Active, TotalOf, Outcomes, RangesOk, Delivered;
  }

  lemma WritingKeepsInv(s: State, maxWorkers: nat, inventory: Ledger, c: nat, outcome: Outcome)
    requires Inv(s, maxWorkers, inventory) && Enabled(s, maxWorkers, FinishWriting(c, outcome))
    ensures Inv(Apply(s, maxWorkers, inventory, FinishWriting(c, outcome)), maxWorkers, inventory)
  {
    ActiveMoved(s.workers, c, Sending(outcome));
    hide Active, TotalOf, Outcomes, RangesOk, WindowsOk, Delivered;
  }

  lemma ReceiveKeepsResults(
      workers: map<nat, Phase>, accepted: set<nat>, received: seq<(nat, Outcome)>, c: nat)
    requires ResultsOk(workers, accepted, received) && c in workers && workers[c].Sending?
    ensures ResultsOk(workers[c := Sent], accepted, received + [(c, workers[c].outcome)])
  {
    ReceivedOne(received, c, workers[c].outcome);
    assert Unsent(workers, c) && !Delivered(received, c);
  }

  lemma ReceiveKeepsInv(s: State, maxWorkers: nat, inventory: Ledger, c: nat)
    requires Inv(s, maxWorkers, inventory) && Enabled(s, maxWorkers, Receive(c))
    ensures Inv(Apply(s, maxWorkers, inventory, Receive(c)), maxWorkers, inventory)
  {
    ActiveMoved(s.workers, c, Sent);
    ReceiveKeepsResults(s.workers, s.accepted, s.received, c);
    hide Active, TotalOf, Outcomes, RangesOk, WindowsOk, ResultsOk;
  }

  lemma ReturnKeepsInv(s: State, maxWorkers: nat, inventory: Ledger, c: nat)
    requires Inv(s, maxWorkers, inventory) && Enabled(s, maxWorkers, BodyReturns(c))
    ensures Inv(Apply(s, maxWorkers, inventory, BodyReturns(c)), maxWorkers, inventory)
  {
    assert c in Active(s.workers) && s.pending > 0;
    ActiveExited(s.workers, c);
    hide Active, TotalOf, Outcomes, RangesOk, WindowsOk, Delivered;
  }

  lemma FreeKeepsInv(s: State, maxWorkers: nat, inventory: Ledger, c: nat)
    requires Inv(s, maxWorkers, inventory) && Enabled(s, maxWorkers, FreeSlot(c))
    ensures Inv(Apply(s, maxWorkers, inventory, FreeSlot(c)), maxWorkers, inventory)
  {
    WorkerFreed(s.workers, c);
    hide Active, TotalOf, Outcomes, RangesOk, WindowsOk, Delivered;
  }

  lemma StepKeepsInv(s: State, maxWorkers: nat, inventory: Ledger, step: Step)
    requires Inv(s, maxWorkers, inventory) && Enabled(s, maxWorkers, step)
    ensures Inv(Apply(s, maxWorkers, inventory, step), maxWorkers, inventory)
  {
    hide CountsOk, ResultsOk, WindowsOk, RangesOk, TotalOf, Outcomes, Deliver;
    var s' := Apply(s, maxWorkers, inventory, step);
    match step
    case Window(count) => WindowKeepsInv(s, maxWorkers, inventory, count);
    case CheckContext => BusyKeepsInv(s, s', maxWorkers, inventory);
    case Accept => AcceptKeepsInv(s, maxWorkers, inventory);
    case Refuse => BusyKeepsInv(s, s', maxWorkers, inventory);
    case FinishWriting(c, outcome) => WritingKeepsInv(s, maxWorkers, inventory, c, outcome);
    case Receive(c) => ReceiveKeepsInv(s, maxWorkers, inventory, c);
    case BodyReturns(c) => ReturnKeepsInv(s, maxWorkers, inventory, c);
    case FreeSlot(c) => FreeKeepsInv(s, maxWorkers, inventory, c);
    case Finish =>
    case _ => QuietKeepsInv(s, s', maxWorkers, inventory);
  }

  ghost predicate Possible(s: State, maxWorkers: nat, inventory: Ledger, steps: seq<Step>)
    decreases |steps|
  {
    steps == []
    || (Enabled(s, maxWorkers, steps[0]) && Possible(Apply(s, maxWorkers, inventory, steps[0]), maxWorkers, inventory, steps[1..]))
  }

  ghost function After(s: State, maxWorkers: nat, inventory: Ledger, steps: seq<Step>): State
    requires Possible(s, maxWorkers, inventory, steps)
    decreases |steps|
  {
    if steps == [] then s else After(Apply(s, maxWorkers, inventory, steps[0]), maxWorkers, inventory, steps[1..])
  }

  lemma {:induction false} HistoriesKeepInv(s: State, maxWorkers: nat, inventory: Ledger, steps: seq<Step>)
    requires Inv(s, maxWorkers, inventory) && Possible(s, maxWorkers, inventory, steps)
    ensures Inv(After(s, maxWorkers, inventory, steps), maxWorkers, inventory)
    decreases |steps|
  {
    if steps != [] {
      StepKeepsInv(s, maxWorkers, inventory, steps[0]);
      HistoriesKeepInv(Apply(s, maxWorkers, inventory, steps[0]), maxWorkers, inventory, steps[1..]);
    }
  }

  /** A result for chunk `c` arrived, exactly one, and it was without error. */
  ghost predicate SucceededOnce(s: State, c: nat) {
    exists i :: && 0 <= i < |s.received| && s.received[i].0 == c && s.received[i].1.err.None?
                && forall j :: 0 <= j < |s.received| && s.received[j].0 == c ==> j == i
  }

  /** Never more than `maxWorkers` bodies run, and nobody is left to send when the channel is closed. */
  lemma WorkersAreBounded(maxWorkers: nat, inventory: Ledger, steps: seq<Step>)
    requires Possible(START, maxWorkers, inventory, steps)
    ensures var s := After(START, maxWorkers, inventory, steps);
            && |s.workers| <= maxWorkers
            && (s.callback == Closed ==> forall c :: c in s.accepted ==> Delivered(s.received, c) && !Unsent(s.workers, c))
  {
    StartInv(maxWorkers, inventory);
    HistoriesKeepInv(START, maxWorkers, inventory, steps);
    var s := After(START, maxWorkers, inventory, steps);
    if s.callback == Closed {
      NobodySends(s, maxWorkers);
    }
  }

  lemma NobodySends(s: State, maxWorkers: nat)
    requires CountsOk(s.slots, s.pending, s.workers, s.callback, maxWorkers) && s.callback == Closed
    requires ResultsOk(s.workers, s.accepted, s.received)
    ensures forall c :: c in s.accepted ==> Delivered(s.received, c) && !Unsent(s.workers, c)
  {
    assert Active(s.workers) == {};
    forall c | c in s.accepted
      ensures !Unsent(s.workers, c)
    {
      assert c !in Active(s.workers);
    }
  }

  /**
   * The finalizer runs only after every delivered non-empty window was found in the inventory
   * with its exact range or produced one result without error.
   */
  lemma FinalizerIsJustified(maxWorkers: nat, inventory: Ledger, steps: seq<Step>, c: nat)
    requires Possible(START, maxWorkers, inventory, steps)
    requires var s := After(START, maxWorkers, inventory, steps); s.finalized == Some(true) && c < |s.ranges|
    ensures var s := After(START, maxWorkers, inventory, steps);
            || (c in inventory && inventory[c] == s.ranges[c])
            || SucceededOnce(s, c)
  {
    StartInv(maxWorkers, inventory);
    HistoriesKeepInv(START, maxWorkers, inventory, steps);
    var s := After(START, maxWorkers, inventory, steps);
    if c !in s.skipped {
      NobodySends(s, maxWorkers);
      var i :| 0 <= i < |s.received| && s.received[i].0 == c;
      TotalOkIff(Outcomes(s.received));
      assert Outcomes(s.received)[i] == s.received[i].1;
    }
  }

  /** The totals handed to the finalizer are those of a gap-free sequence of windows. */
  lemma FinalizerTotals(maxWorkers: nat, inventory: Ledger, steps: seq<Step>)
    requires Possible(START, maxWorkers, inventory, steps)
    ensures var s := After(START, maxWorkers, inventory, steps); RangesOk(s.ranges, s.totalItems)
  {
    StartInv(maxWorkers, inventory);
    HistoriesKeepInv(START, maxWorkers, inventory, steps);
  }
}
