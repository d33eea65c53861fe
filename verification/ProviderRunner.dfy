// The bounded runner and the per-resource lock (server/integrations/provider.py,
// server/integrations/google.py:271-322).
//
// The event loop runs one step at a time between awaits; worker threads and caller timeouts or
// cancellations may interleave with it anywhere.

module ProviderRunner {
  import opened Common

  type CallId = nat
  type Resource = nat

  // The synchronous operation of a call.
  datatype Thread = NotSubmitted | Queued | Active | Exited

  // Where the coroutine of a call stands.
  datatype Phase = AwaitsLock | Entering | AwaitsSlot | AwaitsResult | Left

  // `detached`: the caller left first, and a done-callback is registered.  `futureDone`: the loop
  // knows that the thread exited.  The last four fields count releases.
  datatype Call = Call(
    resource: Option<Resource>,
    phase: Phase,
    thread: Thread,
    futureDone: bool,
    detached: bool,
    callbackRan: bool,
    lockTaken: bool,
    slotTaken: bool,
    slotLost: bool,
    slotByCaller: nat,
    slotByCallback: nat,
    lockByCaller: nat,
    lockByCallback: nat)
  {
    predicate CallbackPending() { detached && !callbackRan }

    predicate HoldsSlot() { phase.AwaitsResult? || (phase.Left? && CallbackPending()) }

    predicate HoldsLock() {
      resource.Some? && (phase.Entering? || phase.AwaitsSlot? || phase.AwaitsResult? || (phase.Left? && CallbackPending()))
    }
  }

  datatype State = State(maxWorkers: nat, free: nat, closed: bool, locked: set<Resource>, calls: map<CallId, Call>) {
    function Put(c: CallId, call: Call): State {
      this.(calls := calls[c := call])
    }

    // The `finally` of run_google_operation: the caller releases the lock unless it was detached.
    function LeaveWith(c: CallId, call: Call): State {
      if call.resource.Some? && !call.detached
      then this.(locked := locked - {call.resource.value})
           .Put(c, call.(phase := Left, lockByCaller := call.lockByCaller + 1))
      else Put(c, call.(phase := Left))
    }
  }

  datatype Step =
    | Begin(c: CallId, resource: Option<Resource>)
    | TakeLock(c: CallId)
    | GiveUpOnLock(c: CallId)
    | AskForSlot(c: CallId)
    | LeaveBeforeAdmission(c: CallId)             // deadline passed, closed, timed out or cancelled
    | TakeSlot(c: CallId, late: bool)
    | ThreadStarts(c: CallId)
    | ThreadExits(c: CallId)
    | FutureCompletes(c: CallId)
    | AwaitEnds(c: CallId)                        // with a result, a timeout or a cancellation
    | Callback(c: CallId)
    | Close
    | CancelQueued(c: CallId)

  predicate Enabled(s: State, step: Step) {
    match step
    case Begin(c, _) => c !in s.calls
    case TakeLock(c) =>
      c in s.calls && s.calls[c].phase.AwaitsLock? && s.calls[c].resource.Some? && s.calls[c].resource.value !in s.locked
    case GiveUpOnLock(c) => c in s.calls && s.calls[c].phase.AwaitsLock?
    case AskForSlot(c) => c in s.calls && s.calls[c].phase.Entering? && !s.closed
    case LeaveBeforeAdmission(c) => c in s.calls && (s.calls[c].phase.Entering? || s.calls[c].phase.AwaitsSlot?)
    case TakeSlot(c, _) => c in s.calls && s.calls[c].phase.AwaitsSlot? && s.free > 0
    case ThreadStarts(c) => c in s.calls && s.calls[c].thread.Queued?
    case ThreadExits(c) => c in s.calls && s.calls[c].thread.Active?
    case FutureCompletes(c) => c in s.calls && s.calls[c].thread.Exited? && !s.calls[c].futureDone
    case AwaitEnds(c) => c in s.calls && s.calls[c].phase.AwaitsResult?
    case Callback(c) => c in s.calls && s.calls[c].CallbackPending() && s.calls[c].futureDone
    case Close => true
    case CancelQueued(c) => c in s.calls && s.closed && s.calls[c].thread.Queued?
  }

  function Fresh(resource: Option<Resource>): Call {
    Call(resource, if resource.Some? then AwaitsLock else Entering, NotSubmitted, false, false, false, false, false,
         false,
         0, 0, 0, 0)
  }

  function Next(s: State, step: Step): State
    requires Enabled(s, step)
  {
    match step
    case Begin(c, resource) => s.Put(c, Fresh(resource))
    case TakeLock(c) =>
      s.(locked := s.locked + {s.calls[c].resource.value}).Put(c, s.calls[c].(phase := Entering, lockTaken := true))
    case GiveUpOnLock(c) => s.Put(c, s.calls[c].(phase := Left))
    case AskForSlot(c) => s.Put(c, s.calls[c].(phase := AwaitsSlot))
    case LeaveBeforeAdmission(c) => s.LeaveWith(c, s.calls[c])
    case TakeSlot(c, late) =>
      var call := s.calls[c].(slotTaken := true);
      if late then s.LeaveWith(c, call.(slotByCaller := call.slotByCaller + 1))
      else if s.closed then
        // run_in_executor raises after shutdown, outside the `try` that would release the slot.
        s.(free := s.free - 1).LeaveWith(c, call.(slotLost := true))
      else s.(free := s.free - 1).Put(c, call.(phase := AwaitsResult, thread := Queued))
    case ThreadStarts(c) => s.Put(c, s.calls[c].(thread := Active))
    case ThreadExits(c) => s.Put(c, s.calls[c].(thread := Exited))
    case FutureCompletes(c) => s.Put(c, s.calls[c].(futureDone := true))
    case AwaitEnds(c) =>
      var call := s.calls[c];
      if call.futureDone then s.(free := s.free + 1).LeaveWith(c, call.(slotByCaller := call.slotByCaller + 1))
      else s.LeaveWith(c, call.(detached := true))
    case Callback(c) =>
      var call := s.calls[c].(callbackRan := true, slotByCallback := s.calls[c].slotByCallback + 1);
      if call.resource.Some? then
        s.(free := s.free + 1, locked := s.locked - {call.resource.value})
        .Put(c, call.(lockByCallback := call.lockByCallback + 1))
      else s.(free := s.free + 1).Put(c, call)
    case Close => s.(closed := true)
    case CancelQueued(c) => s.Put(c, s.calls[c].(thread := Exited))
  }

  // ---------- The runner as it updates its state ----------

  class Runner {
    const maxWorkers: nat
    var slots: nat
    var closed: bool
    var locked: set<Resource>
    var calls: map<CallId, Call>

    constructor (maxWorkers: nat)
      requires maxWorkers >= 1
      ensures Contents() == State(maxWorkers, maxWorkers, false, {}, map[])
    {
      this.maxWorkers := maxWorkers;
      slots, closed, locked, calls := maxWorkers, false, {}, map[];
    }

    function Contents(): State
      reads this
    {
      State(maxWorkers, slots, closed, locked, calls)
    }

    // run_google_operation's `finally`
    method Finally(c: CallId)
      requires c in calls
      modifies this`locked, this`calls
      ensures Contents() == old(Contents()).LeaveWith(c, old(calls[c]))
    {
      var call := calls[c];
      if call.resource.Some? && !call.detached {
        locked := locked - {call.resource.value};
        calls := calls[c := call.(phase := Left, lockByCaller := call.lockByCaller + 1)];
      } else {
        calls := calls[c := call.(phase := Left)];
      }
    }

    // From the granted slot to the submitted operation; no await lies in between.
    method Admitted(c: CallId, late: bool)
      requires Enabled(Contents(), TakeSlot(c, late))
      modifies this
      ensures Contents() == Next(old(Contents()), TakeSlot(c, late))
    {
      ghost var s := Contents();
      slots := slots - 1;
      calls := calls[c := calls[c].(slotTaken := true)];
      if late {
        slots := slots + 1;
        calls := calls[c := calls[c].(slotByCaller := calls[c].slotByCaller + 1)];
        Finally(c);
      } else if closed {
        calls := calls[c := calls[c].(slotLost := true)];
        Finally(c);
      } else {
        calls := calls[c := calls[c].(thread := Queued)];
        calls := calls[c := calls[c].(phase := AwaitsResult)];
      }
      assert calls == s.calls[c := calls[c]];
    }

    // The `finally` of `run`, and then the caller's.
    method StopAwaiting(c: CallId)
      requires Enabled(Contents(), AwaitEnds(c))
      modifies this
      ensures Contents() == Next(old(Contents()), AwaitEnds(c))
    {
      ghost var s := Contents();
      if calls[c].futureDone {
        slots := slots + 1;
        calls := calls[c := calls[c].(slotByCaller := calls[c].slotByCaller + 1)];
      } else {
        calls := calls[c := calls[c].(detached := true)];
      }
      Finally(c);
      assert calls == s.calls[c := calls[c]];
    }

    // `release_when_finished`, with on_detached_completion=lock.release
    method ReleaseWhenFinished(c: CallId)
      requires Enabled(Contents(), Callback(c))
      modifies this
      ensures Contents() == Next(old(Contents()), Callback(c))
    {
      ghost var s := Contents();
      calls := calls[c := calls[c].(callbackRan := true)];
      slots := slots + 1;
      calls := calls[c := calls[c].(slotByCallback := calls[c].slotByCallback + 1)];
      if calls[c].resource.Some? {
        locked := locked - {calls[c].resource.value};
        calls := calls[c := calls[c].(lockByCallback := calls[c].lockByCallback + 1)];
      }
      assert calls == s.calls[c := calls[c]];
    }
  }

  // ---------- The invariant ----------

  predicate CallOk(call: Call) {
    && (call.thread.Queued? || call.thread.Active? ==> call.HoldsSlot())
    && (call.phase.AwaitsResult? ==> !call.thread.NotSubmitted? && !call.detached)
    && (call.detached ==> call.phase.Left? && !call.thread.NotSubmitted?)
    && (call.callbackRan ==> call.detached)
    && (call.phase.AwaitsLock? || call.phase.Entering? || call.phase.AwaitsSlot? ==>
          !call.slotTaken && call.thread.NotSubmitted?)
    && (call.futureDone ==> call.thread.Exited?)
    && (call.resource.Some? && !call.phase.AwaitsLock? && !call.phase.Left? ==> call.lockTaken)
    && (call.CallbackPending() && call.resource.Some? ==> call.lockTaken)
    && (call.phase.AwaitsLock? ==> call.resource.Some? && !call.lockTaken)
    && (call.resource.None? ==> !call.lockTaken)
    && (call.slotTaken <==> call.HoldsSlot() || call.slotLost || call.slotByCaller + call.slotByCallback > 0)
    // Exactly one release for every acquire.
    && Owed(call.slotTaken) == Owed(call.HoldsSlot()) + Owed(call.slotLost) + call.slotByCaller + call.slotByCallback
    && Owed(call.lockTaken) == Owed(call.HoldsLock()) + call.lockByCaller + call.lockByCallback
  }

  function Owed(b: bool): nat {
    if b then 1 else 0
  }

  function SlotHolders(s: State): set<CallId> {
    set c | c in s.calls && s.calls[c].HoldsSlot()
  }

  function LostSlots(s: State): set<CallId> {
    set c | c in s.calls && s.calls[c].slotLost
  }

  function LockHolders(s: State, r: Resource): set<CallId> {
    set c | c in s.calls && s.calls[c].HoldsLock() && s.calls[c].resource == Some(r)
  }

  ghost predicate Inv(s: State) {
    && (forall c <- s.calls :: CallOk(s.calls[c]))
    && s.free + |SlotHolders(s)| + |LostSlots(s)| == s.maxWorkers
    && (forall r: Resource :: |LockHolders(s, r)| == Owed(r in s.locked))
    && (LostSlots(s) != {} ==> s.closed)
  }

  ghost predicate Init(s: State) {
    s.maxWorkers >= 1 && s == State(s.maxWorkers, s.maxWorkers, false, {}, map[])
  }

  ghost predicate IsRun(states: seq<State>, steps: seq<Step>) {
    && |states| == |steps| + 1
    && Init(states[0])
    && (forall i :: 0 <= i < |steps| ==> Enabled(states[i], steps[i]))
    && (forall i :: 0 <= i < |steps| ==> states[i + 1] == Next(states[i], steps[i]))
  }

  function IdOf(step: Step): CallId
    requires !step.Close?
  {
    step.c
  }

  // ---------- One step changes one call ----------

  // What a step does to the counts of slots and locks, seen from the one call it changes.
  predicate Balanced(s: State, s': State, c: CallId) {
    && c in s'.calls && s'.calls == s.calls[c := s'.calls[c]] && s'.maxWorkers == s.maxWorkers
    && var before := if c in s.calls then Some(s.calls[c]) else None;
       var after := s'.calls[c];
       && s'.free + Owed(after.HoldsSlot()) + Owed(after.slotLost)
          == s.free + Owed(before.Some? && before.value.HoldsSlot()) + Owed(before.Some? && before.value.slotLost)
       && (before.Some? ==> after.resource == before.value.resource)
       && (after.slotLost && !(before.Some? && before.value.slotLost) ==> s'.closed)
       && (s.closed ==> s'.closed)
       && s'.locked == (if after.resource.None? || (before.Some? && before.value.HoldsLock() == after.HoldsLock())
                           || (before.None? && !after.HoldsLock()) then s.locked
                        else if after.HoldsLock() then s.locked + {after.resource.value}
                        else s.locked - {after.resource.value})
       && (after.HoldsLock() && !(before.Some? && before.value.HoldsLock()) ==> after.resource.value !in s.locked)
  }

  predicate Releases(step: Step) {
    step.TakeSlot? || step.AwaitEnds? || step.Callback? || step.LeaveBeforeAdmission?
  }

  lemma ReleaseIsBalanced(s: State, step: Step)
    requires (forall c <- s.calls :: CallOk(s.calls[c])) && Enabled(s, step) && Releases(step)
    ensures Balanced(s, Next(s, step), IdOf(step)) && CallOk(Next(s, step).calls[IdOf(step)])
  {
    assert CallOk(s.calls[IdOf(step)]);
  }

  lemma AdvanceIsBalanced(s: State, step: Step)
    requires (forall c <- s.calls :: CallOk(s.calls[c])) && Enabled(s, step)
    requires !step.Close? && !Releases(step) && !step.Begin?
    ensures Balanced(s, Next(s, step), IdOf(step)) && CallOk(Next(s, step).calls[IdOf(step)])
  {
    assert CallOk(s.calls[IdOf(step)]);
  }

  lemma BeginIsBalanced(s: State, c: CallId, resource: Option<Resource>)
    requires c !in s.calls
    ensures Balanced(s, s.Put(c, Fresh(resource)), c) && CallOk(Fresh(resource))
  {
  }

  lemma StepIsBalanced(s: State, step: Step)
    requires (forall c <- s.calls :: CallOk(s.calls[c])) && Enabled(s, step) && !step.Close?
    ensures IdOf(step) in Next(s, step).calls
    ensures Balanced(s, Next(s, step), IdOf(step)) && CallOk(Next(s, step).calls[IdOf(step)])
  {
    hide Balanced, CallOk;
    if Releases(step) {
      ReleaseIsBalanced(s, step);
    } else if step.Begin? {
      BeginIsBalanced(s, step.c, step.resource);
    } else {
      AdvanceIsBalanced(s, step);
    }
  }

  lemma CountWithout(before: set<CallId>, after: set<CallId>, c: CallId)
    requires before - {c} == after - {c}
    ensures |after| == |before| - Owed(c in before) + Owed(c in after)
  {
    assert before == (before - {c}) + (if c in before then {c} else {});
    assert after == (after - {c}) + (if c in after then {c} else {});
  }

  lemma SlotsCount(s: State, s': State, c: CallId)
    requires Balanced(s, s', c)
    ensures s'.free + |SlotHolders(s')| + |LostSlots(s')| == s.free + |SlotHolders(s)| + |LostSlots(s)|
    ensures LostSlots(s') != {} ==> LostSlots(s) != {} || s'.closed
  {
    CountWithout(SlotHolders(s), SlotHolders(s'), c);
    CountWithout(LostSlots(s), LostSlots(s'), c);
    if !s'.closed && LostSlots(s) == {} {
      assert forall d <- s.calls :: d !in LostSlots(s);
    }
  }

  lemma LocksCount(s: State, s': State, c: CallId, r: Resource)
    requires Balanced(s, s', c) && |LockHolders(s, r)| == Owed(r in s.locked)
    ensures |LockHolders(s', r)| == Owed(r in s'.locked)
  {
    CountWithout(LockHolders(s, r), LockHolders(s', r), c);
    if c in LockHolders(s, r) && |LockHolders(s, r)| == 1 {
      assert c in LockHolders(s, r);
    }
    if |LockHolders(s, r)| == 0 {
      assert LockHolders(s, r) == {};
    }
  }

  lemma NextKeepsInv(s: State, step: Step)
    requires Inv(s) && Enabled(s, step)
    ensures Inv(Next(s, step))
  {
    if step.Close? {
      ClosingKeepsInv(s);
    } else {
      StepIsBalanced(s, step);
      hide CallOk, Next, Enabled, Balanced, SlotHolders, LostSlots, LockHolders;
      BalancedKeepsInv(s, Next(s, step), IdOf(step));
    }
  }

  lemma ClosingKeepsInv(s: State)
    requires Inv(s)
    ensures Inv(s.(closed := true))
  {
    hide CallOk;
    var s' := s.(closed := true);
    assert SlotHolders(s') == SlotHolders(s) && LostSlots(s') == LostSlots(s);
    forall r: Resource ensures |LockHolders(s', r)| == Owed(r in s'.locked) {
      assert LockHolders(s', r) == LockHolders(s, r);
    }
  }

  lemma BalancedKeepsInv(s: State, s': State, c: CallId)
    requires Inv(s) && Balanced(s, s', c) && CallOk(s'.calls[c])
    ensures Inv(s')
  {
    hide CallOk, SlotHolders, LostSlots, LockHolders;
    BalancedCalls(s, s', c);
    SlotsCount(s, s', c);
    forall r: Resource ensures |LockHolders(s', r)| == Owed(r in s'.locked) {
      LocksCount(s, s', c, r);
    }
    BalancedClosed(s, s', c);
  }

  lemma BalancedCalls(s: State, s': State, c: CallId)
    requires Balanced(s, s', c) && CallOk(s'.calls[c]) && forall d <- s.calls :: CallOk(s.calls[d])
    ensures s'.maxWorkers == s.maxWorkers && forall d <- s'.calls :: CallOk(s'.calls[d])
  {
    hide CallOk;
  }

  lemma BalancedClosed(s: State, s': State, c: CallId)
    requires Balanced(s, s', c)
    ensures s.closed ==> s'.closed
  {
  }

  lemma {:induction false} RunsKeepInv(states: seq<State>, steps: seq<Step>, i: nat)
    requires IsRun(states, steps) && i < |states|
    ensures Inv(states[i])
  {
    if i == 0 {
      assert SlotHolders(states[0]) == {} && LostSlots(states[0]) == {};
      assert forall r: Resource :: LockHolders(states[0], r) == {};
    } else {
      hide Inv, Enabled, Next, Init;
      RunsKeepInv(states, steps, i - 1);
      NextKeepsInv(states[i - 1], steps[i - 1]);
    }
  }

  // ---------- Main results ----------

  // Free slots, held slots and slots lost to a shutdown always add up; without a shutdown none is
  // lost.
  lemma SlotsAreConserved(states: seq<State>, steps: seq<Step>, i: nat)
    requires IsRun(states, steps) && i < |states|
    ensures states[i].free + |SlotHolders(states[i])| + |LostSlots(states[i])| == states[i].maxWorkers
    ensures !states[i].closed ==> states[i].free + |SlotHolders(states[i])| == states[i].maxWorkers
  {
    RunsKeepInv(states, steps, i);
  }

  predicate Occupied(call: Call) {
    call.thread.Queued? || call.thread.Active?
  }

  function OccupiedCalls(s: State): set<CallId> {
    set c | c in s.calls && Occupied(s.calls[c])
  }

  // At most one operation is under way on a resource, even after its caller timed out or was
  // cancelled; and no more operations than there are slots.
  lemma OneThreadPerResource(states: seq<State>, steps: seq<Step>, i: nat, a: CallId, b: CallId)
    requires IsRun(states, steps) && i < |states|
    requires a in states[i].calls && b in states[i].calls
    requires Occupied(states[i].calls[a]) && Occupied(states[i].calls[b])
    requires states[i].calls[a].resource.Some? && states[i].calls[a].resource == states[i].calls[b].resource
    ensures a == b
  {
    RunsKeepInv(states, steps, i);
    var s := states[i];
    hide IsRun;
    assert CallOk(s.calls[a]) && CallOk(s.calls[b]);
    var r := s.calls[a].resource.value;
    if a != b {
      assert {a, b} <= LockHolders(s, r);
      SubsetCount({a, b}, LockHolders(s, r));
    }
  }

  lemma {:induction false} SubsetCount<T>(a: set<T>, b: set<T>)
    requires a <= b
    ensures |a| <= |b|
  {
    if a != {} {
      var x :| x in a;
      SubsetCount(a - {x}, b - {x});
    }
  }

  lemma ThreadsAreBounded(states: seq<State>, steps: seq<Step>, i: nat)
    requires IsRun(states, steps) && i < |states|
    ensures |OccupiedCalls(states[i])| <= states[i].maxWorkers
  {
    RunsKeepInv(states, steps, i);
    var s := states[i];
    hide IsRun;
    var occupied := OccupiedCalls(s);
    forall c <- occupied ensures c in SlotHolders(s) {
      assert CallOk(s.calls[c]);
    }
    SubsetCount(occupied, SlotHolders(s));
  }

  // Once a call is over, its slot and its lock were released exactly once each, by the caller or by
  // the done-callback but never by both; a slot is kept only by a shutdown that came between the
  // admission check and the submission.
  lemma ReleasedExactlyOnce(states: seq<State>, steps: seq<Step>, i: nat, c: CallId)
    requires IsRun(states, steps) && i < |states| && c in states[i].calls
    requires states[i].calls[c].phase.Left? && !states[i].calls[c].CallbackPending()
    ensures var call := states[i].calls[c];
            && (call.lockTaken ==> call.lockByCaller + call.lockByCallback == 1)
            && (!call.lockTaken ==> call.lockByCaller + call.lockByCallback == 0)
            && (call.slotTaken && !call.slotLost ==> call.slotByCaller + call.slotByCallback == 1)
            && (!call.slotTaken || call.slotLost ==> call.slotByCaller + call.slotByCallback == 0)
            && (call.slotLost ==> states[i].closed)
  {
    RunsKeepInv(states, steps, i);
    hide IsRun;
    assert CallOk(states[i].calls[c]);
    if states[i].calls[c].slotLost {
      assert c in LostSlots(states[i]);
    }
  }

  // When every call is over and the runner was not shut down, everything is free again.
  lemma NothingLeaks(states: seq<State>, steps: seq<Step>, i: nat)
    requires IsRun(states, steps) && i < |states| && !states[i].closed
    requires forall c <- states[i].calls :: states[i].calls[c].phase.Left? && !states[i].calls[c].CallbackPending()
    ensures states[i].free == states[i].maxWorkers && states[i].locked == {}
  {
    RunsKeepInv(states, steps, i);
    hide IsRun;
    var s := states[i];
    assert SlotHolders(s) == {};
    forall r: Resource ensures r !in s.locked {
      assert LockHolders(s, r) == {};
    }
  }

  // ---------- Shutdown ----------

  // Call c was admitted after the runner was closed.
  predicate AdmittedAfterClose(steps: seq<Step>, i: nat, c: CallId)
    requires i <= |steps|
  {
    exists k, j :: 0 <= k < j < i && steps[k].Close? && steps[j] == TakeSlot(c, false)
  }

  predicate Lost(s: State, c: CallId) {
    c in s.calls && s.calls[c].slotLost
  }

  lemma OthersLoseNothing(s: State, step: Step, c: CallId)
    requires Enabled(s, step) && (step.Close? || IdOf(step) != c)
    ensures Lost(Next(s, step), c) <==> Lost(s, c)
    ensures Next(s, step).closed <==> s.closed || step.Close?
  {
  }

  lemma OwnStepLoses(s: State, step: Step)
    requires Enabled(s, step) && !step.Close?
    ensures Lost(Next(s, step), IdOf(step)) <==>
            Lost(s, IdOf(step)) || (step == TakeSlot(IdOf(step), false) && s.closed)
    ensures Next(s, step).closed <==> s.closed
  {
  }

  lemma LostStep(s: State, step: Step, c: CallId)
    requires Enabled(s, step)
    ensures Lost(Next(s, step), c) <==> Lost(s, c) || (step == TakeSlot(c, false) && s.closed)
    ensures Next(s, step).closed <==> s.closed || step.Close?
  {
    hide Enabled, Next, Lost;
    if step.Close? || IdOf(step) != c {
      OthersLoseNothing(s, step, c);
    } else {
      OwnStepLoses(s, step);
    }
  }

  predicate ClosedBefore(steps: seq<Step>, i: nat)
    requires i <= |steps|
  {
    exists k :: 0 <= k < i && steps[k].Close?
  }

  lemma {:induction false} ClosedByClose(states: seq<State>, steps: seq<Step>, i: nat)
    requires IsRun(states, steps) && i < |states|
    ensures states[i].closed <==> ClosedBefore(steps, i)
  {
    if i > 0 {
      hide Enabled, Next;
      ClosedByClose(states, steps, i - 1);
      LostStep(states[i - 1], steps[i - 1], 0);
    }
  }

  lemma AdmittedStep(steps: seq<Step>, i: nat, c: CallId)
    requires 0 < i <= |steps|
    ensures AdmittedAfterClose(steps, i, c) <==>
            AdmittedAfterClose(steps, i - 1, c) || (steps[i - 1] == TakeSlot(c, false) && ClosedBefore(steps, i - 1))
  {
  }

  // Exactly the calls admitted after the shutdown lose their slot.
  lemma {:induction false} LostIffAdmittedAfterClose(states: seq<State>, steps: seq<Step>, i: nat, c: CallId)
    requires IsRun(states, steps) && i < |states|
    ensures Lost(states[i], c) <==> AdmittedAfterClose(steps, i, c)
  {
    if i > 0 {
      LostIffAdmittedAfterClose(states, steps, i - 1, c);
      ClosedByClose(states, steps, i - 1);
      AdmittedStep(steps, i, c);
      hide Enabled, Next, Lost, AdmittedAfterClose, ClosedBefore;
      LostStep(states[i - 1], steps[i - 1], c);
    }
  }

  // Main result.  No slot is missing if and only if no call was admitted after the shutdown.
  lemma NoSlotMissingIff(states: seq<State>, steps: seq<Step>, i: nat)
    requires IsRun(states, steps) && i < |states|
    ensures states[i].free + |SlotHolders(states[i])| == states[i].maxWorkers <==>
            forall c: CallId :: !AdmittedAfterClose(steps, i, c)
  {
    SlotsAreConserved(states, steps, i);
    forall c: CallId ensures Lost(states[i], c) <==> AdmittedAfterClose(steps, i, c) {
      LostIffAdmittedAfterClose(states, steps, i, c);
    }
    hide IsRun, AdmittedAfterClose;
    if LostSlots(states[i]) != {} {
      var c :| c in LostSlots(states[i]);
      assert Lost(states[i], c);
    } else {
      assert forall c: CallId :: Lost(states[i], c) ==> c in LostSlots(states[i]);
    }
  }

  // Such a run: the call passes the check of `_closed`, waits for its slot, and the shutdown comes
  // before the slot.
  lemma ShutdownLosesTheSlot(s0: State)
    requires Init(s0)
    ensures exists states: seq<State>, steps: seq<Step> :: IsRun(states, steps) && states[0] == s0
              && AdmittedAfterClose(steps, |steps|, 0) && states[|steps|].free < s0.maxWorkers
              && (forall c <- states[|steps|].calls :: states[|steps|].calls[c].phase.Left?)
  {
    var s1 := Next(s0, Begin(0, Option.None));
    var s2 := Next(s1, AskForSlot(0));
    var s3 := Next(s2, Close);
    var s4 := Next(s3, TakeSlot(0, false));
    var states := [s0, s1, s2, s3, s4];
    var steps := [Begin(0, Option.None), AskForSlot(0), Close, TakeSlot(0, false)];
    assert IsRun(states, steps);
    assert steps[2].Close? && steps[3] == TakeSlot(0, false);
    assert states[|steps|] == s4 && s4.calls.Keys == {0};
  }
}
