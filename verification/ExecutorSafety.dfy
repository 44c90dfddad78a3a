/** What the executor promises, in every reachable state and over every run of
    Run, Cancel, Close, deletions, timeouts and executeTask goroutines. */
module ExecutorSafety {
  import opened Wrappers
  import opened Runs
  import opened Executor
  import opened ExecutorInv

  /** With runningMu free, Cancel and Close can find every active run. */
  lemma ActiveIsRegistered(w: World, id: RunId)
    requires Reachable(w) && w.lock == Free && IsActive(w.store, id)
    ensures id in w.registered && id in w.jobs && w.jobs[id].pc != Gone
  {
    hide Reachable;
    ReachableInv(w);
    hide Inv;
    if id !in w.registered { NotRegistered(w, id); }
    Registered(w, id);
  }

  lemma NotRegistered(w: World, id: RunId)
    requires Inv(w) && w.lock == Free && id !in w.registered
    ensures !IsActive(w.store, id)
  {
    hide RunsOk;
    UnregisteredIsDecided(w, id);
  }

  lemma Registered(w: World, id: RunId)
    requires Inv(w)
    ensures id in w.registered ==> id in w.jobs && w.jobs[id].pc != Gone
  {
    hide LaunchOk, StageOk;
    if id in w.registered { assert JobOk(w, id); }
  }

  /** A task never has two active runs. */
  lemma OneActivePerTask(w: World, i: RunId, j: RunId)
    requires Reachable(w)
    requires IsActive(w.store, i) && IsActive(w.store, j) && w.store[i].task == w.store[j].task
    ensures i == j
  {
    hide Reachable;
    ReachableInv(w);
  }

  /** Completed, Failed and Cancelled are each absorbing: whatever happens next,
      a decided run keeps its verdict for as long as it is stored. */
  lemma {:induction false} VerdictsAreFinal(w: World, acts: seq<Action>, id: RunId)
    requires Reachable(w) && After(w, acts).Some?
    requires id in w.store && Terminal(w.store[id].status)
    ensures var w' := After(w, acts).value; id in w'.store ==> w'.store[id].status == w.store[id].status
  {
    hide Reachable, After;
    ReachableInv(w);
    assert StoredOk(w, id);
    hide Inv;
    RunInv(w, acts);
    assert Follows(StatusOf(w.store, id), StatusOf(After(w, acts).value.store, id));
  }

  /** "It's in pending state, just mark it cancelled" is dead code. */
  lemma FallbackUnreachable(w: World, call: CallId)
    requires Reachable(w)
    ensures call in w.callers ==> !w.callers[call].Fallback?
  {
    hide Reachable;
    ReachableInv(w);
    hide Inv;
    if call in w.callers { NoFallback(w, call); }
  }

  /** The cancel/start handshake.  Once a Cancel or Close has been through a run,
      then in every later state the run is decided, and once executeTask is past
      its check after the start, either no process was started or its group was
      sent the kill. */
  lemma {:induction false} CancelReachesProcess(w: World, acts: seq<Action>, id: RunId)
    requires Reachable(w) && After(w, acts).Some? && id in w.signalled
    ensures var w' := After(w, acts).value;
            && !IsActive(w'.store, id)
            && id in w'.jobs
            && (PastCheck(w'.jobs[id].pc) ==> !w'.jobs[id].started || w'.jobs[id].killed)
  {
    hide Reachable, After;
    ReachableInv(w);
    hide Inv;
    RunInv(w, acts);
    SignalledIsStopped(After(w, acts).value, id);
  }

  lemma SignalledIsStopped(w: World, id: RunId)
    requires Inv(w) && id in w.signalled
    ensures !IsActive(w.store, id) && id in w.jobs
    ensures PastCheck(w.jobs[id].pc) ==> !w.jobs[id].started || w.jobs[id].killed
  {
    hide StageOk;
    assert SignalOk(w, id);
    assert JobOk(w, id);
  }

  /** When a Cancel ends up as a cancellation: exactly when the run was still active
      or cancelled already at the moment it was marked.  A run that had concluded
      keeps its verdict, although the call reports success. */
  lemma CancelTakesEffectIff(w: World, call: CallId, acts: seq<Action>)
    requires Reachable(w) && Enabled(w, Advance(call)) && w.callers[call].cur.value.1 == Mark
    requires After(Do(w, Advance(call)), acts).Some?
    ensures var id, w' := w.callers[call].cur.value.0, After(Do(w, Advance(call)), acts).value;
            id in w.store && id in w'.store ==>
              (w'.store[id].status == Cancelled <==> Active(w.store[id].status) || w.store[id].status == Cancelled)
  {
    hide Reachable, After;
    ReachableInv(w);
    var id, v := w.callers[call].cur.value.0, Do(w, Advance(call));
    StepInv(w, Advance(call));
    MarkedStatus(w, call);
    if id in w.store {
      assert StoredOk(v, id);
      hide Inv, Do, Enabled;
      RunInv(v, acts);
      assert Follows(StatusOf(v.store, id), StatusOf(After(v, acts).value.store, id));
    }
  }

  lemma MarkedStatus(w: World, call: CallId)
    requires Enabled(w, Advance(call)) && w.callers[call].cur.value.1 == Mark
    ensures var id, v := w.callers[call].cur.value.0, Do(w, Advance(call));
            id in w.store ==> id in v.store && v.store[id].status == CancelledFrom(w.store[id].status)
  {
  }

  /** Every way out of executeTask leaves its run decided, or gone from the store. */
  lemma LeavesRunDecided(w: World, id: RunId)
    requires Reachable(w) && id in w.jobs && (w.jobs[id].pc == Leaving || w.jobs[id].pc == Gone)
    ensures id in w.store ==> Terminal(w.store[id].status)
  {
    hide Reachable;
    ReachableInv(w);
    assert JobOk(w, id);
  }

  // --------------------------------------- cancelled while still pending

  predicate NeverStarts(w: World, id: RunId) {
    && id in w.jobs && !w.jobs[id].started
    && match w.jobs[id].pc
       case Begin => !IsActive(w.store, id)
       case Leaving => true
       case Gone => true
       case _ => false
  }

  /** The record is still there, with the same program counter and process. */
  predicate Untouched(w: World, w': World, id: RunId)
    requires id in w.jobs
  {
    id in w'.jobs && w'.jobs[id].pc == w.jobs[id].pc && w'.jobs[id].started == w.jobs[id].started
  }

  /** Only the goroutine itself moves its program counter or starts its process. */
  lemma OwnStepsOnly(w: World, a: Action, id: RunId)
    requires Enabled(w, a) && id in w.jobs && (w.lock.Created? ==> w.lock.id != id)
    ensures id in Do(w, a).jobs
    ensures a.Step? && a.id == id ==> Do(w, a).jobs[id] == NextJob(w.jobs[id], StatusOf(w.store, id), a.turn)
    ensures a == Deregister(id) ==> Do(w, a).jobs[id] == w.jobs[id].(pc := Gone)
    ensures !(a.Step? && a.id == id) && a != Deregister(id) ==> Untouched(w, Do(w, a), id)
  {
    if a.Step? {
      OthersStepAside(w, a.id, a.turn, id);
    } else if a.Advance? {
      CallersTouchNothing(w, a.call, id);
    } else {
      hide NextJob, NextStored, AdvanceCall;
    }
  }

  lemma OthersStepAside(w: World, id: RunId, turn: Turn, other: RunId)
    requires Enabled(w, Step(id, turn)) && other in w.jobs
    ensures var w' := Do(w, Step(id, turn));
            && other in w'.jobs
            && w'.jobs[other] == if other == id then NextJob(w.jobs[id], StatusOf(w.store, id), turn) else w.jobs[other]
  {
    hide NextJob, NextStored;
  }

  lemma CallersTouchNothing(w: World, call: CallId, id: RunId)
    requires Enabled(w, Advance(call)) && id in w.jobs
    ensures Untouched(w, Do(w, Advance(call)), id)
  {
    hide AdvanceStored, Update;
  }

  lemma NeverStartsKept(w: World, a: Action, id: RunId)
    requires Inv(w) && Enabled(w, a) && NeverStarts(w, id)
    ensures NeverStarts(Do(w, a), id)
  {
    StepInv(w, a);
    assert id in w.mentioned && (w.lock.Created? ==> w.lock.id != id) by { JobsMentioned(w); }
    OwnStepsOnly(w, a, id);
    hide Inv;
    assert Follows(StatusOf(w.store, id), StatusOf(Do(w, a).store, id));
    StillNever(w, Do(w, a), a, id);
  }

  lemma StillNever(w: World, w': World, a: Action, id: RunId)
    requires NeverStarts(w, id) && id in w'.jobs && Follows(StatusOf(w.store, id), StatusOf(w'.store, id))
    requires a.Step? && a.id == id ==> w'.jobs[id] == NextJob(w.jobs[id], StatusOf(w.store, id), a.turn)
    requires a == Deregister(id) ==> w'.jobs[id] == w.jobs[id].(pc := Gone)
    requires !(a.Step? && a.id == id) && a != Deregister(id) ==> Untouched(w, w', id)
    ensures NeverStarts(w', id)
  {
  }

  /** A run cancelled or deleted before executeTask began is never started. */
  lemma {:induction false} CancelledPendingNeverStarts(w: World, acts: seq<Action>, id: RunId)
    requires Inv(w) && After(w, acts).Some? && NeverStarts(w, id)
    ensures NeverStarts(After(w, acts).value, id)
  {
    hide Inv, Do, Enabled, NeverStarts, Later;
    if acts != [] {
      RunInv(w, acts[..|acts| - 1]);
      CancelledPendingNeverStarts(w, acts[..|acts| - 1], id);
      NeverStartsKept(After(w, acts[..|acts| - 1]).value, acts[|acts| - 1], id);
    }
  }

  // ----------------------------------------------------------------- Close

  ghost predicate NothingActive(w: World) { forall id :: !IsActive(w.store, id) }

  /** Close has been through every run it found. */
  predicate CloseDone(c: Caller) { c.Cancelling? && c.closing && c.todo == {} && c.cur == None }

  /** After Close nothing is active, and nothing ever becomes active again. */
  lemma {:induction false} CloseStopsEverything(w: World, acts: seq<Action>, call: CallId)
    requires Reachable(w) && After(w, acts).Some?
    requires call in w.callers && CloseDone(w.callers[call])
    ensures NothingActive(After(w, acts).value) && After(w, acts).value.closed
  {
    hide Reachable, After;
    ReachableInv(w);
    assert ClosingOk(w, w.callers[call]);
    StaysQuiet(w, acts);
  }

  lemma {:induction false} StaysQuiet(w: World, acts: seq<Action>)
    requires Inv(w) && w.closed && NothingActive(w) && After(w, acts).Some?
    ensures After(w, acts).value.closed && NothingActive(After(w, acts).value)
  {
    hide Inv, Do, Enabled, Later;
    if acts != [] {
      RunInv(w, acts[..|acts| - 1]);
      StaysQuiet(w, acts[..|acts| - 1]);
      var v := After(w, acts[..|acts| - 1]).value;
      StepQuiet(v, acts[|acts| - 1]);
    }
  }

  lemma StepQuiet(w: World, a: Action)
    requires Inv(w) && Enabled(w, a)
    ensures Quiet(w, Do(w, a)) && (w.closed ==> Do(w, a).closed)
  {
    StepInv(w, a);
    ClosedLater(w, Do(w, a));
    if RunSide(a) {
      RunSideQuiet(w, a);
    } else {
      CallerAddsNothing(w, a);
      hide RunsOk, Later, Do, Enabled;
      QuietFollows(w, Do(w, a));
    }
  }

  lemma CallerAddsNothing(w: World, a: Action)
    requires Enabled(w, a) && !RunSide(a)
    ensures Do(w, a).store.Keys <= w.store.Keys
  {
    hide AdvanceStored, AdvanceJob;
  }
}
