/** Which verdict a run gets: what the process did while the context lived, what
    ended the context otherwise, and a cancellation only if somebody marked it.
    Stated over every continuation of a reachable state, whoever else acts in it. */
module ExecutorVerdicts {
  import opened Wrappers
  import opened Runs
  import opened Executor
  import opened ExecutorInv
  import S = ExecutorSafety

  // ------------------------------------------- one step, seen from one run

  /** This step marks the run cancelled. */
  ghost predicate Marks(w: World, a: Action, id: RunId)
    requires Enabled(w, a)
  {
    || (a.Advance? && w.callers[a.call].cur.value == (id, Mark))
    || (a.CancelFallback? && w.callers[a.call].run == id)
  }

  /** Some step on the way marks the run. */
  ghost predicate Marked(w: World, acts: seq<Action>, id: RunId)
    requires After(w, acts).Some?
  {
    acts != [] &&
    (Marked(w, acts[..|acts| - 1], id) || Marks(After(w, acts[..|acts| - 1]).value, acts[|acts| - 1], id))
  }

  predicate Own(a: Action, id: RunId) { a.Step? && a.id == id }

  /** What a step that is not the goroutine's own may do to its record and status. */
  predicate Aside(job: Job, s: Option<Status>, job': Job, s': Option<Status>, marks: bool, leaves: bool) {
    && job'.pc == (if leaves then Gone else job.pc) && (leaves ==> job.pc == Leaving)
    && job'.started == job.started && JobLater(job, job')
    && (s' == None || s' == s || (marks && s' == CancelStored(s)))
  }

  lemma OneStep(w: World, a: Action, id: RunId)
    requires Inv(w) && Enabled(w, a) && id in w.jobs
    ensures id in Do(w, a).jobs
    ensures Own(a, id) ==> CanStep(w.jobs[id], a.turn)
    ensures Own(a, id) ==> Do(w, a).jobs[id] == NextJob(w.jobs[id], StatusOf(w.store, id), a.turn)
    ensures Own(a, id) ==> StatusOf(Do(w, a).store, id) == NextStored(w.jobs[id], StatusOf(w.store, id), a.turn)
    ensures !Own(a, id) ==>
              Aside(w.jobs[id], StatusOf(w.store, id), Do(w, a).jobs[id], StatusOf(Do(w, a).store, id),
                    Marks(w, a, id), a == Deregister(id))
  {
    assert id in w.mentioned && (w.lock.Created? ==> w.lock.id != id) by { JobsMentioned(w); }
    StepInv(w, a);
    hide Inv, NextJob, NextStored, CanStep, JobLater;
    S.OwnStepsOnly(w, a, id);
    StatusSteps(w, a, id);
    assert JobLater(w.jobs[id], Do(w, a).jobs[id]);
  }

  lemma StatusSteps(w: World, a: Action, id: RunId)
    requires Enabled(w, a) && id in w.jobs && id in w.mentioned
    ensures var s, s' := StatusOf(w.store, id), StatusOf(Do(w, a).store, id);
            if Own(a, id) then s' == NextStored(w.jobs[id], s, a.turn)
            else s' == None || s' == s || (Marks(w, a, id) && s' == CancelStored(s))
  {
    hide NextJob, NextStatus, CanStep;
  }

  /** Gone from the store, as expected, or cancelled when somebody marked it. */
  predicate Holds(s: Option<Status>, expected: Status, marked: bool) {
    s == None || s == Some(expected) || (marked && s == Some(Cancelled))
  }

  lemma {:induction false} JobStays(w: World, acts: seq<Action>, id: RunId)
    requires Inv(w) && After(w, acts).Some? && id in w.jobs
    ensures Inv(After(w, acts).value) && id in After(w, acts).value.jobs
    ensures JobLater(w.jobs[id], After(w, acts).value.jobs[id])
  {
    hide After, JobLater, LaunchOk, StageOk;
    RunInv(w, acts);
    hide Inv;
  }

  // ------------------------------------------------ decided by its process

  predicate ExitFate(job: Job, s: Option<Status>, failed: bool, marked: bool) {
    job.ctx == Alive ==>
      match job.pc
      case Exited(f) => f == failed && Holds(s, Running, marked)
      case Judged(v) => v == (if failed then Failure else Success) && Holds(s, Running, marked)
      case Leaving => Holds(s, if failed then Failed else Completed, marked)
      case Gone => Holds(s, if failed then Failed else Completed, marked)
      case _ => false
  }

  lemma ExitOwn(job: Job, s: Option<Status>, turn: Turn, failed: bool, marked: bool)
    requires CanStep(job, turn) && ExitFate(job, s, failed, marked)
    ensures ExitFate(NextJob(job, s, turn), NextStored(job, s, turn), failed, marked)
  {
  }

  lemma ExitAside(
    job: Job, s: Option<Status>, job': Job, s': Option<Status>, marks: bool, leaves: bool, failed: bool, marked: bool)
    requires Aside(job, s, job', s', marks, leaves) && ExitFate(job, s, failed, marked)
    ensures ExitFate(job', s', failed, marked || marks)
  {
  }

  lemma {:induction false} ExitKept(w: World, acts: seq<Action>, id: RunId, failed: bool, marked: bool)
    requires Inv(w) && After(w, acts).Some? && id in w.jobs
    requires ExitFate(w.jobs[id], StatusOf(w.store, id), failed, marked)
    ensures id in After(w, acts).value.jobs
    ensures var v := After(w, acts).value;
            ExitFate(v.jobs[id], StatusOf(v.store, id), failed, marked || Marked(w, acts, id))
  {
    hide Inv, Do, Enabled, ExitFate, Aside, NextJob, NextStored, CanStep, JobLater, Marks;
    if acts != [] {
      var before, a := acts[..|acts| - 1], acts[|acts| - 1];
      ExitKept(w, before, id, failed, marked);
      JobStays(w, before, id);
      var v := After(w, before).value;
      OneStep(v, a, id);
      var job, s, m := v.jobs[id], StatusOf(v.store, id), marked || Marked(w, before, id);
      if Own(a, id) {
        ExitOwn(job, s, a.turn, failed, m);
        HoldsMore(NextJob(job, s, a.turn), NextStored(job, s, a.turn), failed, m, Marks(v, a, id));
      } else {
        ExitAside(job, s, Do(v, a).jobs[id], StatusOf(Do(v, a).store, id), Marks(v, a, id), a == Deregister(id),
                  failed, m);
      }
    }
  }

  lemma HoldsMore(job: Job, s: Option<Status>, failed: bool, marked: bool, more: bool)
    requires ExitFate(job, s, failed, marked)
    ensures ExitFate(job, s, failed, marked || more)
  {
  }

  /** A process that exited while the context lives, and lives on until executeTask
      has returned, decides the run: completed when it succeeded, failed when it
      did not - unless the run was marked cancelled before. */
  lemma {:induction false} ExitDecides(w: World, acts: seq<Action>, id: RunId, failed: bool)
    requires Reachable(w) && After(w, acts).Some?
    requires id in w.jobs && w.jobs[id].pc == Exited(failed)
    ensures var w' := After(w, acts).value;
            && id in w'.jobs
            && (w'.jobs[id].ctx == Alive && (w'.jobs[id].pc == Leaving || w'.jobs[id].pc == Gone) && id in w'.store ==>
                  || w'.store[id].status == (if failed then Failed else Completed)
                  || (w'.store[id].status == Cancelled &&
                      (StatusOf(w.store, id) == Some(Cancelled) || Marked(w, acts, id))))
  {
    hide Reachable, After, Marked, LaunchOk;
    ReachableInv(w);
    assert JobOk(w, id);
    hide Inv;
    ExitKept(w, acts, id, failed, StatusOf(w.store, id) == Some(Cancelled));
  }

  // ------------------------------------------------ decided by its context

  /** From here on executeTask records what ended the context. */
  predicate Doomed(pc: Pc) {
    || pc == Probing || pc == EndingEarly || pc == Publishing || pc == PostCheck || pc == Killing
    || pc == Waiting || pc.Exited? || pc == Judged(FromContext)
  }

  predicate ContextFate(job: Job, s: Option<Status>, reason: Context, marked: bool) {
    && job.ctx == reason
    && if Doomed(job.pc) then Holds(s, Running, marked)
       else
         && (job.pc == Leaving || job.pc == Gone)
         && (if reason == DeadlineExceeded then Holds(s, Failed, marked) else s == None || s == Some(Cancelled))
  }

  lemma ContextOwn(job: Job, s: Option<Status>, turn: Turn, reason: Context, marked: bool)
    requires CanStep(job, turn) && reason != Alive && ContextFate(job, s, reason, marked)
    ensures ContextFate(NextJob(job, s, turn), NextStored(job, s, turn), reason, marked)
  {
  }

  lemma ContextAside(
    job: Job, s: Option<Status>, job': Job, s': Option<Status>, marks: bool, leaves: bool,
    reason: Context, marked: bool)
    requires Aside(job, s, job', s', marks, leaves) && reason != Alive && ContextFate(job, s, reason, marked)
    ensures ContextFate(job', s', reason, marked || marks)
  {
  }

  lemma ContextMore(job: Job, s: Option<Status>, reason: Context, marked: bool, more: bool)
    requires ContextFate(job, s, reason, marked)
    ensures ContextFate(job, s, reason, marked || more)
  {
  }

  lemma {:induction false} ContextKept(w: World, acts: seq<Action>, id: RunId, reason: Context, marked: bool)
    requires Inv(w) && After(w, acts).Some? && id in w.jobs && reason != Alive
    requires ContextFate(w.jobs[id], StatusOf(w.store, id), reason, marked)
    ensures id in After(w, acts).value.jobs
    ensures var v := After(w, acts).value;
            ContextFate(v.jobs[id], StatusOf(v.store, id), reason, marked || Marked(w, acts, id))
  {
    hide Inv, Do, Enabled, ContextFate, Aside, NextJob, NextStored, CanStep, JobLater, Marks;
    if acts != [] {
      var before, a := acts[..|acts| - 1], acts[|acts| - 1];
      ContextKept(w, before, id, reason, marked);
      JobStays(w, before, id);
      var v := After(w, before).value;
      OneStep(v, a, id);
      var job, s, m := v.jobs[id], StatusOf(v.store, id), marked || Marked(w, before, id);
      if Own(a, id) {
        ContextOwn(job, s, a.turn, reason, m);
        ContextMore(NextJob(job, s, a.turn), NextStored(job, s, a.turn), reason, m, Marks(v, a, id));
      } else {
        ContextAside(job, s, Do(v, a).jobs[id], StatusOf(Do(v, a).store, id), Marks(v, a, id), a == Deregister(id),
                     reason, m);
      }
    }
  }

  /** A context that ended before the verdict was taken decides the run: failed
      when the deadline passed - unless the run was marked cancelled before - and
      cancelled when it was cancelled. */
  lemma {:induction false} ContextDecides(w: World, acts: seq<Action>, id: RunId)
    requires Reachable(w) && After(w, acts).Some?
    requires id in w.jobs && w.jobs[id].ctx != Alive && Doomed(w.jobs[id].pc)
    ensures var w' := After(w, acts).value;
            && id in w'.jobs
            && ((w'.jobs[id].pc == Leaving || w'.jobs[id].pc == Gone) && id in w'.store ==>
                  if w.jobs[id].ctx == DeadlineExceeded then
                    || w'.store[id].status == Failed
                    || (w'.store[id].status == Cancelled &&
                        (StatusOf(w.store, id) == Some(Cancelled) || Marked(w, acts, id)))
                  else
                    w'.store[id].status == Cancelled)
  {
    hide Reachable, After, Marked, LaunchOk;
    ReachableInv(w);
    assert JobOk(w, id);
    hide Inv;
    ContextKept(w, acts, id, w.jobs[id].ctx, StatusOf(w.store, id) == Some(Cancelled));
  }

  // ------------------------------------------------ ended before the start

  /** The context ended before the look at it: no process, now or later. */
  predicate TooLate(job: Job) {
    && job.ctx != Alive && !job.started
    && (job.pc == Begin || job.pc == Validating || job.pc == Probing || job.pc == EndingEarly
        || job.pc == Leaving || job.pc == Gone)
  }

  lemma TooLateStep(w: World, a: Action, id: RunId)
    requires Inv(w) && Enabled(w, a) && id in w.jobs && TooLate(w.jobs[id])
    ensures id in Do(w, a).jobs && TooLate(Do(w, a).jobs[id])
  {
    OneStep(w, a, id);
    hide Inv, Do, Enabled, NextStored;
  }

  /** A run whose context ended before or during the PATH probe is never started. */
  lemma {:induction false} EndedEarlyNeverStarts(w: World, acts: seq<Action>, id: RunId)
    requires Reachable(w) && After(w, acts).Some?
    requires id in w.jobs && w.jobs[id].ctx != Alive
    requires w.jobs[id].pc == Begin || w.jobs[id].pc == Validating || w.jobs[id].pc == Probing
    ensures id in After(w, acts).value.jobs && !After(w, acts).value.jobs[id].started
  {
    hide Reachable;
    ReachableInv(w);
    hide After, StageOk;
    assert JobOk(w, id);
    hide Inv;
    TooLateStays(w, acts, id);
  }

  lemma {:induction false} TooLateStays(w: World, acts: seq<Action>, id: RunId)
    requires Inv(w) && After(w, acts).Some? && id in w.jobs && TooLate(w.jobs[id])
    ensures id in After(w, acts).value.jobs && TooLate(After(w, acts).value.jobs[id])
  {
    hide Inv, Do, Enabled, TooLate, JobLater;
    if acts != [] {
      var before := acts[..|acts| - 1];
      TooLateStays(w, before, id);
      JobStays(w, before, id);
      TooLateStep(After(w, before).value, acts[|acts| - 1], id);
    }
  }

  // ---------------------------------------------------- no process is left

  predicate SawExit(acts: seq<Action>, id: RunId) {
    Step(id, Exit(true)) in acts || Step(id, Exit(false)) in acts
  }

  predicate Unended(job: Job, exited: bool) {
    exited || job.killed || job.pc == Launching || job.pc == Publishing || job.pc == PostCheck || job.pc == Killing ||
    job.pc == Waiting || (!job.started && (job.pc == Leaving || job.pc == Gone))
  }

  lemma UnendedStep(w: World, a: Action, id: RunId, exited: bool)
    requires Inv(w) && Enabled(w, a) && id in w.jobs && Unended(w.jobs[id], exited)
    ensures id in Do(w, a).jobs
    ensures Unended(Do(w, a).jobs[id], exited || a == Step(id, Exit(true)) || a == Step(id, Exit(false)))
  {
    OneStep(w, a, id);
    LaunchingNotStarted(w, id);
    hide Inv, Do, Enabled, NextStored, NextJob, CanStep, Aside, Unended;
    if Own(a, id) {
      UnendedOwn(w.jobs[id], StatusOf(w.store, id), a.turn, exited);
    } else {
      UnendedAside(w.jobs[id], StatusOf(w.store, id), Do(w, a).jobs[id], StatusOf(Do(w, a).store, id),
                   Marks(w, a, id), a == Deregister(id), exited);
    }
  }

  lemma UnendedOwn(job: Job, s: Option<Status>, turn: Turn, exited: bool)
    requires CanStep(job, turn) && Unended(job, exited) && (job.pc == Launching ==> !job.started)
    ensures Unended(NextJob(job, s, turn), exited || turn.Exit?)
  {
  }

  lemma UnendedAside(
    job: Job, s: Option<Status>, job': Job, s': Option<Status>, marks: bool, leaves: bool, exited: bool)
    requires Aside(job, s, job', s', marks, leaves) && Unended(job, exited)
    ensures Unended(job', exited)
  {
  }

  lemma LaunchingNotStarted(w: World, id: RunId)
    requires Inv(w) && id in w.jobs
    ensures w.jobs[id].pc == Launching ==> !w.jobs[id].started
  {
    assert JobOk(w, id);
  }

  lemma {:induction false} UnendedStays(w: World, acts: seq<Action>, id: RunId)
    requires Inv(w) && After(w, acts).Some? && id in w.jobs && Unended(w.jobs[id], false)
    ensures id in After(w, acts).value.jobs && Unended(After(w, acts).value.jobs[id], SawExit(acts, id))
  {
    hide Inv, Do, Enabled, Unended, JobLater;
    if acts != [] {
      var before, a := acts[..|acts| - 1], acts[|acts| - 1];
      UnendedStays(w, before, id);
      JobStays(w, before, id);
      UnendedStep(After(w, before).value, a, id, SawExit(before, id));
      assert acts == before + [a];
    }
  }

  /** executeTask does not return before the process it started has exited or its
      group was sent the kill. */
  lemma {:induction false} NoProcessLeft(w: World, acts: seq<Action>, id: RunId)
    requires Reachable(w) && After(w, acts).Some? && id in w.jobs && w.jobs[id].pc == Launching
    ensures var w' := After(w, acts).value;
            && id in w'.jobs
            && ((w'.jobs[id].pc == Leaving || w'.jobs[id].pc == Gone) && w'.jobs[id].started ==>
                  w'.jobs[id].killed || SawExit(acts, id))
  {
    hide Reachable;
    ReachableInv(w);
    hide After, Inv, SawExit;
    UnendedStays(w, acts, id);
  }

  /** A run whose directory is refused, or whose process does not start, failed for
      good - unless it had been cancelled. */
  lemma {:induction false} RefusedFails(w: World, acts: seq<Action>, id: RunId)
    requires Reachable(w) && Enabled(w, Step(id, Break)) && After(Do(w, Step(id, Break)), acts).Some?
    ensures var w' := After(Do(w, Step(id, Break)), acts).value;
            id in w'.store ==>
              id in w.store &&
              w'.store[id].status == if w.store[id].status == Cancelled then Cancelled else Failed
  {
    hide Reachable, After;
    ReachableInv(w);
    StepInv(w, Step(id, Break));
    assert StageOk(w.jobs[id].pc, StatusOf(w.store, id)) && id in w.mentioned by { assert JobOk(w, id); }
    hide Inv;
    var v := Do(w, Step(id, Break));
    assert id in v.mentioned && (id in v.store ==> id in w.store && !IsActive(v.store, id));
    RunInv(v, acts);
    hide Do, Enabled;
    assert Follows(StatusOf(v.store, id), StatusOf(After(v, acts).value.store, id));
  }

  // ------------------------------------------------------ it always ends

  /** Steps of its own that executeTask may still have to take. */
  function Ahead(pc: Pc): nat {
    match pc
    case Begin => 10
    case Validating => 9
    case Probing => 8
    case EndingEarly => 2
    case Launching => 7
    case Publishing => 6
    case PostCheck => 5
    case Killing => 4
    case Waiting => 3
    case Exited(_) => 2
    case Judged(_) => 1
    case Leaving => 0
    case Gone => 0
  }

  lemma EachStepAdvances(job: Job, s: Option<Status>, turn: Turn)
    requires CanStep(job, turn)
    ensures Ahead(NextJob(job, s, turn).pc) < Ahead(job.pc)
  {
  }

  lemma ContextStays(job: Job, s: Option<Status>, turn: Turn)
    ensures NextJob(job, s, turn).ctx == job.ctx
  {
  }

  /** What the goroutine does next when nobody helps: with its context ended it does
      not wait for the process to exit. */
  function Onward(job: Job): Turn {
    if job.pc != Waiting then Proceed else if job.ctx != Alive then Interrupt else Exit(false)
  }

  lemma OnwardIsPossible(job: Job)
    requires job.pc != Leaving && job.pc != Gone
    ensures CanStep(job, Onward(job)) && (job.ctx != Alive ==> !Onward(job).Exit?)
  {
  }

  /** Nothing in these actions is an exit of this run's process. */
  predicate NoExit(acts: seq<Action>, id: RunId) {
    forall k :: 0 <= k < |acts| ==> !(acts[k].Step? && acts[k].id == id && acts[k].turn.Exit?)
  }

  lemma {:induction false} Onwards(w: World, acts: seq<Action>, v: World, id: RunId) returns (more: seq<Action>)
    requires After(w, acts) == Some(v) && id in v.jobs && v.jobs[id].pc != Gone && v.lock == Free
    ensures After(w, more).Some? && id in After(w, more).value.jobs
    ensures After(w, more).value.jobs[id].pc == Leaving && After(w, more).value.lock == Free
    ensures v.jobs[id].ctx != Alive && NoExit(acts, id) ==> NoExit(more, id)
    decreases Ahead(v.jobs[id].pc)
  {
    if v.jobs[id].pc == Leaving {
      more := acts;
    } else {
      var job, a := v.jobs[id], Step(id, Onward(v.jobs[id]));
      OnwardIsPossible(job);
      EachStepAdvances(job, StatusOf(v.store, id), a.turn);
      ContextStays(job, StatusOf(v.store, id), a.turn);
      assert Enabled(v, a) && Do(v, a).lock == Free && id in Do(v, a).jobs
          && Do(v, a).jobs[id] == NextJob(job, StatusOf(v.store, id), a.turn);
      assert NextJob(job, StatusOf(v.store, id), a.turn).pc != Gone;
      hide Do, Enabled, NextJob, CanStep, Onward, Ahead;
      var longer := acts + [a];
      assert longer[..|acts|] == acts;
      more := Onwards(w, longer, Do(v, a), id);
    }
  }

  /** Every goroutine can come to its end, leaving its run decided and deregistered,
      from wherever it is - and when its context has ended, without its process ever
      exiting. */
  lemma {:induction false} AlwaysEnds(w: World, id: RunId) returns (acts: seq<Action>)
    requires Reachable(w) && id in w.jobs && w.jobs[id].pc != Gone && w.lock == Free
    ensures After(w, acts).Some?
    ensures var v := After(w, acts).value;
            && id in v.jobs && v.jobs[id].pc == Gone && id !in v.registered
            && (id in v.store ==> Terminal(v.store[id].status))
    ensures w.jobs[id].ctx != Alive ==> NoExit(acts, id)
  {
    hide Reachable;
    ReachableInv(w);
    var onwards := Onwards(w, [], w, id);
    var u := After(w, onwards).value;
    acts := onwards + [Deregister(id)];
    assert acts[..|onwards|] == onwards;
    assert After(w, acts) == Some(Do(u, Deregister(id)));
    hide After, Onward;
    RunInv(w, acts);
    assert JobOk(After(w, acts).value, id);
  }
}
