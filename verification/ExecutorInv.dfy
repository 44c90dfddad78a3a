/** Every step of the executor keeps its invariant, and time only moves forward. */
module ExecutorInv {
  import opened Wrappers
  import opened Runs
  import opened Executor

  // -------------------------------------------------------- moving forward

  /** A status that is not active never changes again; the run may only be dropped. */
  predicate Follows(s: Option<Status>, s': Option<Status>) {
    (s.Some? ==> !Active(s.value)) ==> s' == None || s' == s
  }

  predicate JobLater(job: Job, job': Job) {
    && (job.ctx != Alive ==> job'.ctx == job.ctx && (!job.sawAlive ==> !job'.sawAlive))
    && (job.killed ==> job'.killed)
    && (job.published ==> job'.published)
    && (job.started ==> job'.started)
  }

  ghost predicate Later(w: World, w': World) {
    && w.mentioned <= w'.mentioned
    && w.jobs.Keys <= w'.jobs.Keys
    && w.signalled <= w'.signalled
    && (w.closed ==> w'.closed)
    && (forall id :: id in w.mentioned ==> Follows(StatusOf(w.store, id), StatusOf(w'.store, id)))
    && (forall id :: id in w.jobs ==> JobLater(w.jobs[id], w'.jobs[id]))
  }

  lemma LaterTransitive(u: World, v: World, w: World)
    requires Later(u, v) && Later(v, w)
    ensures Later(u, w)
  {
    forall id | id in u.mentioned ensures Follows(StatusOf(u.store, id), StatusOf(w.store, id)) {
      assert Follows(StatusOf(u.store, id), StatusOf(v.store, id));
      assert Follows(StatusOf(v.store, id), StatusOf(w.store, id));
    }
    forall id | id in u.jobs ensures JobLater(u.jobs[id], w.jobs[id]) {
      assert JobLater(u.jobs[id], v.jobs[id]) && JobLater(v.jobs[id], w.jobs[id]);
    }
  }

  // -------------------------------------------- one goroutine against the store

  /** The heart of the matter: at every point of executeTask, a step keeps the
      run's stage and launch order, never revives a decided run, and never
      loses a kill or a seen cancellation. */
  lemma StepLocal(job: Job, s: Option<Status>, turn: Turn)
    requires CanStep(job, turn) && StageOk(job.pc, s) && LaunchOk(job)
    ensures StageOk(NextJob(job, s, turn).pc, NextStored(job, s, turn))
    ensures LaunchOk(NextJob(job, s, turn))
    ensures JobLater(job, NextJob(job, s, turn))
    ensures Follows(s, NextStored(job, s, turn))
    ensures NextJob(job, s, turn).pc != Gone
  {
  }

  lemma UpdatedStatus(store: map<RunId, Info>, id: RunId, s: Option<Status>)
    requires id in store <==> s.Some?
    ensures StatusOf(Update(store, id, s), id) == s
    ensures forall i :: i != id ==> StatusOf(Update(store, id, s), i) == StatusOf(store, i)
    ensures forall i :: i in Update(store, id, s) <==> i in store
    ensures forall i :: i in store ==> Update(store, id, s)[i].task == store[i].task
  {
  }

  // --------------------------------------------------- keeping the run side

  lemma ActiveFollows(w: World, w': World, id: RunId)
    requires StoredOk(w, id) && (id in w'.store ==> id in w.store)
    requires id in w.mentioned ==> Follows(StatusOf(w.store, id), StatusOf(w'.store, id))
    ensures IsActive(w'.store, id) ==> IsActive(w.store, id)
  {
  }

  lemma OneActiveShrinks(store: map<RunId, Info>, store': map<RunId, Info>)
    requires OneActive(store)
    requires forall id :: IsActive(store', id) ==> IsActive(store, id) && store'[id].task == store[id].task
    ensures OneActive(store')
    ensures forall task :: TaskBusy(store', task) ==> TaskBusy(store, task)
  {
    forall task | TaskBusy(store', task) ensures TaskBusy(store, task) {
      var id :| IsActive(store', id) && store'[id].task == task;
      assert IsActive(store, id) && store[id].task == task;
    }
  }

  /** A step that touches one run: its goroutine's record, its status, or both. */
  lemma ChangeOne(w: World, w': World, id: RunId, s': Option<Status>)
    requires RunsOk(w) && id in w.jobs && id in w'.jobs
    requires s'.Some? <==> id in w.store
    requires w'.store == Update(w.store, id, s') && w'.jobs == w.jobs[id := w'.jobs[id]]
    requires w'.registered == w.registered && w'.lock == w.lock && w'.closed == w.closed
    requires w'.mentioned == w.mentioned && w.signalled <= w'.signalled
    requires StageOk(w'.jobs[id].pc, s') && LaunchOk(w'.jobs[id])
    requires w'.jobs[id].pc == Gone <==> w.jobs[id].pc == Gone
    requires Follows(StatusOf(w.store, id), s') && JobLater(w.jobs[id], w'.jobs[id])
    ensures RunsOk(w') && Later(w, w')
  {
    hide StageOk, LaunchOk, OneActive, TaskBusy;
    UpdatedStatus(w.store, id, s');
    hide Update;
    assert JobOk(w, id);
    assert Later(w, w') by {
      forall i | i in w.mentioned ensures Follows(StatusOf(w.store, i), StatusOf(w'.store, i)) {
      }
    }
    forall i | i in w'.jobs ensures JobOk(w', i) { assert JobOk(w, i); }
    forall i ensures StoredOk(w', i) { assert StoredOk(w, i); }
    forall i | IsActive(w'.store, i) ensures IsActive(w.store, i) {
      ActiveFollows(w, w', i);
    }
    OneActiveShrinks(w.store, w'.store);
    assert LockOk(w') by {
      if w.lock.Created? { assert StatusOf(w'.store, w.lock.id) == StatusOf(w.store, w.lock.id); }
    }
  }

  lemma StepRuns(w: World, id: RunId, turn: Turn)
    requires RunsOk(w) && Enabled(w, Step(id, turn))
    ensures RunsOk(Do(w, Step(id, turn))) && Later(w, Do(w, Step(id, turn)))
  {
    var s := StatusOf(w.store, id);
    assert JobOk(w, id);
    StepLocal(w.jobs[id], s, turn);
    hide StageOk, LaunchOk, NextJob, NextStatus, Follows, JobLater, RunsOk, CanStep;
    assert w.jobs[id].pc != Gone by { hide *; StepNotGone(w.jobs[id], turn); }
    ChangeOne(w, Do(w, Step(id, turn)), id, NextStored(w.jobs[id], s, turn));
  }

  lemma StepNotGone(job: Job, turn: Turn)
    requires CanStep(job, turn)
    ensures job.pc != Gone
  {
  }

  lemma TimeoutRuns(w: World, id: RunId)
    requires RunsOk(w) && Enabled(w, Timeout(id))
    ensures RunsOk(Do(w, Timeout(id))) && Later(w, Do(w, Timeout(id)))
  {
    assert JobOk(w, id);
    hide RunsOk, StageOk;
    ChangeOne(w, Do(w, Timeout(id)), id, StatusOf(w.store, id));
  }

  lemma AdvanceLocal(job: Job, s: Option<Status>, phase: Phase)
    requires LaunchOk(job) && StageOk(job.pc, s)
    ensures AdvanceJob(job, phase).pc == job.pc && LaunchOk(AdvanceJob(job, phase))
    ensures JobLater(job, AdvanceJob(job, phase))
    ensures StageOk(job.pc, AdvanceStored(s, phase)) && Follows(s, AdvanceStored(s, phase))
  {
  }

  lemma AdvanceRuns(w: World, call: CallId)
    requires RunsOk(w) && Enabled(w, Advance(call))
    ensures RunsOk(Do(w, Advance(call))) && Later(w, Do(w, Advance(call)))
  {
    var (id, phase) := w.callers[call].cur.value;
    var s := StatusOf(w.store, id);
    assert JobOk(w, id);
    AdvanceLocal(w.jobs[id], s, phase);
    hide RunsOk, StageOk, LaunchOk, JobLater, Update, Later, AdvanceJob, NextPhase;
    ChangeOne(w, Do(w, Advance(call)), id, AdvanceStored(s, phase));
  }

  lemma DeregisterRuns(w: World, id: RunId)
    requires RunsOk(w) && Enabled(w, Deregister(id))
    ensures RunsOk(Do(w, Deregister(id))) && Later(w, Do(w, Deregister(id)))
  {
    hide OneActive;
    var w' := Do(w, Deregister(id));
    forall i | i in w'.jobs ensures JobOk(w', i) { assert JobOk(w, i); }
    forall i ensures StoredOk(w', i) { assert StoredOk(w, i); }
  }

  lemma DeleteRuns(w: World, task: TaskId)
    requires RunsOk(w)
    ensures RunsOk(Do(w, Delete(task))) && Later(w, Do(w, Delete(task)))
  {
    hide LaunchOk, StageOk, TaskBusy, OneActive;
    var w' := Do(w, Delete(task));
    OneActiveShrinks(w.store, w'.store);
    forall i | i in w'.jobs ensures JobOk(w', i) {
      assert JobOk(w, i);
      Absent(w.jobs[i].pc);
    }
    forall i ensures StoredOk(w', i) { assert StoredOk(w, i); }
  }

  /** A run that was dropped from the store constrains nothing. */
  lemma Absent(pc: Pc)
    ensures StageOk(pc, None)
  {
  }

  // ------------------------------------------------------------- the Run call

  /** Steps that move neither the store nor any goroutine. */
  lemma Unmoved(w: World, w': World)
    requires RunsOk(w)
    requires w'.store == w.store && w'.jobs == w.jobs && w'.registered == w.registered
    requires w.mentioned <= w'.mentioned && w'.signalled == w.signalled && (w.closed ==> w'.closed)
    requires w'.lock == w.lock || !w.lock.Created?
    requires LockOk(w')
    ensures RunsOk(w') && Later(w, w')
  {
    hide LaunchOk, StageOk, OneActive, LockOk;
    forall i | i in w'.jobs ensures JobOk(w', i) { assert JobOk(w, i); }
    forall i ensures StoredOk(w', i) { assert StoredOk(w, i); }
  }

  lemma RunLockRuns(w: World, task: TaskId)
    requires RunsOk(w) && Enabled(w, RunLock(task))
    ensures RunsOk(Do(w, RunLock(task))) && Later(w, Do(w, RunLock(task)))
  {
    Unmoved(w, Do(w, RunLock(task)));
  }

  lemma RunCheckRuns(w: World)
    requires RunsOk(w) && Enabled(w, RunCheck)
    ensures RunsOk(Do(w, RunCheck)) && Later(w, Do(w, RunCheck))
  {
    Unmoved(w, Do(w, RunCheck));
  }

  /** The check under the lock is what keeps the new run the only active one. */
  lemma RunCreateRuns(w: World, id: RunId, pruned: set<RunId>)
    requires RunsOk(w) && Enabled(w, RunCreate(id, pruned))
    ensures RunsOk(Do(w, RunCreate(id, pruned))) && Later(w, Do(w, RunCreate(id, pruned)))
  {
    hide LaunchOk, StageOk;
    var w' := Do(w, RunCreate(id, pruned));
    forall i ensures StoredOk(w', i) { assert StoredOk(w, i); }
    forall i | i in w'.jobs ensures JobOk(w', i) {
      assert JobOk(w, i);
      Absent(w.jobs[i].pc);
    }
    JobsMentioned(w);
    CreatedAlone(w, id, pruned);
  }

  lemma JobsMentioned(w: World)
    requires RunsOk(w)
    ensures w.jobs.Keys <= w.mentioned
  {
    forall id | id in w.jobs ensures id in w.mentioned { assert JobOk(w, id); }
  }

  lemma CreatedAlone(w: World, id: RunId, pruned: set<RunId>)
    requires RunsOk(w) && Enabled(w, RunCreate(id, pruned))
    ensures OneActive(Do(w, RunCreate(id, pruned)).store)
  {
    hide JobOk, StoredOk;
    var store' := Do(w, RunCreate(id, pruned)).store;
    forall i, j | IsActive(store', i) && IsActive(store', j) && store'[i].task == store'[j].task ensures i == j {
      assert i != id ==> IsActive(w.store, i);
      assert j != id ==> IsActive(w.store, j);
    }
  }

  lemma RunRegisterRuns(w: World)
    requires RunsOk(w) && Enabled(w, RunRegister)
    ensures RunsOk(Do(w, RunRegister)) && Later(w, Do(w, RunRegister))
  {
    hide OneActive;
    var w' := Do(w, RunRegister);
    forall i | i in w'.jobs ensures JobOk(w', i) {
      if i != w.lock.id { assert JobOk(w, i); }
    }
    forall i ensures StoredOk(w', i) { assert StoredOk(w, i); }
  }

  // ------------------------------------------------ keeping the caller side

  lemma CallerLater(w: World, w': World, c: Caller)
    requires RunsOk(w) && Later(w, w') && CallerOk(w, c)
    ensures CallerOk(w', c)
  {
    hide LaunchOk, StageOk, OneActive, LockOk;
    match c
    case Cancelling(_, _, cur) =>
      if cur.Some? {
        assert JobOk(w, cur.value.0);
        assert JobLater(w.jobs[cur.value.0], w'.jobs[cur.value.0]);
      }
    case Missing(run) =>
      assert Follows(StatusOf(w.store, run), StatusOf(w'.store, run));
    case _ =>
  }

  lemma SignalLater(w: World, w': World, id: RunId)
    requires RunsOk(w) && Later(w, w') && SignalOk(w, id) && id in w.signalled
    ensures id in w'.jobs && !IsActive(w'.store, id)
    ensures w'.jobs[id].ctx != Alive && (w'.jobs[id].killed || !w'.jobs[id].sawAlive)
  {
    hide LaunchOk, StageOk, OneActive, LockOk;
    assert JobOk(w, id);
    assert JobLater(w.jobs[id], w'.jobs[id]);
    assert Follows(StatusOf(w.store, id), StatusOf(w'.store, id));
  }

  /** Nothing becomes active once the executor is closed. */
  ghost predicate Quiet(w: World, w': World) {
    w.closed ==> forall id :: IsActive(w'.store, id) ==> IsActive(w.store, id)
  }

  lemma QuietFollows(w: World, w': World)
    requires RunsOk(w) && Later(w, w') && w'.store.Keys <= w.store.Keys
    ensures Quiet(w, w') && forall id :: IsActive(w'.store, id) ==> IsActive(w.store, id)
  {
    hide JobOk, OneActive, LockOk;
    forall id | IsActive(w'.store, id) ensures IsActive(w.store, id) {
      assert StoredOk(w, id);
      ActiveFollows(w, w', id);
    }
  }

  /** Steps of the run side leave every caller's account in order. */
  lemma CallersLater(w: World, w': World)
    requires Inv(w) && Later(w, w') && Quiet(w, w')
    requires w'.callers == w.callers && w'.signalled == w.signalled
    ensures CallersOk(w')
  {
    hide CallerOk, RunsOk, Later, SignalOk;
    forall call | call in w'.callers ensures CallerOk(w', w'.callers[call]) && ClosingOk(w', w'.callers[call]) {
      CallerLater(w, w', w.callers[call]);
      assert w.closed ==> w'.closed by { ClosedLater(w, w'); }
    }
    forall id ensures SignalOk(w', id) { SignalsKept(w, w', id); }
  }

  lemma ClosedLater(w: World, w': World)
    requires Later(w, w')
    ensures w.closed ==> w'.closed
  {
  }

  lemma SignalsKept(w: World, w': World, id: RunId)
    requires Inv(w) && Later(w, w') && (id in w'.signalled ==> id in w.signalled)
    ensures SignalOk(w', id)
  {
    assert SignalOk(w, id);
    if id in w.signalled { SignalLater(w, w', id); }
  }

  predicate RunSide(a: Action) {
    a.RunLock? || a.RunCheck? || a.RunCreate? || a.RunRegister? || a.Step? || a.Timeout? || a.Deregister? || a.Delete?
  }

  lemma RunSideRuns(w: World, a: Action)
    requires RunsOk(w) && RunSide(a) && Enabled(w, a)
    ensures RunsOk(Do(w, a)) && Later(w, Do(w, a))
  {
    hide RunsOk, Later, Do, Enabled;
    match a
    case RunLock(task) => RunLockRuns(w, task);
    case RunCheck => RunCheckRuns(w);
    case RunCreate(id, pruned) => RunCreateRuns(w, id, pruned);
    case RunRegister => RunRegisterRuns(w);
    case Step(id, turn) => StepRuns(w, id, turn);
    case Timeout(id) => TimeoutRuns(w, id);
    case Deregister(id) => DeregisterRuns(w, id);
    case Delete(task) => DeleteRuns(w, task);
  }

  lemma RunSideQuiet(w: World, a: Action)
    requires RunsOk(w) && RunSide(a) && Enabled(w, a) && Later(w, Do(w, a))
    ensures Quiet(w, Do(w, a))
  {
    if a.RunCreate? {
      assert !w.closed;
    } else {
      NothingAdded(w, a);
      QuietFollows(w, Do(w, a));
    }
  }

  lemma NothingAdded(w: World, a: Action)
    requires RunSide(a) && !a.RunCreate? && Enabled(w, a)
    ensures Do(w, a).store.Keys <= w.store.Keys
  {
    hide NextJob, NextStored;
  }

  lemma CallersUntouched(w: World, a: Action)
    requires RunSide(a) && Enabled(w, a)
    ensures Do(w, a).callers == w.callers && Do(w, a).signalled == w.signalled
  {
    hide NextJob, NextStored;
  }

  lemma RunSideInv(w: World, a: Action)
    requires Inv(w) && RunSide(a) && Enabled(w, a)
    ensures Inv(Do(w, a)) && Later(w, Do(w, a))
  {
    RunSideRuns(w, a);
    RunSideQuiet(w, a);
    CallersUntouched(w, a);
    hide RunsOk, Later, Do, Enabled, Quiet, RunSide;
    CallersLater(w, Do(w, a));
  }

  // ----------------------------------------------------- the callers' steps

  /** A step of one caller: the others stay in order. */
  lemma OneCaller(w: World, w': World, call: CallId)
    requires Inv(w) && RunsOk(w') && Later(w, w') && w'.store.Keys <= w.store.Keys
    requires call in w'.callers && w'.callers == w.callers[call := w'.callers[call]]
    requires CallerOk(w', w'.callers[call]) && ClosingOk(w', w'.callers[call])
    requires forall id :: id in w'.signalled && id !in w.signalled ==> SignalOk(w', id)
    ensures Inv(w')
  {
    QuietFollows(w, w');
    hide RunsOk, Later, CallerOk, SignalOk;
    forall c | c in w'.callers ensures CallerOk(w', w'.callers[c]) && ClosingOk(w', w'.callers[c]) {
      if c != call {
        CallerLater(w, w', w.callers[c]);
        ClosedLater(w, w');
      }
    }
    forall id ensures SignalOk(w', id) {
      if id in w'.signalled && id !in w.signalled {
      } else {
        SignalsKept(w, w', id);
      }
    }
  }

  lemma CancelCallInv(w: World, call: CallId, run: RunId)
    requires Inv(w) && Enabled(w, CancelCall(call, run))
    ensures Inv(Do(w, CancelCall(call, run))) && Later(w, Do(w, CancelCall(call, run)))
  {
    var w' := Do(w, CancelCall(call, run));
    Unmoved(w, w');
    if run !in w.registered { UnregisteredIsDecided(w, run); }
    hide RunsOk, Later;
    assert CallerOk(w', w'.callers[call]) by { RegisteredHasJob(w, run); }
    OneCaller(w, w', call);
  }

  lemma RegisteredHasJob(w: World, run: RunId)
    requires RunsOk(w)
    ensures run in w.registered ==> run in w.jobs
  {
  }

  /** With the lock free, a run that is not registered is not active. */
  lemma UnregisteredIsDecided(w: World, run: RunId)
    requires RunsOk(w) && w.lock == Free && run !in w.registered
    ensures !IsActive(w.store, run)
  {
    hide LaunchOk, OneActive;
    assert StoredOk(w, run);
    if run in w.jobs { assert JobOk(w, run); }
  }

  lemma LookInv(w: World, call: CallId)
    requires Inv(w) && Enabled(w, Look(call))
    ensures Inv(Do(w, Look(call))) && Later(w, Do(w, Look(call)))
  {
    var w' := Do(w, Look(call));
    assert CallerOk(w, w.callers[call]);
    Unmoved(w, w');
    hide RunsOk, Later;
    OneCaller(w, w', call);
  }

  lemma CloseCallInv(w: World, call: CallId)
    requires Inv(w) && Enabled(w, CloseCall(call))
    ensures Inv(Do(w, CloseCall(call))) && Later(w, Do(w, CloseCall(call)))
  {
    var w' := Do(w, CloseCall(call));
    Unmoved(w, w');
    forall id | IsActive(w.store, id) ensures id in w.registered {
      if id !in w.registered { UnregisteredIsDecided(w, id); }
    }
    assert w.registered <= w.jobs.Keys;
    hide RunsOk, Later;
    OneCaller(w, w', call);
  }

  lemma PickInv(w: World, call: CallId, run: RunId)
    requires Inv(w) && Enabled(w, Pick(call, run))
    ensures Inv(Do(w, Pick(call, run))) && Later(w, Do(w, Pick(call, run)))
  {
    var w' := Do(w, Pick(call, run));
    assert CallerOk(w, w.callers[call]) && ClosingOk(w, w.callers[call]);
    Unmoved(w, w');
    hide RunsOk, Later;
    OneCaller(w, w', call);
  }

  /** One stage done: the next stage's promise holds. */
  lemma PhaseAdvances(job: Job, s: Option<Status>, phase: Phase)
    requires LaunchOk(job) && StageOk(job.pc, s)
    requires phase != Mark ==> s == None || !Active(s.value)
    requires phase.ReadPgid? || phase.SendKill? ==> job.ctx != Alive
    requires phase == SendKill(false) ==> !job.sawAlive
    ensures var s' := AdvanceStored(s, phase); s' == None || !Active(s'.value)
    ensures phase != Mark ==> AdvanceJob(job, phase).ctx != Alive
    ensures NextPhase(job, phase) == Some(SendKill(false)) ==> !AdvanceJob(job, phase).sawAlive
    ensures phase.SendKill? ==> AdvanceJob(job, phase).killed || !AdvanceJob(job, phase).sawAlive
  {
  }

  lemma AdvanceInv(w: World, call: CallId)
    requires Inv(w) && Enabled(w, Advance(call))
    ensures Inv(Do(w, Advance(call))) && Later(w, Do(w, Advance(call)))
  {
    var c := w.callers[call];
    var (id, phase) := c.cur.value;
    AdvanceRuns(w, call);
    assert CallerOk(w, c) && ClosingOk(w, c);
    AdvancedCaller(w, call, c, id, phase);
    hide RunsOk, Later, CallerOk, ClosingOk, SignalOk;
    OneCaller(w, Do(w, Advance(call)), call);
  }

  lemma AdvancedCaller(w: World, call: CallId, c: Caller, id: RunId, phase: Phase)
    requires RunsOk(w) && Enabled(w, Advance(call)) && c == w.callers[call] && c.cur == Some((id, phase))
    requires CallerOk(w, c) && ClosingOk(w, c)
    ensures var w' := Do(w, Advance(call));
            && call in w'.callers && w'.callers == w.callers[call := w'.callers[call]]
            && w'.store.Keys <= w.store.Keys
            && CallerOk(w', w'.callers[call]) && ClosingOk(w', w'.callers[call])
            && (forall i :: i in w'.signalled && i !in w.signalled ==> SignalOk(w', i))
  {
    var w', s := Do(w, Advance(call)), StatusOf(w.store, id);
    assert JobOk(w, id);
    PhaseAdvances(w.jobs[id], s, phase);
    UpdatedStatus(w.store, id, AdvanceStored(s, phase));
    hide RunsOk, LaunchOk, StageOk, AdvanceStored, AdvanceJob, Update;
    assert !IsActive(w'.store, id) by { assert StatusOf(w'.store, id) == AdvanceStored(s, phase); }
    forall i | IsActive(w'.store, i) ensures i != id && IsActive(w.store, i) {
      assert StatusOf(w'.store, i) == if i == id then AdvanceStored(s, phase) else StatusOf(w.store, i);
    }
  }

  lemma StepInv(w: World, a: Action)
    requires Inv(w) && Enabled(w, a)
    ensures Inv(Do(w, a)) && Later(w, Do(w, a))
  {
    if RunSide(a) {
      RunSideInv(w, a);
    } else {
      hide Inv, Later, Do;
      match a
      case CancelCall(call, run) => CancelCallInv(w, call, run);
      case Look(call) => LookInv(w, call);
      case CancelFallback(call) => NoFallback(w, call);
      case CloseCall(call) => CloseCallInv(w, call);
      case Pick(call, run) => PickInv(w, call, run);
      case Advance(call) => AdvanceInv(w, call);
    }
  }

  lemma NoFallback(w: World, call: CallId)
    requires Inv(w) && call in w.callers
    ensures !w.callers[call].Fallback?
  {
    assert CallerOk(w, w.callers[call]);
  }

  lemma {:induction false} RunInv(w: World, acts: seq<Action>)
    requires Inv(w) && After(w, acts).Some?
    ensures Inv(After(w, acts).value) && Later(w, After(w, acts).value)
  {
    hide Inv, Later, Enabled, Do;
    if acts == [] {
      LaterRefl(w);
    } else {
      RunInv(w, acts[..|acts| - 1]);
      var v := After(w, acts[..|acts| - 1]).value;
      StepInv(v, acts[|acts| - 1]);
      LaterTransitive(w, v, After(w, acts).value);
    }
  }

  lemma LaterRefl(w: World)
    ensures Later(w, w)
  {
  }

  lemma StartInv(store: map<RunId, Info>)
    requires Loaded(store)
    ensures Inv(Start(store))
  {
  }

  lemma {:induction false} ReachableInv(w: World)
    requires Reachable(w)
    ensures Inv(w)
  {
    hide Inv, After, Later;
    var store: map<RunId, Info>, acts: seq<Action> :| Loaded(store) && After(Start(store), acts) == Some(w);
    StartInv(store);
    RunInv(Start(store), acts);
  }
}
