/** The task executor of internal/task/executor.go as a state machine: Run,
    Cancel, Close, a task deletion and every executeTask goroutine, interleaved
    step by step over the run store, the registration map, the run contexts and
    the process group ids that are published late. */
module Executor {
  import opened Wrappers
  import opened Runs

  type CallId = nat

  /** A run as the executor sees it in the store. */
  datatype Info = Info(task: TaskId, status: Status)

  /** ctx.Err(): the first reason stays. */
  datatype Context = Alive | Canceled | DeadlineExceeded

  /** What executeTask is about to record. */
  datatype Verdict = Success | Failure | FromContext

  /** Where executeTask is: each value names the next thing it does. */
  datatype Pc =
    | Begin              // MarkRunning
    | Validating         // working directory checks
    | Probing            // the PATH probe, then the first look at the context
    | EndingEarly        // endEarly
    | Launching          // starting the process
    | Publishing         // setPgid
    | PostCheck          // the look at the context right after the start
    | Killing            // killGroup from executeTask
    | Waiting            // the select on process exit and context
    | Exited(failed: bool)
    | Judged(verdict: Verdict)
    | Leaving            // executeTask has returned
    | Gone               // removed from the running map

  /** One executeTask goroutine with its runningTask; `killed` says that the
      process group was sent the kill, `sawAlive` that PostCheck found the
      context alive. */
  datatype Job = Job(pc: Pc, ctx: Context, started: bool, published: bool, killed: bool, sawAlive: bool)

  /** Stages of cancelling one run: runStore.Cancel, rt.cancel, and the two
      halves of killGroup. */
  datatype Phase = Mark | Signal | ReadPgid | SendKill(seen: bool)

  datatype Caller =
    | Cancelling(closing: bool, todo: set<RunId>, cur: Option<(RunId, Phase)>)
    | Missing(run: RunId)    // Cancel did not find the run registered
    | Fallback(run: RunId)   // "in pending state, just mark it cancelled"
    | Refused

  /** runningMu, when a Run call holds it over more than one step. */
  datatype Lock = Free | Checking(task: TaskId) | Cleared(task: TaskId) | Created(id: RunId)

  datatype World = World(
    store: map<RunId, Info>,
    jobs: map<RunId, Job>,
    registered: set<RunId>,
    lock: Lock,
    closed: bool,
    callers: map<CallId, Caller>,
    mentioned: set<RunId>,   // history: run ids are never used twice
    signalled: set<RunId>)   // history: cancelled by a Cancel or Close, killGroup included

  function Start(store: map<RunId, Info>): World {
    World(store, map[], {}, Free, false, map[], store.Keys, {})
  }

  function StatusOf(store: map<RunId, Info>, id: RunId): Option<Status> {
    if id in store then Some(store[id].status) else None
  }

  predicate IsActive(store: map<RunId, Info>, id: RunId) {
    id in store && Active(store[id].status)
  }

  ghost predicate TaskBusy(store: map<RunId, Info>, task: TaskId) {
    exists id :: IsActive(store, id) && store[id].task == task
  }

  function Update(store: map<RunId, Info>, id: RunId, s: Option<Status>): map<RunId, Info> {
    if id in store && s.Some? then store[id := store[id].(status := s.value)] else store
  }

  // ------------------------------------------------------------ executeTask

  datatype Turn = Proceed | Break | Exit(failed: bool) | Interrupt

  predicate CanStep(job: Job, turn: Turn) {
    match job.pc
    case Validating => turn == Proceed || turn == Break
    case Launching => turn == Proceed || turn == Break
    case Waiting => turn.Exit? || (turn == Interrupt && job.ctx != Alive)
    case Leaving => false
    case Gone => false
    case _ => turn == Proceed
  }

  /** The goroutine's own step, given its run's status in the store. */
  function NextJob(job: Job, s: Option<Status>, turn: Turn): Job {
    match job.pc
    case Begin => job.(pc := if s == Some(Pending) then Validating else Leaving)
    case Validating => job.(pc := if turn == Break then Leaving else Probing)
    case Probing => job.(pc := if job.ctx != Alive then EndingEarly else Launching)
    case EndingEarly => job.(pc := Leaving)
    case Launching => if turn == Break then job.(pc := Leaving) else job.(pc := Publishing, started := true)
    case Publishing => job.(pc := PostCheck, published := true)
    case PostCheck => if job.ctx != Alive then job.(pc := Killing) else job.(pc := Waiting, sawAlive := true)
    case Killing => job.(pc := Waiting, killed := true)
    case Waiting =>
      if turn.Exit? then job.(pc := Exited(turn.failed)) else job.(pc := Judged(FromContext), killed := true)
    case Exited(failed) =>
      job.(pc := Judged(if job.ctx != Alive then FromContext else if failed then Failure else Success))
    case Judged(_) => job.(pc := Leaving)
    case Leaving => job
    case Gone => job
  }

  /** A timeout fails the run, anything else cancels it. */
  function ByContext(s: Status, ctx: Context): Status {
    if ctx == DeadlineExceeded then Concluded(s, Failed) else CancelledFrom(s)
  }

  /** What that step makes of the run's status, when the run is still stored. */
  function NextStatus(job: Job, s: Status, turn: Turn): Status {
    match job.pc
    case Begin => MarkedRunning(s)
    case Validating => if turn == Break then Concluded(s, Failed) else s
    case EndingEarly => ByContext(s, job.ctx)
    case Launching => if turn == Break then Concluded(s, Failed) else s
    case Judged(v) =>
      (match v
       case Success => Concluded(s, Completed)
       case Failure => Concluded(s, Failed)
       case FromContext => ByContext(s, job.ctx))
    case _ => s
  }

  function NextStored(job: Job, s: Option<Status>, turn: Turn): Option<Status> {
    match s
    case None => None
    case Some(v) => Some(NextStatus(job, v, turn))
  }

  /** A deadline exists from the moment the timeout context is made. */
  predicate CanTimeOut(job: Job) {
    job.ctx == Alive && !job.pc.Begin? && !job.pc.Validating? && !job.pc.Leaving? && !job.pc.Gone?
  }

  // ---------------------------------------------------------------- the steps

  datatype Action =
    | RunLock(task: TaskId) | RunCheck | RunCreate(id: RunId, pruned: set<RunId>) | RunRegister
    | Step(id: RunId, turn: Turn) | Timeout(id: RunId) | Deregister(id: RunId)
    | Delete(task: TaskId)
    | CancelCall(call: CallId, run: RunId) | Look(call: CallId) | CancelFallback(call: CallId)
    | CloseCall(call: CallId) | Pick(call: CallId, run: RunId) | Advance(call: CallId)

  ghost predicate Enabled(w: World, a: Action) {
    match a
    case RunLock(task) => w.lock == Free
    case RunCheck => w.lock.Checking?
    case RunCreate(id, pruned) =>
      && w.lock.Cleared? && id !in w.mentioned
      && forall i :: i in pruned ==> i == id || (i in w.store && w.store[i].task == w.lock.task)
    case RunRegister => w.lock.Created?
    case Step(id, turn) => id in w.jobs && CanStep(w.jobs[id], turn)
    case Timeout(id) => id in w.jobs && CanTimeOut(w.jobs[id])
    case Deregister(id) => id in w.jobs && w.jobs[id].pc == Leaving && w.lock == Free
    case Delete(task) => true
    case CancelCall(call, run) => call !in w.callers && w.lock == Free
    case Look(call) => call in w.callers && w.callers[call].Missing?
    case CancelFallback(call) => call in w.callers && w.callers[call].Fallback?
    case CloseCall(call) => call !in w.callers && w.lock == Free
    case Pick(call, run) =>
      call in w.callers && w.callers[call].Cancelling? && w.callers[call].cur == None && run in w.callers[call].todo
    case Advance(call) =>
      && call in w.callers && w.callers[call].Cancelling? && w.callers[call].cur.Some?
      && w.callers[call].cur.value.0 in w.jobs
  }

  function SetCaller(w: World, call: CallId, c: Caller): World {
    w.(callers := w.callers[call := c])
  }

  function SetJob(w: World, id: RunId, job: Job): World {
    w.(jobs := w.jobs[id := job])
  }

  function SetStatus(w: World, id: RunId, s: Option<Status>): World {
    w.(store := Update(w.store, id, s))
  }

  function Stop(job: Job): Job {
    if job.ctx == Alive then job.(ctx := Canceled) else job
  }

  function CancelStored(s: Option<Status>): Option<Status> {
    match s
    case None => None
    case Some(v) => Some(CancelledFrom(v))
  }

  // One stage of cancelling a run: its effect on the run's goroutine record,
  // on its status, and the stage that comes next.

  function AdvanceJob(job: Job, phase: Phase): Job {
    match phase
    case Signal => Stop(job)
    case SendKill(seen) => if seen then job.(killed := true) else job
    case _ => job
  }

  function AdvanceStored(s: Option<Status>, phase: Phase): Option<Status> {
    if phase == Mark then CancelStored(s) else s
  }

  function NextPhase(job: Job, phase: Phase): Option<Phase> {
    match phase
    case Mark => Some(Signal)
    case Signal => Some(ReadPgid)
    case ReadPgid => Some(SendKill(job.published))
    case SendKill(_) => None
  }

  function AdvanceCall(w: World, call: CallId, c: Caller, id: RunId, phase: Phase): World
    requires c.Cancelling? && id in w.jobs
  {
    var next := NextPhase(w.jobs[id], phase);
    w.(store := Update(w.store, id, AdvanceStored(StatusOf(w.store, id), phase)),
       jobs := w.jobs[id := AdvanceJob(w.jobs[id], phase)],
       callers := w.callers[call := c.(cur := if next.Some? then Some((id, next.value)) else None)],
       signalled := if next.None? then w.signalled + {id} else w.signalled)
  }

  ghost function Do(w: World, a: Action): World
    requires Enabled(w, a)
  {
    match a
    case RunLock(task) => if w.closed then w else w.(lock := Checking(task))
    case RunCheck => w.(lock := if TaskBusy(w.store, w.lock.task) then Free else Cleared(w.lock.task))
    case RunCreate(id, pruned) =>
      w.(store := w.store[id := Info(w.lock.task, Pending)] - pruned, lock := Created(id),
         mentioned := w.mentioned + {id})
    case RunRegister =>
      w.(jobs := w.jobs[w.lock.id := Job(Begin, Alive, false, false, false, false)],
         registered := w.registered + {w.lock.id}, lock := Free)
    case Step(id, turn) =>
      var s := StatusOf(w.store, id);
      SetStatus(SetJob(w, id, NextJob(w.jobs[id], s, turn)), id, NextStored(w.jobs[id], s, turn))
    case Timeout(id) => SetJob(w, id, w.jobs[id].(ctx := DeadlineExceeded))
    case Deregister(id) => SetJob(w, id, w.jobs[id].(pc := Gone)).(registered := w.registered - {id})
    case Delete(task) => w.(store := map id | id in w.store && w.store[id].task != task :: w.store[id])
    case CancelCall(call, run) =>
      SetCaller(w, call, if run in w.registered then Cancelling(false, {}, Some((run, Mark))) else Missing(run))
        .(mentioned := w.mentioned + {run})
    case Look(call) =>
      var run := w.callers[call].run;
      SetCaller(w, call, if IsActive(w.store, run) then Fallback(run) else Refused)
    case CancelFallback(call) =>
      var run := w.callers[call].run;
      SetCaller(SetStatus(w, run, CancelStored(StatusOf(w.store, run))), call, Refused)
    case CloseCall(call) => SetCaller(w, call, Cancelling(true, w.registered, None)).(closed := true)
    case Pick(call, run) =>
      var c := w.callers[call];
      SetCaller(w, call, c.(todo := c.todo - {run}, cur := Some((run, Mark))))
    case Advance(call) =>
      var c := w.callers[call];
      AdvanceCall(w, call, c, c.cur.value.0, c.cur.value.1)
  }

  // ------------------------------------------------------------------- runs

  /** The world after taking the actions one by one; None when one was not enabled. */
  ghost function After(w: World, acts: seq<Action>): Option<World> {
    if acts == [] then Some(w)
    else match After(w, acts[..|acts| - 1])
      case None => None
      case Some(v) => if Enabled(v, acts[|acts| - 1]) then Some(Do(v, acts[|acts| - 1])) else None
  }

  /** A store as Load leaves it: nothing is active. */
  predicate Loaded(store: map<RunId, Info>) {
    forall id :: id in store ==> !Active(store[id].status)
  }

  ghost predicate Reachable(w: World) {
    exists store: map<RunId, Info>, acts: seq<Action> :: Loaded(store) && After(Start(store), acts) == Some(w)
  }

  // ---------------------------------------------------------- the invariant

  predicate StatusIn(s: Option<Status>, a: Status, b: Status) {
    s.Some? ==> s.value == a || s.value == b
  }

  /** The status a run may have while its goroutine is at this point. */
  predicate StageOk(pc: Pc, s: Option<Status>) {
    match pc
    case Begin => StatusIn(s, Pending, Cancelled)
    case Leaving => s.Some? ==> Terminal(s.value)
    case Gone => s.Some? ==> Terminal(s.value)
    case _ => StatusIn(s, Running, Cancelled)
  }

  predicate BeforeStart(pc: Pc) {
    pc.Begin? || pc.Validating? || pc.Probing? || pc.EndingEarly? || pc.Launching?
  }

  predicate PastCheck(pc: Pc) {
    pc.Waiting? || pc.Exited? || pc.Judged? || pc.Leaving? || pc.Gone?
  }

  /** Start, publication and the check after it happen in this order. */
  predicate LaunchOk(job: Job) {
    && (BeforeStart(job.pc) ==> !job.started && !job.published && !job.sawAlive)
    && (job.pc.Publishing? ==> job.started && !job.published && !job.sawAlive)
    && (job.pc.PostCheck? ==> job.started && job.published && !job.sawAlive)
    && (job.pc.Killing? ==> job.started && job.published && job.ctx != Alive)
    && (job.pc.EndingEarly? ==> job.ctx != Alive)
    && (PastCheck(job.pc) && job.started ==> job.published && (job.killed || job.sawAlive))
    && (job.sawAlive ==> job.started)
  }

  predicate JobOk(w: World, id: RunId)
    requires id in w.jobs
  {
    && StageOk(w.jobs[id].pc, StatusOf(w.store, id))
    && LaunchOk(w.jobs[id])
    && (id in w.registered <==> w.jobs[id].pc != Gone)
    && id in w.mentioned
  }

  /** Only a run that is registered, or about to be, is active. */
  predicate StoredOk(w: World, id: RunId) {
    id in w.store ==>
      id in w.mentioned && (Active(w.store[id].status) ==> id in w.jobs || w.lock == Created(id))
  }

  ghost predicate OneActive(store: map<RunId, Info>) {
    forall i, j :: IsActive(store, i) && IsActive(store, j) && store[i].task == store[j].task ==> i == j
  }

  ghost predicate LockOk(w: World) {
    && (w.lock.Cleared? ==> !TaskBusy(w.store, w.lock.task))
    && (w.lock.Created? ==>
         && w.lock.id in w.mentioned && w.lock.id !in w.jobs
         && (w.lock.id in w.store ==> w.store[w.lock.id].status == Pending))
    && (w.closed ==> w.lock == Free)
    && w.registered <= w.jobs.Keys
  }

  /** How far a caller has got with the run in hand. */
  predicate PhaseOk(w: World, id: RunId, phase: Phase)
    requires id in w.jobs
  {
    && (phase != Mark ==> !IsActive(w.store, id))
    && (phase.ReadPgid? || phase.SendKill? ==> w.jobs[id].ctx != Alive)
    && (phase == SendKill(false) ==> !w.jobs[id].sawAlive)
  }

  predicate Awaits(c: Caller, id: RunId) {
    c.Cancelling? && (id in c.todo || c.cur == Some((id, Mark)))
  }

  /** Close still has every active run before it. */
  ghost predicate ClosingOk(w: World, c: Caller) {
    c.Cancelling? && c.closing ==> w.closed && forall id :: IsActive(w.store, id) ==> Awaits(c, id)
  }

  predicate CallerOk(w: World, c: Caller) {
    match c
    case Cancelling(_, todo, cur) =>
      && todo <= w.jobs.Keys
      && (cur.Some? ==> cur.value.0 in w.jobs && PhaseOk(w, cur.value.0, cur.value.1))
    case Missing(run) => run in w.mentioned && !IsActive(w.store, run)
    case Fallback(_) => false
    case Refused => true
  }

  predicate SignalOk(w: World, id: RunId) {
    id in w.signalled ==>
      && id in w.jobs && !IsActive(w.store, id)
      && w.jobs[id].ctx != Alive && (w.jobs[id].killed || !w.jobs[id].sawAlive)
  }

  ghost predicate RunsOk(w: World) {
    && (forall id {:trigger JobOk(w, id)} :: id in w.jobs ==> JobOk(w, id))
    && (forall id {:trigger StoredOk(w, id)} :: StoredOk(w, id))
    && OneActive(w.store)
    && LockOk(w)
  }

  ghost predicate CallersOk(w: World) {
    && (forall call :: call in w.callers ==> CallerOk(w, w.callers[call]) && ClosingOk(w, w.callers[call]))
    && (forall id {:trigger SignalOk(w, id)} :: SignalOk(w, id))
  }

  ghost predicate Inv(w: World) { RunsOk(w) && CallersOk(w) }
}
