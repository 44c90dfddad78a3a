/** The executor's methods as runs of the machine: what Run, Cancel and Close do to
    the objects, the machine does step by step, so that everything proved about its
    reachable states holds of the objects too. */
module ExecutorRuns {
  import opened Wrappers
  import opened Runs
  import opened Executor
  import opened ExecutorObjects
  import opened ExecutorSafety

  ghost predicate Reaches(w: World, v: World) { exists acts :: After(w, acts) == Some(v) }

  lemma AfterMore(w: World, acts: seq<Action>, v: World, a: Action) returns (more: seq<Action>)
    requires After(w, acts) == Some(v) && Enabled(v, a)
    ensures After(w, more) == Some(Do(v, a))
  {
    more := acts + [a];
    assert more[..|acts|] == acts;
  }

  lemma ReachesSelf(w: World)
    ensures Reaches(w, w)
  {
    assert After(w, []) == Some(w);
  }

  lemma ReachesMore(w: World, v: World, a: Action)
    requires Reaches(w, v) && Enabled(v, a)
    ensures Reaches(w, Do(v, a))
  {
    hide After, Enabled, Do;
    var acts :| After(w, acts) == Some(v);
    var more := AfterMore(w, acts, v, a);
  }

  /** The registered runningTasks as values. */
  ghost function Handles(running: map<RunId, RunningTask>): map<RunId, Handle>
    reads running.Values
  {
    map id | id in running :: running[id].State()
  }

  predicate ShowsJobs(handles: map<RunId, Handle>, w: World) {
    && handles.Keys == w.registered && w.registered <= w.jobs.Keys
    && forall id :: id in handles ==> Shows(handles[id], w.jobs[id])
  }

  /** The objects look as the world does: the same store, the same registered runs,
      each with the context, the published group and the kill of its record. */
  ghost predicate ShowsAll(w: World, e: TaskExecutor)
    reads e, e.runStore, e.runStore.runs.Values, e.running.Values
  {
    StoreOf(e.runStore.runs) == w.store && e.closed == w.closed && ShowsJobs(Handles(e.running), w)
  }

  // ---------------------------------------------------------------- starting

  /** The daemon starts: whatever the file said, the executor over the loaded store
      shows a starting world of the machine. */
  method Restart(limit: int, records: seq<Record>, now: int) returns (e: TaskExecutor)
    requires DistinctIds(records)
    ensures e.Valid() && Loaded(StoreOf(e.runStore.runs))
    ensures ShowsAll(Start(StoreOf(e.runStore.runs)), e)
    ensures forall k :: 0 <= k < |records| ==> records[k].id in e.runStore.runs
  {
    hide Agree, Sorted, SameRuns, ById, OfTask, OneEach, DistinctIds, Recovered, Settled, Runs.Run.Rec;
    var store := new RunStore(limit);
    ghost var objs := store.Load(records, now);
    e := new TaskExecutor(store);
    NoneLost(objs, records, now);
  }

  lemma NoneLost(objs: seq<Run>, records: seq<Record>, now: int)
    requires |objs| == |records| && forall k :: 0 <= k < |objs| ==> objs[k].Rec() == Settled(records[k], now)
    ensures forall k :: 0 <= k < |records| ==> records[k].id in ById(objs)
  {
    hide ById;
    ByIdMembers(objs);
    forall k | 0 <= k < |records| ensures records[k].id in ById(objs) {
      assert objs[k].Rec().id == objs[k].id && objs[k] in objs;
    }
  }

  // --------------------------------------------------------------------- Run

  const FRESH_JOB := Job(Begin, Alive, false, false, false, false)

  /** Run, on the store and on the runningTasks as values. */
  method RunValues(e: TaskExecutor, task: TaskId, id: RunId, now: int)
    returns (result: Result<Run>, ghost pruned: set<RunId>)
    requires e.Valid() && id !in e.runStore.runs && id !in e.running
    modifies e`running, e.runStore
    ensures e.Valid() && (result.Ok? <==> !e.closed && !old(TaskBusy(StoreOf(e.runStore.runs), task)))
    ensures result.Err? ==> e.running == old(e.running) && e.runStore.runs == old(e.runStore.runs)
    ensures result.Ok? ==>
              && id in e.running
              && StoreOf(e.runStore.runs) == old(StoreOf(e.runStore.runs))[id := Info(task, Pending)] - pruned
              && Handles(e.running) == old(Handles(e.running))[id := Handles(e.running)[id]]
              && Shows(Handles(e.running)[id], FRESH_JOB)
    ensures result.Ok? ==> OfThisTask(old(StoreOf(e.runStore.runs)), pruned, id, task)
  {
    hide TaskExecutor.Valid, TaskBusy, RunningTask.State, Shows;
    ghost var before := StoreOf(e.runStore.runs);
    assert forall i :: i in e.runStore.runs ==> i in before && before[i].task == e.runStore.runs[i].task;
    hide StoreOf;
    result, pruned := e.Run(task, id, now);
  }

  predicate OfThisTask(store: map<RunId, Info>, pruned: set<RunId>, id: RunId, task: TaskId) {
    forall i :: i in pruned ==> i == id || (i in store && store[i].task == task)
  }

  /** Run is a run of the machine: a success ends with the new run pending and
      registered, a refusal changes nothing. */
  method RunRuns(e: TaskExecutor, task: TaskId, id: RunId, now: int, ghost w: World)
    returns (result: Result<Run>, ghost w': World)
    requires e.Valid() && ShowsAll(w, e) && w.lock == Free && id !in w.mentioned
    requires id !in e.runStore.runs && id !in e.running
    modifies e`running, e.runStore
    ensures e.Valid() && ShowsAll(w', e) && Reaches(w, w')
    ensures w'.lock == Free && w'.callers == w.callers
    ensures result.Err? ==> w' == w
    ensures result.Ok? ==>
              w'.registered == w.registered + {id}
              && w'.jobs == w.jobs[id := Job(Begin, Alive, false, false, false, false)]
  {
    hide TaskExecutor.Valid, Reaches, TaskBusy, StoreOf, Handles, Shows, OfThisTask;
    ghost var pruned;
    result, pruned := RunValues(e, task, id, now);
    w' := w;
    ReachesSelf(w);
    if result.Ok? { w' := RunsSteps(w, task, id, pruned); }
  }

  lemma RunsSteps(w: World, task: TaskId, id: RunId, pruned: set<RunId>) returns (w': World)
    requires w.lock == Free && !w.closed && id !in w.mentioned && !TaskBusy(w.store, task)
    requires OfThisTask(w.store, pruned, id, task)
    ensures Reaches(w, w')
    ensures w'.lock == Free && w'.callers == w.callers && w'.closed == w.closed
    ensures w'.registered == w.registered + {id}
    ensures w'.jobs == w.jobs[id := Job(Begin, Alive, false, false, false, false)]
    ensures w'.store == w.store[id := Info(task, Pending)] - pruned
  {
    hide Reaches, TaskBusy;
    ReachesSelf(w);
    ReachesMore(w, w, RunLock(task));
    var v := Do(w, RunLock(task));
    ReachesMore(w, v, RunCheck);
    v := Do(v, RunCheck);
    ReachesMore(w, v, RunCreate(id, pruned));
    v := Do(v, RunCreate(id, pruned));
    ReachesMore(w, v, RunRegister);
    w' := Do(v, RunRegister);
  }

  // ---------------------------------------------------- stopping one run

  /** Marked, context cancelled, group killed if it was published; nothing else moved. */
  predicate Cancels(w: World, w': World, run: RunId)
    requires run in w.jobs
  {
    && w'.store == Update(w.store, run, CancelStored(StatusOf(w.store, run)))
    && w'.jobs == w.jobs[run := Stop(w.jobs[run]).(killed := w.jobs[run].killed || w.jobs[run].published)]
    && w'.registered == w.registered && run in w'.signalled
  }

  /** On the way there: the stages before `phase` are done. */
  predicate Halfway(w: World, v: World, call: CallId, run: RunId, phase: Phase)
    requires run in w.jobs && call in w.callers && w.callers[call].Cancelling?
  {
    && v.callers == w.callers[call := w.callers[call].(cur := Some((run, phase)))]
    && v.store == (if phase == Mark then w.store else Update(w.store, run, CancelStored(StatusOf(w.store, run))))
    && v.jobs == w.jobs[run := if phase == Mark || phase == Signal then w.jobs[run] else Stop(w.jobs[run])]
    && v.registered == w.registered && v.lock == w.lock && v.closed == w.closed && v.mentioned == w.mentioned
    && (phase.SendKill? ==> phase.seen == w.jobs[run].published)
  }

  lemma Restored(store: map<RunId, Info>, run: RunId)
    ensures Update(store, run, StatusOf(store, run)) == store
  {
  }

  lemma NextStage(w: World, v: World, call: CallId, run: RunId, phase: Phase)
    requires run in w.jobs && call in w.callers && w.callers[call].Cancelling?
    requires Halfway(w, v, call, run, phase) && !phase.SendKill?
    ensures Enabled(v, Advance(call)) && NextPhase(w.jobs[run], phase).Some?
    ensures Halfway(w, Do(v, Advance(call)), call, run, NextPhase(w.jobs[run], phase).value)
  {
    hide CancelStored;
    Restored(v.store, run);
    hide Update;
  }

  lemma LastStage(w: World, v: World, call: CallId, run: RunId)
    requires run in w.jobs && call in w.callers && w.callers[call].Cancelling?
    requires Halfway(w, v, call, run, SendKill(w.jobs[run].published))
    ensures Enabled(v, Advance(call)) && Cancels(w, Do(v, Advance(call)), run)
    ensures Back(w, Do(v, Advance(call)), call)
  {
    hide CancelStored;
    Restored(v.store, run);
    hide Update;
  }

  /** The call has nothing in hand, and only what Cancels names has moved. */
  predicate Back(w: World, w': World, call: CallId)
    requires call in w.callers && w.callers[call].Cancelling?
  {
    && w'.callers == w.callers[call := w.callers[call].(cur := None)]
    && w'.lock == w.lock && w'.closed == w.closed && w'.mentioned == w.mentioned
  }

  /** A call that has taken a run in hand stops it in four steps. */
  lemma StopsOne(w: World, call: CallId, run: RunId) returns (w': World)
    requires run in w.jobs && call in w.callers && w.callers[call].Cancelling?
    requires w.callers[call].cur == Some((run, Mark))
    ensures Reaches(w, w') && Cancels(w, w', run) && Back(w, w', call)
  {
    assert Halfway(w, w, call, run, Mark);
    hide Reaches, Do, Enabled, Cancels, Halfway, Back;
    ReachesSelf(w);
    var v, a := w, Advance(call);
    NextStage(w, v, call, run, Mark);
    ReachesMore(w, v, a);
    v := Do(v, a);
    NextStage(w, v, call, run, Signal);
    ReachesMore(w, v, a);
    v := Do(v, a);
    NextStage(w, v, call, run, ReadPgid);
    ReachesMore(w, v, a);
    v := Do(v, a);
    LastStage(w, v, call, run);
    ReachesMore(w, v, a);
    w' := Do(v, a);
  }

  lemma {:induction false} AfterConcat(w: World, a: seq<Action>, v: World, b: seq<Action>)
    requires After(w, a) == Some(v)
    ensures After(w, a + b) == After(v, b)
  {
    if b == [] {
      assert a + b == a;
    } else {
      hide Enabled, Do;
      assert (a + b)[..|a + b| - 1] == a + b[..|b| - 1];
      AfterConcat(w, a, v, b[..|b| - 1]);
    }
  }

  lemma ReachesThen(u: World, v: World, w: World)
    requires Reaches(u, v) && Reaches(v, w)
    ensures Reaches(u, w)
  {
    hide After;
    var a :| After(u, a) == Some(v);
    var b :| After(v, b) == Some(w);
    AfterConcat(u, a, v, b);
  }

  // ------------------------------------------------------------------ Cancel

  /** Cancel of a registered run, taken without interference, as steps of the machine. */
  lemma CancelIsARun(w: World, call: CallId, run: RunId) returns (w': World)
    requires w.lock == Free && call !in w.callers && run in w.registered && run in w.jobs
    ensures Reaches(w, w') && Cancels(w, w', run)
    ensures w'.lock == Free && w'.closed == w.closed
  {
    var v := Do(w, CancelCall(call, run));
    ReachesSelf(w);
    ReachesMore(w, w, CancelCall(call, run));
    w' := StopsOne(v, call, run);
    hide Reaches;
    ReachesThen(w, v, w');
  }

  /** Cancel of a run that is not registered: it looks the run up in the store, and
      marks it when it is still active. */
  lemma MissIsARun(w: World, call: CallId, run: RunId) returns (w': World)
    requires w.lock == Free && call !in w.callers && run !in w.registered
    ensures Reaches(w, w') && w'.lock == Free && w'.closed == w.closed
    ensures w'.registered == w.registered && w'.jobs == w.jobs
    ensures w'.store == Update(w.store, run, CancelStored(StatusOf(w.store, run)))
  {
    hide Reaches;
    ReachesSelf(w);
    ReachesMore(w, w, CancelCall(call, run));
    var v := Do(w, CancelCall(call, run));
    ReachesMore(w, v, Look(call));
    w' := Do(v, Look(call));
    if IsActive(w.store, run) {
      ReachesMore(w, w', CancelFallback(call));
      w' := Do(w', CancelFallback(call));
    }
  }

  ghost function Records(runs: map<RunId, Run>): map<RunId, Record>
    reads runs.Values
  {
    map id | id in runs :: runs[id].Rec()
  }

  /** The store in which some runs were marked. */
  predicate MarkedRecords(before: map<RunId, Record>, after: map<RunId, Record>, ids: set<RunId>, now: int) {
    && before.Keys == after.Keys
    && forall i :: i in before ==> after[i] == if i in ids then Stopped(before[i], now) else before[i]
  }

  function Infos(records: map<RunId, Record>): map<RunId, Info> {
    map id | id in records :: Info(records[id].task, records[id].status)
  }

  lemma StoreOfRecords(runs: map<RunId, Run>)
    ensures StoreOf(runs) == Infos(Records(runs))
  {
  }

  lemma MarkedInfos(before: map<RunId, Record>, after: map<RunId, Record>, ids: set<RunId>, now: int)
    requires MarkedRecords(before, after, ids, now)
    ensures MarkedStore(Infos(before), Infos(after), ids)
  {
  }

  /** The store in which some runs were marked. */
  predicate MarkedStore(before: map<RunId, Info>, after: map<RunId, Info>, ids: set<RunId>) {
    && before.Keys == after.Keys
    && forall i :: i in before ==>
         after[i] == if i in ids then before[i].(status := CancelledFrom(before[i].status)) else before[i]
  }

  lemma MarkedOne(before: map<RunId, Info>, after: map<RunId, Info>, id: RunId)
    requires MarkedStore(before, after, {id})
    ensures after == Update(before, id, CancelStored(StatusOf(before, id)))
  {
  }

  predicate HaltedHandles(before: map<RunId, Handle>, after: map<RunId, Handle>, ids: set<RunId>) {
    && before.Keys == after.Keys
    && forall i :: i in before ==> after[i] == if i in ids then Halted(before[i]) else before[i]
  }

  /** Cancel, on the store and on the runningTasks as values. */
  method CancelValues(e: TaskExecutor, id: RunId, now: int) returns (result: Result<()>)
    requires e.Valid()
    modifies if id in e.runStore.runs then {e.runStore.runs[id]} else {}
    modifies if id in e.running then {e.running[id]} else {}
    ensures e.Valid() && (id in e.running ==> result == Ok(()))
    ensures id !in e.running ==> (result.Ok? <==> old(id in e.runStore.runs && Active(e.runStore.runs[id].status)))
    ensures MarkedStore(old(StoreOf(e.runStore.runs)), StoreOf(e.runStore.runs), {id})
    ensures HaltedHandles(old(Handles(e.running)), Handles(e.running), {id})
  {
    hide Runs.RunStore.Valid, Stopped, Halted, MarkedStore, RunningTask.State, Runs.Run.Rec, StoreOf, Infos;
    ghost var records, handles := Records(e.runStore.runs), Handles(e.running);
    StoreOfRecords(e.runStore.runs);
    result := e.Cancel(id, now);
    StoreOfRecords(e.runStore.runs);
    MarkedInfos(records, Records(e.runStore.runs), {id}, now);
  }

  lemma StillShows(before: map<RunId, Handle>, after: map<RunId, Handle>, w: World, w': World, ids: set<RunId>)
    requires ShowsJobs(before, w) && HaltedHandles(before, after, ids)
    requires w'.registered == w.registered && w'.jobs.Keys == w.jobs.Keys
    requires forall i :: i in w.registered ==> w'.jobs[i] == if i in ids then Stopping(w.jobs[i]) else w.jobs[i]
    ensures ShowsJobs(after, w')
  {
  }

  /** Context cancelled, and the group killed if it was published. */
  function Stopping(job: Job): Job {
    Stop(job).(killed := job.killed || job.published)
  }

  /** TaskExecutor.Cancel is a run of the machine: where the objects showed a world
      before the call they show one after it that its steps lead to. */
  method CancelRuns(e: TaskExecutor, id: RunId, now: int, ghost w: World, ghost call: CallId)
    returns (result: Result<()>, ghost w': World)
    requires e.Valid() && ShowsAll(w, e) && w.lock == Free && call !in w.callers
    modifies if id in e.runStore.runs then {e.runStore.runs[id]} else {}
    modifies if id in e.running then {e.running[id]} else {}
    ensures e.Valid() && ShowsAll(w', e) && Reaches(w, w') && w'.lock == Free
    ensures id in e.running ==> result == Ok(()) && id in w.jobs && Cancels(w, w', id)
    ensures id !in e.running ==> w'.jobs == w.jobs
    ensures id !in e.running ==>
              (result.Ok? <==> old(id in e.runStore.runs && Active(e.runStore.runs[id].status)))
  {
    hide TaskExecutor.Valid, Reaches, StoreOf, MarkedStore, Update, CancelStored, HaltedHandles, Shows;
    assert id in e.running <==> id in w.registered;
    if id in e.running { w' := CancelIsARun(w, call, id); } else { w' := MissIsARun(w, call, id); }
    ghost var before := Handles(e.running);
    result := CancelValues(e, id, now);
    MarkedOne(w.store, StoreOf(e.runStore.runs), id);
    StillShows(before, Handles(e.running), w, w', {id});
  }

  // ------------------------------------------------------------------- Close

  /** Close has been through every run but those in `todo`. */
  predicate Closing(w: World, v: World, call: CallId, todo: set<RunId>) {
    && v.callers == w.callers[call := Cancelling(true, todo, None)] && v.closed && v.lock == w.lock
    && todo <= w.registered && v.registered == w.registered && v.jobs.Keys == w.jobs.Keys
    && (forall i :: i in w.jobs ==>
          v.jobs[i] == if i in w.registered - todo then Stopping(w.jobs[i]) else w.jobs[i])
    && MarkedStore(w.store, v.store, w.registered - todo)
  }

  lemma UpdatedOne(store: map<RunId, Info>, run: RunId)
    ensures MarkedStore(store, Update(store, run, CancelStored(StatusOf(store, run))), {run})
  {
  }

  lemma MarkedMore(a: map<RunId, Info>, b: map<RunId, Info>, c: map<RunId, Info>, ids: set<RunId>, run: RunId)
    requires MarkedStore(a, b, ids) && MarkedStore(b, c, {run}) && run !in ids
    ensures MarkedStore(a, c, ids + {run})
  {
  }

  lemma CloseStep(w: World, v: World, call: CallId, todo: set<RunId>, run: RunId) returns (v': World)
    requires Closing(w, v, call, todo) && w.registered <= w.jobs.Keys && run in todo
    ensures Reaches(v, v') && Closing(w, v', call, todo - {run})
  {
    var u := Do(v, Pick(call, run));
    ReachesSelf(v);
    ReachesMore(v, v, Pick(call, run));
    v' := StopsOne(u, call, run);
    hide Reaches, Update, CancelStored, Stop;
    ReachesThen(v, u, v');
    UpdatedOne(v.store, run);
    MarkedMore(w.store, v.store, v'.store, w.registered - todo, run);
    hide MarkedStore;
    assert w.registered - todo + {run} == w.registered - (todo - {run});
  }

  lemma {:induction false} CloseLoop(w: World, v: World, call: CallId, todo: set<RunId>) returns (v': World)
    requires Closing(w, v, call, todo) && w.registered <= w.jobs.Keys
    ensures Reaches(v, v') && Closing(w, v', call, {})
    decreases |todo|
  {
    hide Reaches, Closing;
    if todo == {} {
      ReachesSelf(v);
      v' := v;
    } else {
      var run :| run in todo;
      var u := CloseStep(w, v, call, todo, run);
      v' := CloseLoop(w, u, call, todo - {run});
      ReachesThen(v, u, v');
    }
  }

  /** Close, taken without interference, as steps of the machine. */
  lemma CloseIsARun(w: World, call: CallId) returns (w': World)
    requires w.lock == Free && call !in w.callers && w.registered <= w.jobs.Keys
    ensures Reaches(w, w') && Closing(w, w', call, {})
  {
    ReachesSelf(w);
    ReachesMore(w, w, CloseCall(call));
    var v := Do(w, CloseCall(call));
    assert w.registered - w.registered == {};
    w' := CloseLoop(w, v, call, w.registered);
    hide Reaches, Closing;
    ReachesThen(w, v, w');
  }

  /** TaskExecutor.Close is a run of the machine that has been through every
      registered run. */
  method CloseRuns(e: TaskExecutor, now: int, ghost w: World, ghost call: CallId) returns (ghost w': World)
    requires e.Valid() && ShowsAll(w, e) && w.lock == Free && call !in w.callers
    modifies e`closed, e.runStore.runs.Values, e.running.Values
    ensures e.Valid() && ShowsAll(w', e) && Reaches(w, w') && w'.lock == Free
    ensures call in w'.callers && CloseDone(w'.callers[call])
  {
    hide Runs.RunStore.Valid, Reaches, Stopped, Halted, MarkedStore, Shows, RunningTask.State, Runs.Run.Rec, StoreOf,
      Infos;
    w' := CloseIsARun(w, call);
    ghost var records, handles := Records(e.runStore.runs), Handles(e.running);
    StoreOfRecords(e.runStore.runs);
    e.Close(now);
    StoreOfRecords(e.runStore.runs);
    MarkedInfos(records, Records(e.runStore.runs), w.registered, now);
    SameMarks(w.store, StoreOf(e.runStore.runs), w'.store, w.registered);
    StillShows(handles, Handles(e.running), w, w', w.registered);
  }

  lemma SameMarks(a: map<RunId, Info>, b: map<RunId, Info>, c: map<RunId, Info>, ids: set<RunId>)
    requires MarkedStore(a, b, ids) && MarkedStore(a, c, ids - {})
    ensures b == c
  {
  }

  lemma ReachableThen(w: World, w': World)
    requires Reachable(w) && Reaches(w, w')
    ensures Reachable(w')
  {
    hide After;
    var store: map<RunId, Info>, a: seq<Action> :| Loaded(store) && After(Start(store), a) == Some(w);
    var b :| After(w, b) == Some(w');
    AfterConcat(Start(store), a, w, b);
    assert After(Start(store), a + b) == Some(w');
  }

  /** Where the objects show a reachable world, Close leaves no run active: not
      only the registered ones, for there are no others. */
  method CloseStops(e: TaskExecutor, now: int, ghost w: World, ghost call: CallId) returns (ghost w': World)
    requires e.Valid() && ShowsAll(w, e) && w.lock == Free && call !in w.callers && Reachable(w)
    modifies e`closed, e.runStore.runs.Values, e.running.Values
    ensures e.Valid() && e.closed && ShowsAll(w', e) && Reachable(w')
    ensures forall i :: i in e.runStore.runs ==>
              e.runStore.runs[i].status != Pending && e.runStore.runs[i].status != Running
  {
    hide TaskExecutor.Valid, Reaches, Reachable, ShowsJobs, CloseDone;
    w' := CloseRuns(e, now, w, call);
    ReachableThen(w, w');
    CloseStopsEverything(w', [], call);
    forall i | i in e.runStore.runs ensures !Active(e.runStore.runs[i].status) {
      assert !IsActive(w'.store, i);
    }
  }
}
