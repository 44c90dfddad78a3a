/** The run store of internal/task/runs.go: a map of runs and a per-task index
    that is kept sorted newest first and pruned, with the runs updated in place. */
module Runs {
  import opened Wrappers

  type RunId = nat
  type TaskId = nat

  datatype Status = Unspecified | Pending | Running | Completed | Failed | Cancelled

  predicate Active(s: Status) { s == Pending || s == Running }

  predicate Terminal(s: Status) { s == Completed || s == Failed || s == Cancelled }

  // ------------------------------------------------- what each call does

  /** Complete and Fail leave a cancelled run alone - and only that. */
  function Concluded(s: Status, verdict: Status): Status { if s == Cancelled then s else verdict }

  function CancelledFrom(s: Status): Status { if Active(s) then Cancelled else s }

  function MarkedRunning(s: Status): Status { if s == Pending then Running else s }

  /** A run as Load reads it from the file. */
  datatype Record = Record(
    id: RunId, task: TaskId, status: Status, started: int, completed: Option<int>, output: string, error: string)

  function Began(r: Record): Record { r.(status := MarkedRunning(r.status)) }

  function Succeeded(r: Record, output: string, now: int): Record {
    if r.status == Cancelled then r
    else r.(status := Concluded(r.status, Completed), output := output, completed := Some(now))
  }

  function Broke(r: Record, error: string, now: int): Record {
    if r.status == Cancelled then r
    else r.(status := Concluded(r.status, Failed), error := error, completed := Some(now))
  }

  function Stopped(r: Record, now: int): Record {
    if Active(r.status) then r.(status := CancelledFrom(r.status), completed := Some(now)) else r
  }

  const INTERRUPTED := "daemon stopped before the run finished"

  /** No process survives a restart: an active run is loaded as failed. */
  function Settled(r: Record, now: int): Record {
    if Active(r.status)
    then r.(status := Failed, error := INTERRUPTED, completed := if r.completed.None? then Some(now) else r.completed)
    else r
  }

  class Run {
    const id: RunId
    const task: TaskId
    const started: int
    var status: Status
    var completed: Option<int>
    var output: string
    var error: string

    constructor (r: Record)
      ensures Rec() == r
    {
      id, task, started := r.id, r.task, r.started;
      status, completed, output, error := r.status, r.completed, r.output, r.error;
    }

    function Rec(): Record
      reads this
    {
      Record(id, task, status, started, completed, output, error)
    }
  }

  // --------------------------------------------------------- sorted lists

  ghost predicate Sorted(s: seq<Run>) {
    forall j, k :: 0 <= j < k < |s| ==> s[j].started >= s[k].started
  }

  ghost predicate Distinct(s: seq<Run>) {
    forall j, k :: 0 <= j < k < |s| ==> s[j].id != s[k].id
  }

  ghost predicate SameRuns(s: seq<Run>, t: seq<Run>) { multiset(s) == multiset(t) }

  lemma SameMembers(s: seq<Run>, t: seq<Run>, r: Run)
    requires SameRuns(s, t)
    ensures r in s <==> r in t
  {
    assert r in s <==> r in multiset(s);
  }

  /** sort.Slice by StartedAt descending: sorted, same runs; nothing is promised
      about the order of equal times. */
  method SortRuns(s: seq<Run>) returns (t: seq<Run>)
    ensures Sorted(t) && SameRuns(t, s) && |t| == |s|
  {
    hide Sorted;
    t := [];
    assert Sorted(t) by { EmptySorted(t); }
    for i := 0 to |s|
      invariant Sorted(t) && multiset(t) == multiset(s[..i]) && |t| == i
    {
      var k := 0;
      while k < |t| && t[k].started >= s[i].started
        invariant k <= |t| && (k > 0 ==> t[k - 1].started >= s[i].started)
      {
        k := k + 1;
      }
      InsertedRuns(t, k, s, i);
      InsertedSorted(t, k, s[i]);
      t := t[..k] + [s[i]] + t[k..];
    }
    assert s[..|s|] == s;
  }

  lemma EmptySorted(t: seq<Run>)
    requires t == []
    ensures Sorted(t)
  {
  }

  lemma InsertedSorted(t: seq<Run>, k: nat, r: Run)
    requires Sorted(t) && k <= |t|
    requires k > 0 ==> t[k - 1].started >= r.started
    requires k < |t| ==> t[k].started <= r.started
    ensures Sorted(t[..k] + [r] + t[k..])
  {
    var u := t[..k] + [r] + t[k..];
    forall i, j | 0 <= i < j < |u| ensures u[i].started >= u[j].started {
      if i == k { assert u[j] == t[j - 1]; }
      if j == k { assert u[i] == t[i]; }
    }
  }

  lemma InsertedRuns(t: seq<Run>, k: nat, s: seq<Run>, i: nat)
    requires k <= |t| && i < |s| && multiset(t) == multiset(s[..i])
    ensures multiset(t[..k] + [s[i]] + t[k..]) == multiset(s[..i + 1])
  {
    assert t == t[..k] + t[k..];
    assert s[..i + 1] == s[..i] + [s[i]];
  }

  // ------------------------------------------------------- map and index

  type Index = map<TaskId, seq<Run>>

  ghost predicate Indexed(byTask: Index, r: Run, id: RunId) {
    r.id == id && r.task in byTask && r in byTask[r.task]
  }

  ghost predicate Listed(runs: map<RunId, Run>, r: Run, t: TaskId) {
    r.task == t && r.id in runs && runs[r.id] == r
  }

  ghost predicate ListOk(runs: map<RunId, Run>, s: seq<Run>, t: TaskId) {
    Sorted(s) && Distinct(s) && forall r :: r in s ==> Listed(runs, r, t)
  }

  /** Map and index agree: the same runs, under their own ids and tasks, none
      twice, each list newest first. */
  ghost predicate Agree(runs: map<RunId, Run>, byTask: Index) {
    && (forall id :: id in runs ==> Indexed(byTask, runs[id], id))
    && (forall t :: t in byTask ==> ListOk(runs, byTask[t], t))
  }

  function List(byTask: Index, task: TaskId): seq<Run> {
    if task in byTask then byTask[task] else []
  }

  lemma CreatedAgree(runs: map<RunId, Run>, byTask: Index, full: seq<Run>, run: Run)
    requires Agree(runs, byTask) && run.id !in runs
    requires Sorted(full) && SameRuns(full, List(byTask, run.task) + [run])
    ensures Agree(runs[run.id := run], byTask[run.task := full])
    ensures Distinct(full)
  {
    hide Sorted, SameRuns;
    var before, runs', byTask' := List(byTask, run.task), runs[run.id := run], byTask[run.task := full];
    forall r: Run ensures r in full <==> r in before || r == run {
      SameMembers(full, before + [run], r);
    }
    ListDistinct(runs, byTask, run);
    PermDistinct(full, before + [run]);
    hide Distinct;
    forall id | id in runs' ensures Indexed(byTask', runs'[id], id) {
    }
    forall t | t in byTask' ensures ListOk(runs', byTask'[t], t) {
      if t != run.task { assert ListOk(runs, byTask[t], t); }
    }
  }

  /** The listed run lies beyond the limit. */
  ghost predicate Pruned(full: seq<Run>, max: nat, id: RunId) {
    exists k :: max <= k < |full| && full[k].id == id
  }

  function Kept(full: seq<Run>, max: nat): seq<Run> {
    if |full| <= max then full else full[..max]
  }

  lemma KeptMembers(full: seq<Run>, max: nat, r: Run)
    requires Distinct(full)
    ensures r in Kept(full, max) <==> r in full && !Pruned(full, max, r.id)
  {
    if r in full {
      var k :| 0 <= k < |full| && full[k] == r;
      if k < max && |full| > max { assert full[..max][k] == r; }
    }
  }

  lemma PrunedAgree(runs: map<RunId, Run>, byTask: Index, task: TaskId, max: nat, runs': map<RunId, Run>)
    requires Agree(runs, byTask) && task in byTask
    requires forall i :: i in runs' <==> i in runs && !Pruned(byTask[task], max, i)
    requires forall i :: i in runs' ==> runs'[i] == runs[i]
    ensures Agree(runs', byTask[task := Kept(byTask[task], max)])
  {
    var full, byTask' := byTask[task], byTask[task := Kept(byTask[task], max)];
    assert ListOk(runs, full, task);
    assert Sorted(byTask'[task]) && Distinct(byTask'[task]);
    forall r: Run ensures r in byTask'[task] <==> r in full && !Pruned(full, max, r.id) {
      KeptMembers(full, max, r);
    }
    hide Sorted, Distinct, Kept;
    forall id | id in runs' ensures Indexed(byTask', runs'[id], id) {
      assert Indexed(byTask, runs[id], id);
    }
    forall t | t in byTask' ensures ListOk(runs', byTask'[t], t) {
      assert ListOk(runs, byTask[t], t);
      forall r | r in byTask'[t] ensures Listed(runs', r, t) {
        assert Listed(runs, r, t);
        if t != task { OthersStay(runs, full, task, max, r); }
      }
    }
  }

  lemma PrunedIsListed(runs: map<RunId, Run>, byTask: Index, task: TaskId, max: nat, i: RunId)
    requires Agree(runs, byTask) && task in byTask && i in runs && Pruned(byTask[task], max, i)
    ensures runs[i].task == task
  {
    hide Sorted, Distinct;
    assert ListOk(runs, byTask[task], task);
    var k :| max <= k < |byTask[task]| && byTask[task][k].id == i;
    assert Listed(runs, byTask[task][k], task);
  }

  lemma OthersStay(runs: map<RunId, Run>, full: seq<Run>, task: TaskId, max: nat, r: Run)
    requires ListOk(runs, full, task) && Listed(runs, r, r.task) && r.task != task
    ensures !Pruned(full, max, r.id)
  {
    hide Sorted, Distinct;
    forall k | max <= k < |full| ensures full[k].id != r.id {
      assert full[k] in full;
    }
  }

  ghost predicate DistinctIds(records: seq<Record>) {
    forall j, k :: 0 <= j < k < |records| ==> records[j].id != records[k].id
  }

  lemma SameIds(objs: seq<Run>, records: seq<Record>, now: int)
    requires |objs| == |records| && forall k :: 0 <= k < |objs| ==> objs[k].id == Settled(records[k], now).id
    ensures Distinct(objs) <==> DistinctIds(records)
  {
  }

  /** Load's loop: a later run with the same id takes the earlier one's place
      in the map, but both stay in the lists. */
  function ById(objs: seq<Run>): map<RunId, Run> {
    if objs == [] then map[] else ById(objs[..|objs| - 1])[objs[|objs| - 1].id := objs[|objs| - 1]]
  }

  function OfTask(objs: seq<Run>, t: TaskId): seq<Run> {
    if objs == [] then []
    else OfTask(objs[..|objs| - 1], t) + (if objs[|objs| - 1].task == t then [objs[|objs| - 1]] else [])
  }

  ghost predicate OneEach(objs: seq<Run>) {
    forall j, k :: 0 <= j < k < |objs| ==> objs[j] != objs[k]
  }

  lemma {:induction false} OfTaskMembers(objs: seq<Run>, t: TaskId, r: Run)
    ensures r in OfTask(objs, t) <==> r in objs && r.task == t
  {
    if objs != [] {
      OfTaskMembers(objs[..|objs| - 1], t, r);
      assert objs == objs[..|objs| - 1] + [objs[|objs| - 1]];
    }
  }

  lemma {:induction false} OfTaskDistinct(objs: seq<Run>, t: TaskId)
    requires Distinct(objs)
    ensures Distinct(OfTask(objs, t))
  {
    if objs != [] {
      var front, last := objs[..|objs| - 1], objs[|objs| - 1];
      OfTaskDistinct(front, t);
      forall k | 0 <= k < |OfTask(front, t)| ensures OfTask(front, t)[k].id != last.id {
        var r := OfTask(front, t)[k];
        OfTaskMembers(front, t, r);
        var m :| 0 <= m < |front| && front[m] == r;
        assert objs[m] == r;
      }
      if last.task == t { AppendDistinct(OfTask(front, t), last); }
    }
  }

  lemma {:induction false} ByIdMembers(objs: seq<Run>)
    ensures forall i :: i in ById(objs) ==> ById(objs)[i] in objs && ById(objs)[i].id == i
    ensures forall r :: r in objs ==> r.id in ById(objs)
  {
    if objs != [] {
      ByIdMembers(objs[..|objs| - 1]);
      assert objs == objs[..|objs| - 1] + [objs[|objs| - 1]];
    }
  }

  lemma EmptyLoad()
    ensures ById([]) == map[] && Filed(map[], [])
  {
  }

  /** What loading promises for one record: an active run failed, with the reason
      and a completion time; any other run is left alone. */
  predicate Recovered(saved: Record, r: Record, now: int) {
    if saved.status == Pending || saved.status == Running then
      && r.status == Failed && r.error == "daemon stopped before the run finished" && r.completed.Some?
      && (saved.completed.Some? ==> r.completed == saved.completed)
      && (saved.completed.None? ==> r.completed == Some(now))
      && r.id == saved.id && r.task == saved.task && r.started == saved.started && r.output == saved.output
    else
      r == saved
  }

  lemma SettledRecovers(saved: Record, now: int)
    ensures Recovered(saved, Settled(saved, now), now)
    ensures Settled(saved, now).status != Pending && Settled(saved, now).status != Running
  {
  }

  lemma NoneActive(objs: seq<Run>, records: seq<Record>, now: int)
    requires |objs| == |records|
    requires forall k :: 0 <= k < |objs| ==> objs[k].Rec() == Settled(records[k], now)
    ensures forall k :: 0 <= k < |objs| ==> Recovered(records[k], objs[k].Rec(), now)
    ensures forall i :: i in ById(objs) ==> ById(objs)[i].status != Pending && ById(objs)[i].status != Running
  {
    hide Recovered, Settled, ById;
    forall k | 0 <= k < |objs|
      ensures Recovered(records[k], objs[k].Rec(), now)
      ensures objs[k].status != Pending && objs[k].status != Running
    {
      SettledRecovers(records[k], now);
      assert objs[k].status == objs[k].Rec().status;
    }
    ByIdMembers(objs);
  }

  lemma LoadStep(objs: seq<Run>, r: Run)
    ensures ById(objs + [r]) == ById(objs)[r.id := r]
    ensures forall t :: OfTask(objs + [r], t) == OfTask(objs, t) + (if r.task == t then [r] else [])
  {
    assert (objs + [r])[..|objs|] == objs;
  }

  /** The lists hold the runs of their tasks in the order of the records. */
  ghost predicate Filed(byTask: Index, objs: seq<Run>) {
    && (forall t :: List(byTask, t) == OfTask(objs, t))
    && (forall t :: t in byTask ==> byTask[t] != [])
  }

  lemma FiledStep(byTask: Index, objs: seq<Run>, r: Run)
    requires Filed(byTask, objs)
    ensures Filed(byTask[r.task := List(byTask, r.task) + [r]], objs + [r])
  {
    LoadStep(objs, r);
    hide OfTask;
  }

  /** Map and index agree after Load exactly when the file names no id twice. */
  lemma LoadAgreesIff(objs: seq<Run>, byTask: Index)
    requires OneEach(objs)
    requires forall t :: t in byTask <==> OfTask(objs, t) != []
    requires forall t :: t in byTask ==> Sorted(byTask[t]) && SameRuns(byTask[t], OfTask(objs, t))
    ensures Agree(ById(objs), byTask) <==> Distinct(objs)
  {
    if Distinct(objs) { LoadAgrees(objs, byTask); }
    if Agree(ById(objs), byTask) { AgreeMeansDistinct(objs, byTask); }
  }

  lemma {:induction false} ListMembers(objs: seq<Run>, byTask: Index, r: Run)
    requires forall t :: t in byTask <==> OfTask(objs, t) != []
    requires forall t :: t in byTask ==> Sorted(byTask[t]) && SameRuns(byTask[t], OfTask(objs, t))
    ensures r in objs ==> r.task in byTask && r in byTask[r.task]
    ensures forall t :: t in byTask && r in byTask[t] ==> r in objs && r.task == t
  {
    hide Sorted, SameRuns, OfTask;
    OfTaskMembers(objs, r.task, r);
    forall t | t in byTask ensures r in byTask[t] <==> r in objs && r.task == t {
      OfTaskMembers(objs, t, r);
      SameMembers(byTask[t], OfTask(objs, t), r);
    }
    if r in objs { assert r in OfTask(objs, r.task); }
  }

  lemma {:induction false} LoadAgrees(objs: seq<Run>, byTask: Index)
    requires Distinct(objs)
    requires forall t :: t in byTask <==> OfTask(objs, t) != []
    requires forall t :: t in byTask ==> Sorted(byTask[t]) && SameRuns(byTask[t], OfTask(objs, t))
    ensures Agree(ById(objs), byTask)
  {
    hide Sorted, SameRuns, OfTask, ById, Distinct;
    ByIdMembers(objs);
    forall id | id in ById(objs) ensures Indexed(byTask, ById(objs)[id], id) {
      ListMembers(objs, byTask, ById(objs)[id]);
    }
    forall t | t in byTask ensures ListOk(ById(objs), byTask[t], t) {
      OfTaskDistinct(objs, t);
      PermDistinct(byTask[t], OfTask(objs, t));
      forall r | r in byTask[t] ensures Listed(ById(objs), r, t) {
        ListMembers(objs, byTask, r);
        OneRunPerId(objs, r, ById(objs)[r.id]);
      }
    }
  }

  lemma AgreeMeansDistinct(objs: seq<Run>, byTask: Index)
    requires OneEach(objs) && Agree(ById(objs), byTask)
    requires forall t :: t in byTask <==> OfTask(objs, t) != []
    requires forall t :: t in byTask ==> Sorted(byTask[t]) && SameRuns(byTask[t], OfTask(objs, t))
    ensures Distinct(objs)
  {
    hide Sorted, SameRuns, OfTask, ById;
    forall j, k | 0 <= j < k < |objs| ensures objs[j].id != objs[k].id {
      ListMembers(objs, byTask, objs[j]);
      ListMembers(objs, byTask, objs[k]);
      assert ListOk(ById(objs), byTask[objs[j].task], objs[j].task);
      assert ListOk(ById(objs), byTask[objs[k].task], objs[k].task);
      assert Listed(ById(objs), objs[j], objs[j].task) && Listed(ById(objs), objs[k], objs[k].task);
    }
  }

  // ------------------------------------------------- what Create keeps

  ghost predicate Strict(s: seq<Run>) {
    forall j, k :: 0 <= j < k < |s| ==> s[j].started > s[k].started
  }

  /** With different start times there is only one sorted order. */
  lemma {:induction false} OneOrder(s: seq<Run>, t: seq<Run>)
    requires Sorted(s) && Strict(t) && SameRuns(s, t)
    ensures s == t
  {
    assert |multiset(s)| == |s| && |multiset(t)| == |t|;
    if s != [] {
      SameMembers(s, t, s[0]);
      SameMembers(s, t, t[0]);
      HeadsAgree(s, t);
      TailsSame(s, t);
      assert Sorted(s[1..]) && Strict(t[1..]);
      hide Sorted, Strict, SameRuns;
      OneOrder(s[1..], t[1..]);
      assert s == [s[0]] + s[1..] && t == [t[0]] + t[1..];
    }
  }

  lemma TailsSame(s: seq<Run>, t: seq<Run>)
    requires s != [] && t != [] && s[0] == t[0] && SameRuns(s, t)
    ensures SameRuns(s[1..], t[1..])
  {
    assert s == [s[0]] + s[1..] && t == [t[0]] + t[1..];
    assert multiset(s[1..]) == multiset(s) - multiset{s[0]};
    assert multiset(t[1..]) == multiset(t) - multiset{t[0]};
  }

  lemma HeadsAgree(s: seq<Run>, t: seq<Run>)
    requires s != [] && t != [] && Sorted(s) && Strict(t) && s[0] in t && t[0] in s
    ensures s[0] == t[0]
  {
    var j :| 0 <= j < |t| && t[j] == s[0];
    var k :| 0 <= k < |s| && s[k] == t[0];
    assert s[0].started >= s[k].started && t[0].started >= t[j].started;
  }

  /** While the clock moves forward, Create keeps exactly the newest runs: the
      new one, then the old list in order, cut at the limit. */
  lemma NewestKept(before: seq<Run>, run: Run, full: seq<Run>, max: nat)
    requires max >= 1 && Strict([run] + before)
    requires Sorted(full) && SameRuns(full, before + [run])
    ensures Kept(full, max) == [run] + before[..if |before| < max then |before| else max - 1]
  {
    assert multiset(before + [run]) == multiset([run] + before);
    OneOrder(full, [run] + before);
  }

  // Over any number of creations.

  /** A task's list before each creation and at the end, and each sorted list
      before it was pruned. */
  ghost predicate Grown(lists: seq<seq<Run>>, fulls: seq<seq<Run>>, created: seq<Run>, max: nat) {
    && |lists| == |created| + 1 && |fulls| == |created|
    && lists[0] == []
    && (forall k :: 0 <= k < |created| ==> Sorted(fulls[k]) && SameRuns(fulls[k], lists[k] + [created[k]]))
    && (forall k :: 0 <= k < |created| ==> lists[k + 1] == Kept(fulls[k], max))
  }

  ghost predicate Increasing(created: seq<Run>) {
    forall j, k :: 0 <= j < k < |created| ==> created[j].started < created[k].started
  }

  /** The last `max` of the created runs, newest first. */
  function Newest(created: seq<Run>, max: nat): seq<Run> {
    seq(if |created| < max then |created| else max,
        k requires 0 <= k < (if |created| < max then |created| else max) => created[|created| - 1 - k])
  }

  /** While the clock moves forward, a task's list is always the newest
      `maxRunsPerTask` of all runs created for it so far, newest first. */
  lemma {:induction false} AlwaysNewest(
    lists: seq<seq<Run>>, fulls: seq<seq<Run>>, created: seq<Run>, max: nat, n: nat)
    requires max >= 1 && Grown(lists, fulls, created, max) && Increasing(created) && n <= |created|
    ensures lists[n] == Newest(created[..n], max)
  {
    hide Newest, Kept, Sorted, SameRuns, Increasing;
    if n == 0 {
      NoneNewest(max);
      assert created[..0] == [];
    } else {
      AlwaysNewest(lists, fulls, created, max, n - 1);
      hide Grown;
      GrownAt(lists, fulls, created, max, n - 1);
      NewestStep(created, max, n - 1, fulls[n - 1]);
    }
  }

  lemma NoneNewest(max: nat)
    ensures Newest([], max) == []
  {
  }

  lemma GrownAt(lists: seq<seq<Run>>, fulls: seq<seq<Run>>, created: seq<Run>, max: nat, k: nat)
    requires Grown(lists, fulls, created, max) && k < |created|
    ensures |lists| == |created| + 1 && |fulls| == |created|
    ensures Sorted(fulls[k]) && SameRuns(fulls[k], lists[k] + [created[k]]) && lists[k + 1] == Kept(fulls[k], max)
  {
  }

  lemma NewestStep(created: seq<Run>, max: nat, n: nat, full: seq<Run>)
    requires max >= 1 && Increasing(created) && n < |created|
    requires Sorted(full) && SameRuns(full, Newest(created[..n], max) + [created[n]])
    ensures Kept(full, max) == Newest(created[..n + 1], max)
  {
    NewestKept(Newest(created[..n], max), created[n], full, max);
    hide Kept, SameRuns, Sorted;
  }

  ghost function Members(s: seq<Run>): set<Run> { set r | r in s }

  lemma {:induction false} MembersCount(s: seq<Run>)
    ensures |Members(s)| <= |s|
    ensures Distinct(s) ==> |Members(s)| == |s|
  {
    if s != [] {
      var front, last := s[..|s| - 1], s[|s| - 1];
      MembersCount(front);
      assert Members(s) == Members(front) + {last};
    }
  }

  lemma MembersFit(s: seq<Run>, t: seq<Run>)
    requires Distinct(s) && forall k :: 0 <= k < |s| ==> s[k] in t
    ensures |s| <= |t|
  {
    MembersCount(s);
    MembersCount(t);
    assert Members(s) <= Members(t);
    Subset(Members(s), Members(t));
  }

  lemma Subset(a: set<Run>, b: set<Run>)
    requires a <= b
    ensures |a| <= |b|
  {
    assert b == a + (b - a);
  }

  /** The list had room, or its last run that fits is older than the new one. */
  predicate Fits(before: seq<Run>, started: int, max: nat)
    requires max >= 1
  {
    |before| < max || before[max - 1].started < started
  }

  predicate Stale(before: seq<Run>, started: int, max: nat)
    requires max >= 1
  {
    |before| >= max && before[max - 1].started > started
  }

  lemma NewRunSurvives(before: seq<Run>, run: Run, full: seq<Run>, max: nat)
    requires max >= 1 && Sorted(before) && Distinct(before + [run])
    requires Sorted(full) && SameRuns(full, before + [run])
    ensures Fits(before, run.started, max) ==> run in Kept(full, max)
    ensures Stale(before, run.started, max) ==> run !in Kept(full, max)
  {
    PermDistinct(full, before + [run]);
    forall r: Run ensures r in full <==> r in before || r == run {
      SameMembers(full, before + [run], r);
    }
    assert |full| == |before| + 1 by {
      assert |multiset(full)| == |full| && |multiset(before + [run])| == |before| + 1;
    }
    assert run in full;
    var k :| 0 <= k < |full| && full[k] == run;
    assert forall j :: 0 <= j < |before| ==> (before + [run])[j] == before[j];
    KeptAt(full, max, k);
    if Stale(before, run.started, max) {
      NewerStayAhead(before, full, max, k);
    } else if |before| >= max && Fits(before, run.started, max) {
      OlderFallBehind(before, run, full, max, k);
    }
  }

  /** Where the new run can stand: behind the runs with its own start time, or
      ahead of them. */
  lemma Place(before: seq<Run>, started: int, behind: bool) returns (p: nat)
    requires Sorted(before)
    ensures p <= |before|
    ensures forall k :: 0 <= k < p ==> before[k].started >= started && (!behind ==> before[k].started != started)
    ensures forall k :: p <= k < |before| ==> before[k].started <= started && (behind ==> before[k].started != started)
  {
    p := 0;
    while p < |before| && (before[p].started > started || (behind && before[p].started == started))
      invariant p <= |before|
      invariant forall k :: 0 <= k < p ==> before[k].started >= started && (!behind ==> before[k].started != started)
    {
      p := p + 1;
    }
  }

  lemma {:induction false} Placed(before: seq<Run>, run: Run, max: nat, p: nat) returns (full: seq<Run>)
    requires Sorted(before) && Distinct(before + [run]) && p <= |before|
    requires p > 0 ==> before[p - 1].started >= run.started
    requires p < |before| ==> before[p].started <= run.started
    ensures Sorted(full) && SameRuns(full, before + [run])
    ensures run in Kept(full, max) <==> p < max
  {
    full := before[..p] + [run] + before[p..];
    InsertedSorted(before, p, run);
    assert before == before[..p] + before[p..];
    assert SameRuns(full, before + [run]);
    PermDistinct(full, before + [run]);
    assert full[p] == run;
    KeptAt(full, max, p);
  }

  /** Whatever the clock did and however the sort orders equal times: the new run
      always survives its own pruning if and only if the list had room or its
      last run that fits is older, and never does if and only if that run is
      newer.  With equal times it is up to the sort. */
  lemma NewRunSurvivesIff(before: seq<Run>, run: Run, max: nat)
    requires max >= 1 && Sorted(before) && Distinct(before + [run])
    ensures (forall full: seq<Run> | Sorted(full) && SameRuns(full, before + [run]) :: run in Kept(full, max)) <==>
            Fits(before, run.started, max)
    ensures (forall full: seq<Run> | Sorted(full) && SameRuns(full, before + [run]) :: run !in Kept(full, max)) <==>
            Stale(before, run.started, max)
  {
    hide SameRuns, Sorted, Distinct;
    forall full: seq<Run> | Sorted(full) && SameRuns(full, before + [run])
      ensures Fits(before, run.started, max) ==> run in Kept(full, max)
      ensures Stale(before, run.started, max) ==> run !in Kept(full, max)
    {
      NewRunSurvives(before, run, full, max);
    }
    hide Kept;
    var p := Place(before, run.started, true);
    var last := Placed(before, run, max, p);
    var q := Place(before, run.started, false);
    var first := Placed(before, run, max, q);
  }

  lemma OwnFate(runs: map<RunId, Run>, byTask: Index, run: Run, full: seq<Run>, max: nat)
    requires Agree(runs, byTask) && run.id !in runs && max >= 1
    requires Sorted(full) && SameRuns(full, List(byTask, run.task) + [run])
    ensures Fits(List(byTask, run.task), run.started, max) ==> !Pruned(full, max, run.id)
    ensures Stale(List(byTask, run.task), run.started, max) ==> Pruned(full, max, run.id)
  {
    var before := List(byTask, run.task);
    ListDistinct(runs, byTask, run);
    PermDistinct(full, before + [run]);
    NewRunSurvives(before, run, full, max);
    SameMembers(full, before + [run], run);
    KeptMembers(full, max, run);
    hide *;
    assert run in before + [run];
  }

  lemma ListDistinct(runs: map<RunId, Run>, byTask: Index, run: Run)
    requires Agree(runs, byTask) && run.id !in runs
    ensures Sorted(List(byTask, run.task)) && Distinct(List(byTask, run.task) + [run])
  {
    hide Sorted;
    var before := List(byTask, run.task);
    if run.task in byTask {
      assert ListOk(runs, before, run.task);
    } else {
      EmptySorted(before);
    }
    forall k | 0 <= k < |before| ensures before[k].id != run.id {
      assert Listed(runs, before[k], run.task);
    }
    AppendDistinct(before, run);
  }

  lemma KeptAt(full: seq<Run>, max: nat, k: nat)
    requires Distinct(full) && k < |full|
    ensures full[k] in Kept(full, max) <==> k < max
  {
    if k < max && |full| > max { assert full[..max][k] == full[k]; }
    if |full| > max && k >= max {
      forall j | 0 <= j < max ensures full[..max][j] != full[k] {
        assert full[j].id != full[k].id;
      }
    }
  }

  lemma NewerStayAhead(before: seq<Run>, full: seq<Run>, max: nat, k: nat)
    requires max >= 1 && |before| >= max && k < |full| && Sorted(before) && Distinct(before) && Sorted(full)
    requires before[max - 1].started > full[k].started && forall j :: 0 <= j < |before| ==> before[j] in full
    ensures k >= max
  {
    forall j | 0 <= j < max ensures before[..max][j] in full[..k] {
      var m :| 0 <= m < |full| && full[m] == before[j];
      assert before[j].started >= before[max - 1].started;
      assert full[..k][m] == before[j];
    }
    MembersFit(before[..max], full[..k]);
  }

  lemma OlderFallBehind(before: seq<Run>, run: Run, full: seq<Run>, max: nat, k: nat)
    requires max >= 1 && |before| >= max && k < |full| && full[k] == run
    requires Sorted(before) && Sorted(full) && Distinct(full)
    requires before[max - 1].started < run.started
    requires forall j :: 0 <= j < |full| ==> full[j] in before || full[j] == run
    ensures k < max
  {
    forall j | 0 <= j < k ensures full[..k][j] in before[..max - 1] {
      assert full[j].id != full[k].id && full[j].started >= run.started;
      var m :| 0 <= m < |before| && before[m] == full[j];
      assert m < max - 1;
      assert before[..max - 1][m] == full[j];
    }
    MembersFit(full[..k], before[..max - 1]);
  }

  // ------------------------------------------------------------- the store

  class RunStore {
    var runs: map<RunId, Run>
    var byTask: Index
    const maxRunsPerTask: nat

    /** NewRunStore: a limit that is not positive means 10. */
    constructor (limit: int)
      ensures Valid() && runs == map[] && byTask == map[]
      ensures maxRunsPerTask == if limit <= 0 then 10 else limit
    {
      maxRunsPerTask := if limit <= 0 then 10 else limit;
      runs, byTask := map[], map[];
    }

    ghost predicate Valid()
      reads this
    {
      maxRunsPerTask >= 1 && Agree(runs, byTask)
    }

    // ------------------------------------------------- creating and pruning

    /** Creates a pending run, sorts its task's list and prunes it to the
        newest: `full` is the list before pruning. */
    method Create(task: TaskId, id: RunId, now: int) returns (run: Run, ghost full: seq<Run>)
      requires Valid() && id !in runs
      modifies this
      ensures Valid()
      ensures fresh(run) && run.Rec() == Record(id, task, Pending, now, None, "", "")
      ensures Sorted(full) && SameRuns(full, old(List(byTask, task)) + [run])
      ensures byTask == old(byTask)[task := Kept(full, maxRunsPerTask)]
      ensures forall i :: i in runs <==> (i in old(runs) || i == id) && !Pruned(full, maxRunsPerTask, i)
      ensures forall i :: i in runs ==> runs[i] == if i == id then run else old(runs)[i]
      ensures forall i :: i in old(runs) && i !in runs ==> old(runs)[i].task == task
      ensures old(Fits(List(byTask, task), now, maxRunsPerTask)) ==> id in runs
      ensures old(Stale(List(byTask, task), now, maxRunsPerTask)) ==> id !in runs
    {
      hide Agree, Sorted, SameRuns, Kept, Pruned, Fits, Stale;
      run := new Run(Record(id, task, Pending, now, None, "", ""));
      runs := runs[id := run];
      var sorted := SortRuns(List(byTask, task) + [run]);
      full := sorted;
      CreatedAgree(old(runs), old(byTask), full, run);
      byTask := byTask[task := sorted];
      forall i | i in runs && Pruned(full, maxRunsPerTask, i) ensures runs[i].task == task {
        PrunedIsListed(runs, byTask, task, maxRunsPerTask, i);
      }
      OwnFate(old(runs), old(byTask), run, full, maxRunsPerTask);
      PruneRuns(task);
    }

    method PruneRuns(task: TaskId)
      requires Valid() && task in byTask
      modifies this
      ensures Valid()
      ensures byTask == old(byTask)[task := Kept(old(byTask)[task], maxRunsPerTask)]
      ensures forall i :: i in runs <==> i in old(runs) && !Pruned(old(byTask)[task], maxRunsPerTask, i)
      ensures forall i :: i in runs ==> runs[i] == old(runs)[i]
    {
      hide Agree;
      var list := byTask[task];
      if |list| <= maxRunsPerTask { return; }
      var keep, toRemove := list[..maxRunsPerTask], list[maxRunsPerTask..];
      byTask := byTask[task := keep];
      for k := 0 to |toRemove|
        invariant byTask == old(byTask)[task := keep]
        invariant forall i :: i in runs <==> i in old(runs) && !Pruned(toRemove[..k], 0, i)
        invariant forall i :: i in runs ==> runs[i] == old(runs)[i]
      {
        forall i ensures Pruned(toRemove[..k + 1], 0, i) <==> Pruned(toRemove[..k], 0, i) || i == toRemove[k].id {
          PrunedSnoc(toRemove, k, i);
        }
        runs := runs - {toRemove[k].id};
      }
      forall i ensures Pruned(list, maxRunsPerTask, i) <==> Pruned(toRemove[..|toRemove|], 0, i) {
        PrunedTail(list, maxRunsPerTask, i);
      }
      PrunedAgree(old(runs), old(byTask), task, maxRunsPerTask, runs);
    }

    /** Load: a run saved as pending or running comes back failed and every other
        run as it was saved, so that no stored run is active; both maps are
        rebuilt, every list is sorted. */
    method Load(records: seq<Record>, now: int) returns (ghost objs: seq<Run>)
      requires maxRunsPerTask >= 1
      modifies this
      ensures Valid() <==> DistinctIds(records)
      ensures |objs| == |records| && OneEach(objs)
      ensures forall k :: 0 <= k < |objs| ==> fresh(objs[k]) && objs[k].Rec() == Settled(records[k], now)
      ensures forall k :: 0 <= k < |objs| ==> Recovered(records[k], objs[k].Rec(), now)
      ensures forall i :: i in runs ==> runs[i].status != Pending && runs[i].status != Running
      ensures runs == ById(objs)
      ensures forall t :: t in byTask <==> OfTask(objs, t) != []
      ensures forall t :: t in byTask ==> Sorted(byTask[t]) && SameRuns(byTask[t], OfTask(objs, t))
    {
      hide Sorted, SameRuns, ById, OfTask, OneEach, Distinct, DistinctIds, Agree, Filed, Settled, Recovered;
      objs := Refill(records, now);
      SortAll(objs);
      NoneActive(objs, records, now);
      LoadAgreesIff(objs, byTask);
      SameIds(objs, records, now);
    }

    /** The loop over the records: both maps rebuilt, no list sorted yet. */
    method Refill(records: seq<Record>, now: int) returns (ghost objs: seq<Run>)
      modifies `runs, `byTask
      ensures |objs| == |records| && OneEach(objs)
      ensures forall k :: 0 <= k < |objs| ==> fresh(objs[k]) && objs[k].Rec() == Settled(records[k], now)
      ensures runs == ById(objs) && Filed(byTask, objs)
    {
      hide ById, OfTask, Filed, Settled;
      runs, byTask, objs := map[], map[], [];
      EmptyLoad();
      for k := 0 to |records|
        invariant |objs| == k && OneEach(objs)
        invariant forall m :: 0 <= m < k ==> fresh(objs[m]) && objs[m].Rec() == Settled(records[m], now)
        invariant runs == ById(objs) && Filed(byTask, objs)
      {
        var r := new Run(Settled(records[k], now));
        LoadStep(objs, r);
        FiledStep(byTask, objs, r);
        runs := runs[r.id := r];
        byTask := byTask[r.task := List(byTask, r.task) + [r]];
        objs := objs + [r];
      }
    }

    /** Every list sorted in place. */
    method SortAll(ghost objs: seq<Run>)
      requires Filed(byTask, objs)
      modifies `byTask
      ensures forall t :: t in byTask <==> OfTask(objs, t) != []
      ensures forall t :: t in byTask ==> Sorted(byTask[t]) && SameRuns(byTask[t], OfTask(objs, t))
    {
      hide Sorted, OfTask;
      var todo := byTask.Keys;
      while todo != {}
        invariant byTask.Keys == old(byTask).Keys && todo <= byTask.Keys
        invariant forall t :: t in byTask ==> SameRuns(byTask[t], old(byTask)[t]) && (t in todo || Sorted(byTask[t]))
      {
        var t :| t in todo;
        var sorted := SortRuns(byTask[t]);
        byTask, todo := byTask[t := sorted], todo - {t};
      }
    }

    /** Drops a task: exactly that task's runs leave the map. */
    method DeleteByTask(task: TaskId)
      requires Valid()
      modifies this
      ensures Valid()
      ensures byTask == old(byTask) - {task}
      ensures forall i :: i in runs <==> i in old(runs) && old(runs)[i].task != task
      ensures forall i :: i in runs ==> runs[i] == old(runs)[i]
    {
      hide Agree;
      var list := List(byTask, task);
      for k := 0 to |list|
        invariant byTask == old(byTask)
        invariant forall i :: i in runs <==> i in old(runs) && !Pruned(list[..k], 0, i)
        invariant forall i :: i in runs ==> runs[i] == old(runs)[i]
      {
        forall i ensures Pruned(list[..k + 1], 0, i) <==> Pruned(list[..k], 0, i) || i == list[k].id {
          PrunedSnoc(list, k, i);
        }
        runs := runs - {list[k].id};
      }
      byTask := byTask - {task};
      forall i | i in old(runs) ensures Pruned(list[..|list|], 0, i) <==> old(runs)[i].task == task {
        ListIsWhole(old(runs), old(byTask), task, i);
      }
      DeletedAgree(old(runs), old(byTask), task, runs);
    }

    // ------------------------------------------------- one run at a time

    /** Get returns a copy. */
    method Get(id: RunId) returns (copy: Option<Record>)
      ensures copy == if id in runs then Some(runs[id].Rec()) else None
    {
      copy := if id in runs then Some(runs[id].Rec()) else None;
    }

    /** The task's active run: found exactly when the store holds one. */
    method GetRunning(task: TaskId) returns (copy: Option<Record>)
      requires Valid()
      ensures copy == None <==> forall i :: i in runs && runs[i].task == task ==> !Active(runs[i].status)
      ensures copy.Some? ==>
                && copy.value.id in runs && copy.value == runs[copy.value.id].Rec()
                && copy.value.task == task && Active(copy.value.status)
    {
      hide Sorted, Distinct;
      var list := List(byTask, task);
      for k := 0 to |list|
        invariant forall m :: 0 <= m < k ==> !Active(list[m].status)
      {
        if Active(list[k].status) {
          assert Listed(runs, list[k], task);
          return Some(list[k].Rec());
        }
      }
      forall i | i in runs && runs[i].task == task ensures !Active(runs[i].status) {
        assert Indexed(byTask, runs[i], i);
      }
      return None;
    }

    /** What a call that touches at most one run leaves behind. */
    twostate predicate Only(id: RunId, f: Record -> Record)
      reads this, runs.Values
    {
      && runs == old(runs) && byTask == old(byTask)
      && forall i :: i in runs ==> runs[i].Rec() == if i == id then f(old(runs[i].Rec())) else old(runs[i].Rec())
    }

    method MarkRunning(id: RunId) returns (ok: bool)
      requires Valid()
      modifies if id in runs then {runs[id]} else {}
      ensures Valid() && Only(id, Began)
      ensures ok <==> id in runs && old(runs[id].status) == Pending
      ensures id in runs ==> runs[id].status == if ok then Running else old(runs[id].status)
    {
      OneIdPerRun(runs, byTask);
      ok := id in runs && runs[id].status == Pending;
      if ok { runs[id].status := Running; }
    }

    method Complete(id: RunId, output: string, now: int)
      requires Valid()
      modifies if id in runs then {runs[id]} else {}
      ensures Valid() && Only(id, r => Succeeded(r, output, now))
      ensures id in runs && old(runs[id].status) == Cancelled ==> unchanged(runs[id])
      ensures id in runs && old(runs[id].status) != Cancelled ==>
                && runs[id].status == Completed && runs[id].output == output && runs[id].completed == Some(now)
                && runs[id].error == old(runs[id].error)
    {
      OneIdPerRun(runs, byTask);
      if id in runs && runs[id].status != Cancelled {
        var run := runs[id];
        run.status, run.output, run.completed := Completed, output, Some(now);
      }
    }

    method Fail(id: RunId, error: string, now: int)
      requires Valid()
      modifies if id in runs then {runs[id]} else {}
      ensures Valid() && Only(id, r => Broke(r, error, now))
      ensures id in runs && old(runs[id].status) == Cancelled ==> unchanged(runs[id])
      ensures id in runs && old(runs[id].status) != Cancelled ==>
                && runs[id].status == Failed && runs[id].error == error && runs[id].completed == Some(now)
                && runs[id].output == old(runs[id].output)
    {
      OneIdPerRun(runs, byTask);
      if id in runs && runs[id].status != Cancelled {
        var run := runs[id];
        run.status, run.error, run.completed := Failed, error, Some(now);
      }
    }

    /** Cancel answers true exactly when it turned an active run. */
    method Cancel(id: RunId, now: int) returns (ok: bool)
      requires Valid()
      modifies if id in runs then {runs[id]} else {}
      ensures Valid() && Only(id, r => Stopped(r, now))
      ensures ok <==> id in runs && (old(runs[id].status) == Pending || old(runs[id].status) == Running)
      ensures ok ==>
                && runs[id].status == Cancelled && runs[id].completed == Some(now)
                && runs[id].output == old(runs[id].output) && runs[id].error == old(runs[id].error)
      ensures !ok && id in runs ==> unchanged(runs[id])
    {
      OneIdPerRun(runs, byTask);
      ok := false;
      if id in runs {
        var run := runs[id];
        if run.status == Pending || run.status == Running {
          run.status, run.completed := Cancelled, Some(now);
          ok := true;
        }
      }
    }

    method SetOutput(id: RunId, output: string)
      requires Valid()
      modifies if id in runs then {runs[id]} else {}
      ensures Valid() && Only(id, (r: Record) => r.(output := output))
    {
      OneIdPerRun(runs, byTask);
      if id in runs { runs[id].output := output; }
    }
  }

  /** Different ids are different objects, so updating one run leaves the others. */
  lemma OneIdPerRun(runs: map<RunId, Run>, byTask: Index)
    requires Agree(runs, byTask)
    ensures forall i, j :: i in runs && j in runs && runs[i] == runs[j] ==> i == j
  {
    hide ListOk;
    forall i, j | i in runs && j in runs && runs[i] == runs[j] ensures i == j {
      assert Indexed(byTask, runs[i], i) && Indexed(byTask, runs[j], j);
    }
  }

  /** A task's list holds every run of the task in the map. */
  lemma ListIsWhole(runs: map<RunId, Run>, byTask: Index, task: TaskId, i: RunId)
    requires Agree(runs, byTask) && i in runs
    ensures var list := List(byTask, task); Pruned(list[..|list|], 0, i) <==> runs[i].task == task
  {
    hide Sorted, Distinct;
    var list := List(byTask, task);
    assert list[..|list|] == list;
    assert Indexed(byTask, runs[i], i);
    if Pruned(list, 0, i) {
      var k :| 0 <= k < |list| && list[k].id == i;
      assert Listed(runs, list[k], task);
    }
    if runs[i].task == task {
      var k :| 0 <= k < |list| && list[k] == runs[i];
      assert list[k].id == i;
    }
  }

  lemma DeletedAgree(runs: map<RunId, Run>, byTask: Index, task: TaskId, runs': map<RunId, Run>)
    requires Agree(runs, byTask)
    requires forall i :: i in runs' <==> i in runs && runs[i].task != task
    requires forall i :: i in runs' ==> runs'[i] == runs[i]
    ensures Agree(runs', byTask - {task})
  {
    hide Sorted, Distinct;
    var byTask' := byTask - {task};
    forall id | id in runs' ensures Indexed(byTask', runs'[id], id) {
      assert Indexed(byTask, runs[id], id);
    }
    forall t | t in byTask' ensures ListOk(runs', byTask'[t], t) {
      assert ListOk(runs, byTask[t], t);
      forall r | r in byTask'[t] ensures Listed(runs', r, t) {
        assert Listed(runs, r, t);
      }
    }
  }

  lemma PrunedSnoc(s: seq<Run>, k: nat, i: RunId)
    requires k < |s|
    ensures Pruned(s[..k + 1], 0, i) <==> Pruned(s[..k], 0, i) || i == s[k].id
  {
    assert s[..k + 1][k] == s[k];
    assert forall m :: 0 <= m < k ==> s[..k + 1][m] == s[..k][m];
  }

  lemma PrunedTail(s: seq<Run>, max: nat, i: RunId)
    requires max <= |s|
    ensures Pruned(s, max, i) <==> Pruned(s[max..][..|s| - max], 0, i)
  {
    assert s[max..][..|s| - max] == s[max..];
    if Pruned(s, max, i) {
      var k :| max <= k < |s| && s[k].id == i;
      assert s[max..][k - max].id == i;
    }
  }

  lemma AppendDistinct(s: seq<Run>, r: Run)
    requires Distinct(s) && forall k :: 0 <= k < |s| ==> s[k].id != r.id
    ensures Distinct(s + [r])
  {
  }

  /** A list without repeated ids holds each run once. */
  lemma {:induction false} OnceEach(s: seq<Run>, r: Run)
    requires Distinct(s)
    ensures multiset(s)[r] <= 1
  {
    if s != [] {
      OnceEach(s[1..], r);
      assert s == [s[0]] + s[1..];
      if r == s[0] && r in s[1..] {
        assert false;
      }
      assert r in s[1..] <==> multiset(s[1..])[r] > 0;
    }
  }

  lemma TwiceHere(s: seq<Run>, j: nat, k: nat)
    requires j < k < |s| && s[j] == s[k]
    ensures multiset(s)[s[j]] >= 2
  {
    var a, b := s[..k], s[k..];
    assert s == a + b;
    assert a[j] in multiset(a) && b[0] in multiset(b);
  }

  lemma PermDistinct(s: seq<Run>, t: seq<Run>)
    requires SameRuns(s, t) && Distinct(t)
    ensures Distinct(s)
  {
    forall j, k | 0 <= j < k < |s| ensures s[j].id != s[k].id {
      SameMembers(s, t, s[j]);
      SameMembers(s, t, s[k]);
      if s[j].id == s[k].id {
        OneRunPerId(t, s[j], s[k]);
        TwiceHere(s, j, k);
        OnceEach(t, s[j]);
      }
    }
  }

  lemma OneRunPerId(t: seq<Run>, a: Run, b: Run)
    requires Distinct(t) && a in t && b in t && a.id == b.id
    ensures a == b
  {
    var j :| 0 <= j < |t| && t[j] == a;
    var k :| 0 <= k < |t| && t[k] == b;
  }

  // ------------------------------------- what the store alone does not protect

  /** A failure reported after a completion replaces it: in the store only a
      cancellation is final. */
  method LateFailOverwrites(store: RunStore, id: RunId, output: string, error: string, now: int)
    requires store.Valid()
    modifies if id in store.runs then {store.runs[id]} else {}
    ensures store.Valid() && store.runs == old(store.runs)
    ensures id in store.runs ==>
              store.runs[id].status == if old(store.runs[id].status) == Cancelled then Cancelled else Failed
  {
    hide Agree;
    store.Complete(id, output, now);
    store.Fail(id, error, now);
  }
}
