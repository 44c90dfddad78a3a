/** Where gap markers lie.  Over every run whose takes are timely, a marker lies
    between two delivered chunks exactly when a chunk between them was dropped. */
module Markers {
  import opened Bytes
  import opened Pipeline
  import opened PipelineInv
  import C = Client

  // ------------------------------------------- positions of data in a stream

  /** Where the `k`-th data chunk of a stream stands. */
  function DataIndex(s: seq<Chunk>, k: nat): (i: nat)
    requires k < |C.Datas(s)|
    ensures i < |s|
  {
    var init := s[..|s| - 1];
    if k < |C.Datas(init)| then DataIndex(init, k) else |s| - 1
  }

  /** Where the stretch between the data chunks `k - 1` and `k` begins. */
  function StretchStart(s: seq<Chunk>, k: nat): nat
    requires k < |C.Datas(s)|
  {
    if k == 0 then 0 else DataIndex(s, k - 1) + 1
  }

  lemma {:induction false} GapsCount(s: seq<Chunk>)
    ensures |C.Gaps(s)| == |C.Datas(s)|
  {
    if s != [] { GapsCount(s[..|s| - 1]); }
  }

  lemma {:induction false} DataIndexFacts(s: seq<Chunk>, k: nat)
    requires k < |C.Datas(s)|
    ensures var i := DataIndex(s, k);
            && s[i] != C.GAP && s[i] == C.Datas(s)[k]
            && k < |C.Gaps(s)| && C.Gaps(s)[k] == C.Ends(s[..i])
  {
    var init := s[..|s| - 1];
    GapsCount(s);
    GapsCount(init);
    if k < |C.Datas(init)| {
      DataIndexFacts(init, k);
      assert init[..DataIndex(init, k)] == s[..DataIndex(init, k)];
    }
  }

  /** After its last data chunk a stream holds markers only. */
  lemma {:induction false} AfterLastData(s: seq<Chunk>)
    ensures C.Datas(s) != [] ==> forall m :: DataIndex(s, |C.Datas(s)| - 1) < m < |s| ==> s[m] == C.GAP
    ensures C.Datas(s) == [] ==> forall m :: 0 <= m < |s| ==> s[m] == C.GAP
  {
    if s != [] { AfterLastData(s[..|s| - 1]); }
  }

  /** Data chunks stand in order, with nothing but markers between neighbours. */
  lemma {:induction false} StretchFacts(s: seq<Chunk>, k: nat)
    requires k < |C.Datas(s)|
    ensures StretchStart(s, k) <= DataIndex(s, k)
    ensures forall m :: StretchStart(s, k) <= m < DataIndex(s, k) ==> s[m] == C.GAP
  {
    var init := s[..|s| - 1];
    if k < |C.Datas(init)| {
      StretchFacts(init, k);
    } else {
      AfterLastData(init);
    }
  }

  /** At least one item stands in the stretch before the `k`-th data chunk. */
  predicate Gapped(s: seq<Chunk>, k: nat)
    requires k < |C.Datas(s)|
  {
    StretchStart(s, k) < DataIndex(s, k)
  }

  lemma GapsAreGapped(s: seq<Chunk>, k: nat)
    requires k < |C.Datas(s)|
    ensures k < |C.Gaps(s)| && (C.Gaps(s)[k] <==> Gapped(s, k))
  {
    DataIndexFacts(s, k);
    StretchFacts(s, k);
    if k > 0 { DataIndexFacts(s, k - 1); }
    var i := DataIndex(s, k);
    if i > 0 { assert s[..i][|s[..i]| - 1] == s[i - 1]; }
  }

  // ------------------------------------------------------ over whole runs

  predicate Timely(w: World, a: Action)
    requires Enabled(w, a)
  {
    a.Consumer? ==> C.Timely(w.clients[a.id], a.cmv)
  }

  /** A run in which every successful TakeOutputGap is timely. */
  ghost predicate TimelyRun(max: nat, acts: seq<Action>) {
    && Reach(max, acts).Some?
    && (acts != [] ==>
         && TimelyRun(max, acts[..|acts| - 1])
         && Timely(Reach(max, acts[..|acts| - 1]).value, acts[|acts| - 1]))
  }

  function PhaseOf(w: World, id: Id): C.Phase {
    if w.reader.Serving? && w.reader.cur.Some? && w.reader.cur.value.0 == id then w.reader.cur.value.1 else C.Off
  }

  ghost predicate AllExact(w: World) {
    forall id {:trigger PhaseOf(w, id)} :: id in w.clients ==> C.ClientExact(w.clients[id], PhaseOf(w, id))
  }

  lemma ServeExact(w: World, id: Id, ph: C.Phase, mv: C.ReaderMove)
    requires BufferOk(w) && AllExact(w) && ServingAt(w, id, ph) && C.CanServe(w.clients[id], ph, mv)
    ensures AllExact(ServeClient(w, id, C.Serve(w.clients[id], ph, mv, w.reader.chunk)))
  {
    hide C.ClientExact, C.Serve, C.CanServe;
    assert PhaseOf(w, id) == ph;
    C.ServeKeepsExact(w.clients[id], ph, mv, w.reader.chunk);
    forall other | other in w.clients && other != id ensures C.ClientExact(w.clients[other], C.Off) {
      assert PhaseOf(w, other) == C.Off;
    }
  }

  lemma AttachExact(w: World, id: Id, cap: nat)
    requires AllExact(w) && BufferFree(w) && cap >= 1
    ensures AllExact(AttachClient(w, id, cap))
  {
    hide ReplayOf;
    C.AttachedSound(cap, ReplayOf(w));
    hide C.ClientExact, C.Attached;
    assert C.ClientExact(C.Attached(cap, ReplayOf(w)), C.Off) by { AttachedExact(cap, ReplayOf(w)); }
    forall other | other in w.clients ensures C.ClientExact(w.clients[other], C.Off) {
      assert PhaseOf(w, other) == C.Off;
    }
  }

  lemma AttachedExact(cap: nat, replay: seq<byte>)
    requires cap >= 1
    ensures C.ClientExact(C.Attached(cap, replay), C.Off)
  {
    C.AttachedSound(cap, replay);
  }

  /** Changing one client to one that is exact in the same phase. */
  lemma OneClientExact(w: World, id: Id, c: C.State)
    requires AllExact(w) && C.ClientExact(c, PhaseOf(w, id))
    ensures AllExact(SetClient(w, id, c))
  {
    hide C.ClientExact;
    var w' := SetClient(w, id, c);
    forall other | other in w'.clients ensures C.ClientExact(w'.clients[other], PhaseOf(w', other)) {
      assert PhaseOf(w', other) == PhaseOf(w, other);
    }
  }

  lemma RemoveExact(c: C.State, ph: C.Phase)
    requires C.ClientExact(c, ph)
    ensures C.ClientExact(c.(removed := true), ph)
  {
    assert C.Stream(c.(removed := true)) == C.Stream(c);
  }

  /** A step of the reader between clients. */
  lemma PhasesExact(w: World, w': World)
    requires AllExact(w) && w'.clients == w.clients
    requires forall id {:trigger PhaseOf(w', id)} ::
               (PhaseOf(w', id) == PhaseOf(w, id) || (PhaseOf(w, id) == C.Off && PhaseOf(w', id) == C.Load))
    ensures AllExact(w')
  {
    forall id | id in w'.clients ensures C.ClientExact(w'.clients[id], PhaseOf(w', id)) {
      assert C.ClientExact(w.clients[id], PhaseOf(w, id));
    }
  }

  lemma StepExact(w: World, a: Action)
    requires Inv(w) && AllExact(w) && Enabled(w, a) && Timely(w, a)
    ensures AllExact(Do(w, a))
  {
    hide AllExact, C.ClientExact, BufferOk, TrackerOk, ClientOk, C.Serve, C.CanServe, C.Consume, C.CanConsume;
    match a
    case Reader(mv) => ServeExact(w, w.reader.cur.value.0, w.reader.cur.value.1, mv);
    case Attach(id, cap) => AttachExact(w, id, cap);
    case Remove(id) =>
      ExactOf(w, id);
      RemoveExact(w.clients[id], PhaseOf(w, id));
      OneClientExact(w, id, w.clients[id].(removed := true));
    case Consumer(id, mv) =>
      ExactOf(w, id);
      C.ConsumeKeepsExact(w.clients[id], PhaseOf(w, id), mv, w.done);
      OneClientExact(w, id, C.Consume(w.clients[id], mv, w.done));
    case _ => PhasesExact(w, Do(w, a));
  }

  lemma ExactOf(w: World, id: Id)
    requires AllExact(w) && id in w.clients
    ensures C.ClientExact(w.clients[id], PhaseOf(w, id))
  {
  }

  lemma {:induction false} RunExact(max: nat, acts: seq<Action>)
    requires max >= 1 && TimelyRun(max, acts)
    ensures AllExact(Reach(max, acts).value)
  {
    if acts != [] {
      var init := acts[..|acts| - 1];
      RunExact(max, init);
      RunInv(max, init);
      StepExact(Reach(max, init).value, acts[|acts| - 1]);
    }
  }

  lemma DeliveredIsPrefix(c: C.State, ph: C.Phase, k: nat)
    requires C.ClientExact(c, ph) && k < |C.Datas(c.delivered)|
    ensures k < |C.Datas(C.Marked(c.log))|
    ensures C.Datas(c.delivered)[k] == C.Datas(C.Marked(c.log))[k]
    ensures Gapped(c.delivered, k) <==> Gapped(C.Marked(c.log), k)
  {
    var rest := C.Hand(c.pc) + c.q;
    var l := C.Marked(c.log);
    assert C.Stream(c) == c.delivered + rest;
    C.DatasConcat(c.delivered, rest);
    C.GapsSplit(c.delivered, rest);
    GapsAreGapped(c.delivered, k);
    GapsAreGapped(l, k);
  }

  /** The theorem.  For the `k`-th chunk delivered to a client: it is the `k`-th
      chunk enqueued, at position `y` of the offer history; between it and the
      chunk delivered before it (from `a` on) there are only markers, between
      the corresponding offers (from `x` on) only drops - and there is at least
      one marker if and only if there is at least one drop. */
  lemma {:induction false} MarkersAreExact(max: nat, acts: seq<Action>, id: Id, k: nat)
    requires max >= 1 && TimelyRun(max, acts) && id in Reach(max, acts).value.clients
    requires k < |C.Datas(Reach(max, acts).value.clients[id].delivered)|
    ensures var c := Reach(max, acts).value.clients[id];
            var d, l := c.delivered, C.Marked(c.log);
            && k < |C.Datas(l)|
            && var a, b, x, y := StretchStart(d, k), DataIndex(d, k), StretchStart(l, k), DataIndex(l, k);
            && a <= b < |d| && x <= y < |c.log|
            && c.log[y] == C.Enqueued(d[b])
            && (forall m :: a <= m < b ==> d[m] == C.GAP)
            && (forall n :: x <= n < y ==> c.log[n].Dropped?)
            && (a < b <==> x < y)
  {
    RunExact(max, acts);
    RunInv(max, acts);
    var w := Reach(max, acts).value;
    var c := w.clients[id];
    ExactOf(w, id);
    assert ClientOk(w, id);
    ClientMarkers(c, PhaseOf(w, id), k);
  }

  lemma {:induction false} ClientMarkers(c: C.State, ph: C.Phase, k: nat)
    requires C.Sound(c) && C.ClientExact(c, ph) && k < |C.Datas(c.delivered)|
    ensures var d, l := c.delivered, C.Marked(c.log);
            && k < |C.Datas(l)|
            && var a, b, x, y := StretchStart(d, k), DataIndex(d, k), StretchStart(l, k), DataIndex(l, k);
            && a <= b < |d| && x <= y < |c.log|
            && c.log[y] == C.Enqueued(d[b])
            && (forall m :: a <= m < b ==> d[m] == C.GAP)
            && (forall n :: x <= n < y ==> c.log[n].Dropped?)
            && (a < b <==> x < y)
  {
    var d, l := c.delivered, C.Marked(c.log);
    DeliveredIsPrefix(c, ph, k);
    hide C.Datas, C.Gaps, C.ClientExact;
    DataIndexFacts(d, k);
    DataIndexFacts(l, k);
    StretchFacts(d, k);
    StretchFacts(l, k);
    forall n | StretchStart(l, k) <= n < DataIndex(l, k) ensures c.log[n].Dropped? {
      assert l[n] == C.GAP;
    }
  }

  /** A drop at the tail of a burst is surfaced or still owed: with the client not
      being served and its queue drained, the last offer was dropped if and only if
      a marker was delivered last or the flag is up. */
  lemma {:induction false} TailDropIsOwed(max: nat, acts: seq<Action>, id: Id)
    requires max >= 1 && TimelyRun(max, acts) && id in Reach(max, acts).value.clients
    requires !Reach(max, acts).value.reader.Serving?
    requires var c := Reach(max, acts).value.clients[id]; c.pc.Waiting? && c.q == []
    ensures var c := Reach(max, acts).value.clients[id];
            C.Ends(C.Marked(c.log)) <==> C.Ends(c.delivered) || c.gap
  {
    RunExact(max, acts);
    var w := Reach(max, acts).value;
    var c := w.clients[id];
    ExactOf(w, id);
    hide C.Marked, C.Ends, AllExact, TimelyRun, Reach;
    assert C.Stream(c) == c.delivered;
  }
}
