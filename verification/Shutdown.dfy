/** What an explicit Close does to a handler that drains
    (internal/server/server.go:676-709): the reader may already be past the done
    test of broadcast, so one chunk can still arrive after the drain. */
module Shutdown {
  import opened Wrappers
  import opened Bytes
  import opened Pipeline
  import opened PipelineInv
  import opened GapRace
  import C = Client

  /** A chunk is still to be offered to this client. */
  predicate Coming(w: World, id: Id) { w.reader.Locking? || Owed(w.reader, id) }

  // --------------------------------------------------- a chunk that is missed

  /** The run `acts` leaves a session whose only client is `c`. */
  ghost predicate OnlyAt(max: nat, acts: seq<Action>, reader: Reader, done: bool, c: C.State) {
    && Reach(max, acts).Some?
    && var w := Reach(max, acts).value;
    && w.reader == reader && w.done == done && w.clients == map[0 := c]
  }

  lemma CloseBeforeLock(max: nat) returns (acts: seq<Action>)
    ensures OnlyAt(max, acts, Locking(A), true, READY)
  {
    acts := GetReady(max);
    acts := Extend(max, acts, Read(A));
    acts := Extend(max, acts, CheckDone);
    acts := Extend(max, acts, Close);
  }

  lemma DrainNothing(max: nat, before: seq<Action>) returns (acts: seq<Action>)
    requires OnlyAt(max, before, Locking(A), true, READY)
    ensures OnlyAt(max, acts, Locking(A), true, READY.(pc := C.Returned(C.Drained)))
  {
    acts := Extend(max, before, Consumer(0, C.SeeDone));
    assert OnlyAt(max, acts, Locking(A), true, READY.(pc := C.Waiting(true)));
    acts := Extend(max, acts, Consumer(0, C.FindEmpty));
  }

  lemma StartServing(max: nat, before: seq<Action>, c: C.State) returns (acts: seq<Action>)
    requires OnlyAt(max, before, Locking(A), true, c) && !c.removed
    ensures OnlyAt(max, acts, Serving(A, {}, Some((0, C.Load))), true, c)
  {
    acts := Extend(max, before, Lock);
    assert Registered(Reach(max, acts).value) == {0};
    acts := Extend(max, acts, Pick(0));
  }

  lemma QueueChunk(max: nat, before: seq<Action>, c: C.State) returns (acts: seq<Action>)
    requires OnlyAt(max, before, Serving(A, {}, Some((0, C.Load))), true, c) && !c.gap && C.Room(c)
    ensures OnlyAt(max, acts, Serving(A, {}, None), true, C.PutData(c, A))
  {
    acts := Extend(max, before, Reader(C.LoadFlag));
    assert OnlyAt(max, acts, Serving(A, {}, Some((0, C.DataTry))), true, c);
    acts := Extend(max, acts, Reader(C.TryData));
  }

  /** Close falls between the reader's done test and its lock: the handler
      drains an empty queue and returns, then the chunk is queued. */
  lemma CloseMissesChunk(max: nat) returns (acts: seq<Action>)
    ensures Reach(max, acts).Some? && 0 in Reach(max, acts).value.clients
    ensures var c := Reach(max, acts).value.clients[0];
            && c.pc == C.Returned(C.Drained) && c.delivered == [] && c.q == [A]
            && c.drops == 0 && !c.removed && c.log == [C.Enqueued(A)]
  {
    acts := CloseBeforeLock(max);
    acts := DrainNothing(max, acts);
    var c := READY.(pc := C.Returned(C.Drained));
    acts := StartServing(max, acts, c);
    acts := QueueChunk(max, acts, c);
  }

  // -------------------------------------------- nothing coming, nothing queued

  ghost predicate Settled(w: World, id: Id, q: seq<Chunk>) {
    && id in w.clients && w.done && !Coming(w, id)
    && w.clients[id].pc == C.Returned(C.Drained) && w.clients[id].q == q
  }

  lemma StaysSettled(w: World, a: Action, id: Id, q: seq<Chunk>)
    requires Settled(w, id, q) && ReaderOk(w) && Enabled(w, a)
    ensures Settled(Do(w, a), id, q)
  {
    if a.Reader? {
      var (who, ph) := w.reader.cur.value;
      ServeLogs(w.clients[who], ph, a.mv, w.reader.chunk);
      if who == id { SetFlagQuiet(w.clients[id], ph, a.mv, w.reader.chunk); }
      hide C.Serve, C.CanServe;
    } else {
      hide C.Serve, C.CanServe;
    }
  }

  lemma SetFlagQuiet(c: C.State, ph: C.Phase, mv: C.ReaderMove, chunk: Chunk)
    requires C.CanServe(c, ph, mv)
    ensures ph == C.SetFlag ==> C.Serve(c, ph, mv, chunk) == (c.(gap := true), C.Off)
  {
  }

  lemma {:induction false} StaysQueued(w: World, acts: seq<Action>, id: Id, q: seq<Chunk>)
    requires Inv(w) && Settled(w, id, q) && From(w, acts).Some?
    ensures Settled(From(w, acts).value, id, q)
    decreases |acts|
  {
    hide Inv, Do, Enabled, Settled;
    if acts != [] {
      assert ReaderOk(w) by { hide *; ReaderOf(w); }
      StaysSettled(w, acts[0], id, q);
      StepInv(w, acts[0]);
      StaysQueued(Do(w, acts[0]), acts[1..], id, q);
    }
  }

  lemma ReaderOf(w: World)
    requires Inv(w)
    ensures ReaderOk(w)
  {
  }

  // ------------------------------------------- something coming gets queued

  ghost predicate CanGet(w: World, id: Id) {
    exists acts :: From(w, acts).Some? && id in From(w, acts).value.clients && From(w, acts).value.clients[id].q != []
  }

  lemma CanGetLater(w: World, a: Action, id: Id)
    requires Enabled(w, a) && CanGet(Do(w, a), id)
    ensures CanGet(w, id)
  {
    hide Do, Enabled;
    var acts :| From(Do(w, a), acts).Some? && id in From(Do(w, a), acts).value.clients
                && From(Do(w, a), acts).value.clients[id].q != [];
    assert ([a] + acts)[1..] == acts;
    assert From(w, [a] + acts) == From(Do(w, a), acts);
  }

  /** How far a client is from being done with in the broadcast body. */
  function Ahead(ph: C.Phase): nat {
    match ph
    case Off => 0 case SetFlag => 1 case DataWait => 2 case DataTry => 3
    case Clear => 4 case MarkerWait => 5 case MarkerTry => 6 case Load => 7
  }

  /** How far the reader is from having served the client. */
  function Distance(r: Reader, id: Id): nat {
    if !r.Serving? then 20
    else match r.cur
      case None => 10
      case Some(cur) => Ahead(cur.1) + (if cur.0 == id then 0 else 10)
  }

  /** A move the reader can always make; it waits no longer than it must. */
  function Forward(c: C.State, ph: C.Phase): C.ReaderMove
    requires ph != C.Off
  {
    match ph
    case Load => C.LoadFlag
    case MarkerTry => C.TryMarker
    case MarkerWait => C.WaitMarker(C.Room(c))
    case Clear => C.ClearFlag
    case DataTry => C.TryData
    case DataWait => C.WaitData(C.Room(c))
    case SetFlag => C.RaiseFlag
  }

  lemma ForwardMoves(c: C.State, ph: C.Phase, chunk: Chunk)
    requires ph != C.Off
    ensures C.CanServe(c, ph, Forward(c, ph))
    ensures var (c', ph') := C.Serve(c, ph, Forward(c, ph), chunk);
            && Ahead(ph') < Ahead(ph) && c'.cap == c.cap && c'.removed == c.removed
            && (C.Room(c) && ph != C.SetFlag ==> c'.q != [] || (c'.q == c.q && Ahead(ph') > 1))
  {
  }

  lemma Gets(w: World, id: Id)
    requires Inv(w) && id in w.clients && !w.clients[id].removed && w.clients[id].cap >= 1
    requires Coming(w, id) || w.clients[id].q != []
    ensures CanGet(w, id)
    decreases Distance(w.reader, id)
  {
    if w.clients[id].q != [] {
      assert From(w, []) == Some(w);
    } else {
      var a := if w.reader.Locking? then Lock
               else if w.reader.cur == None then Pick(id)
               else Reader(Forward(w.clients[w.reader.cur.value.0], w.reader.cur.value.1));
      NextMove(w, id, a);
      StepInv(w, a);
      if Do(w, a).clients[id].q == [] {
        Gets(Do(w, a), id);
      } else {
        assert From(Do(w, a), []) == Some(Do(w, a));
      }
      CanGetLater(w, a, id);
    }
  }

  lemma NextMove(w: World, id: Id, a: Action)
    requires ReaderOk(w) && id in w.clients && !w.clients[id].removed && w.clients[id].cap >= 1
    requires Coming(w, id) && w.clients[id].q == []
    requires w.reader.Serving? && w.reader.cur.Some? ==>
               w.reader.cur.value.0 in w.clients && w.reader.cur.value.1 != C.Off
    requires a == if w.reader.Locking? then Lock
                  else if w.reader.cur == None then Pick(id)
                  else Reader(Forward(w.clients[w.reader.cur.value.0], w.reader.cur.value.1))
    ensures Enabled(w, a)
    ensures var v := Do(w, a);
            && id in v.clients
            && v.clients[id].removed == w.clients[id].removed && v.clients[id].cap == w.clients[id].cap
            && (v.clients[id].q != [] || (Coming(v, id) && Distance(v.reader, id) < Distance(w.reader, id)))
  {
    if w.reader.Serving? && w.reader.cur.Some? {
      var (who, ph) := w.reader.cur.value;
      ForwardMoves(w.clients[who], ph, w.reader.chunk);
      hide C.Serve, C.CanServe, Forward;
    }
  }

  /** In every continuation the client's queue stays empty. */
  ghost predicate NothingArrives(w: World, id: Id) {
    forall acts | From(w, acts).Some? :: EmptyAt(From(w, acts).value, id)
  }

  predicate EmptyAt(w: World, id: Id) { id in w.clients && w.clients[id].q == [] }

  lemma SomethingArrives(w: World, id: Id)
    requires CanGet(w, id)
    ensures !NothingArrives(w, id)
  {
    hide From;
    var acts :| From(w, acts).Some? && id in From(w, acts).value.clients && From(w, acts).value.clients[id].q != [];
    assert !EmptyAt(From(w, acts).value, id);
  }

  lemma SettledStaysEmpty(w: World, id: Id)
    requires Inv(w) && Settled(w, id, [])
    ensures NothingArrives(w, id)
  {
    hide Inv, From;
    forall acts | From(w, acts).Some? ensures EmptyAt(From(w, acts).value, id) {
      StaysQueued(w, acts, id, []);
    }
  }

  /** Exactly when a drained handler has seen the last of its client: nothing is
      queued for it in any continuation if and only if the reader is not on its
      way to it. */
  lemma NothingArrivesIff(max: nat, w: World, id: Id)
    requires Reachable(max, w) && id in w.clients && Enabled(w, Consumer(id, C.FindEmpty))
    ensures NothingArrives(Do(w, Consumer(id, C.FindEmpty)), id) <==> !w.reader.Locking? && !Owed(w.reader, id)
  {
    var v := Do(w, Consumer(id, C.FindEmpty));
    ReachableInv(max, w);
    StepInv(w, Consumer(id, C.FindEmpty));
    DrainedFacts(w, id);
    hide Inv, Reachable, Do, Enabled, NothingArrives, Owed;
    if Coming(w, id) {
      Gets(v, id);
      SomethingArrives(v, id);
    } else {
      SettledStaysEmpty(v, id);
    }
  }

  lemma DrainedFacts(w: World, id: Id)
    requires Inv(w) && id in w.clients && Enabled(w, Consumer(id, C.FindEmpty))
    ensures var v := Do(w, Consumer(id, C.FindEmpty));
            && id in v.clients && !v.clients[id].removed && v.clients[id].cap >= 1 && v.clients[id].q == []
            && v.done && (Coming(v, id) <==> Coming(w, id)) && v.clients[id].pc == C.Returned(C.Drained)
  {
    DrainingIsDone(w, id);
    HasRoom(w, id);
    hide Inv;
  }

  lemma HasRoom(w: World, id: Id)
    requires Inv(w) && id in w.clients
    ensures w.clients[id].cap >= 1
  {
    hide SnapOk, OffersOk, EndingOk, MessagesOk, BufferOk, TrackerOk;
    assert ClientOk(w, id);
  }

  // ------------------------------------------------ at most one chunk is missed

  /** A drained handler: until the reader has passed its client no data is
      queued, and afterwards at most one chunk. */
  ghost predicate DrainOk(w: World, id: Id) {
    id in w.clients && w.clients[id].pc == C.Returned(C.Drained) ==>
      w.done && |C.Datas(w.clients[id].q)| <= if Coming(w, id) then 0 else 1
  }

  ghost predicate AllDrainOk(w: World) { forall id {:trigger DrainOk(w, id)} :: DrainOk(w, id) }

  /** One broadcast stage queues a data chunk at most on its way out. */
  lemma ServeQueues(c: C.State, ph: C.Phase, mv: C.ReaderMove, chunk: Chunk)
    requires C.CanServe(c, ph, mv)
    ensures var (c', ph') := C.Serve(c, ph, mv, chunk);
            && c'.pc == c.pc && |C.Datas(c'.q)| <= |C.Datas(c.q)| + 1
            && (|C.Datas(c'.q)| != |C.Datas(c.q)| ==> ph != C.SetFlag && ph' == C.Off)
            && (ph == C.SetFlag ==> ph' == C.Off)
  {
    hide C.Datas;
    C.SnocFacts(c.q, C.GAP);
    C.SnocFacts(c.q, chunk);
  }

  lemma ReaderDrain(w: World, mv: C.ReaderMove, id: Id)
    requires ReaderOk(w) && AllDrainOk(w) && Enabled(w, Reader(mv))
    ensures DrainOk(Do(w, Reader(mv)), id)
  {
    assert DrainOk(w, id);
    var (who, ph) := w.reader.cur.value;
    ServeQueues(w.clients[who], ph, mv, w.reader.chunk);
    hide C.Serve, C.CanServe, C.Datas, AllDrainOk;
  }

  /** Steps that leave a drained handler and its queue as they are. */
  lemma FrameDrain(w: World, w': World, id: Id)
    requires DrainOk(w, id) && (w.done ==> w'.done)
    requires w.done && Coming(w', id) ==> Coming(w, id)
    requires id in w'.clients && w'.clients[id].pc == C.Returned(C.Drained) ==>
               id in w.clients && w.clients[id].pc == w'.clients[id].pc && w.clients[id].q == w'.clients[id].q
    ensures DrainOk(w', id)
  {
  }

  /** The only consumer step into a drained state leaves an empty queue. */
  lemma ConsumeDrains(c: C.State, mv: C.ConsumerMove, done: bool)
    requires C.CanConsume(c, mv, done)
    ensures var c' := C.Consume(c, mv, done);
            c'.pc == C.Returned(C.Drained) ==> c'.q == [] && IsDraining(c.pc)
  {
  }

  lemma ConsumerDrain(w: World, who: Id, mv: C.ConsumerMove, id: Id)
    requires Inv(w) && DrainOk(w, id) && Enabled(w, Consumer(who, mv))
    ensures DrainOk(Do(w, Consumer(who, mv)), id)
  {
    var w' := Do(w, Consumer(who, mv));
    if who == id {
      ConsumeDrains(w.clients[id], mv, w.done);
      DrainingIsDone(w, id);
      NoData();
      hide C.Consume, C.CanConsume, C.Datas, IsDraining, Inv;
    } else {
      hide C.Consume, C.CanConsume, C.Datas, Inv;
      FrameDrain(w, w', id);
    }
  }

  lemma OtherDrain(w: World, a: Action, id: Id)
    requires DrainOk(w, id) && ReaderOk(w) && Enabled(w, a) && !a.Reader? && !a.Consumer?
    ensures DrainOk(Do(w, a), id)
  {
    hide C.Datas, DrainOk;
    FrameDrain(w, Do(w, a), id);
  }

  lemma NoData()
    ensures C.Datas([]) == []
  {
  }

  lemma DrainingIsDone(w: World, id: Id)
    requires Inv(w) && id in w.clients
    ensures IsDraining(w.clients[id].pc) ==> w.done
  {
    assert ClientOk(w, id);
  }

  lemma {:induction false} RunDrain(max: nat, acts: seq<Action>)
    requires max >= 1 && Reach(max, acts).Some?
    ensures AllDrainOk(Reach(max, acts).value)
  {
    hide Inv, Do, Enabled, DrainOk;
    if acts == [] {
      assert AllDrainOk(Start(max)) by { hide *; StartDrain(max); }
    } else {
      var init, a := acts[..|acts| - 1], acts[|acts| - 1];
      RunDrain(max, init);
      RunInv(max, init);
      var w := Reach(max, init).value;
      forall id ensures DrainOk(Do(w, a), id) {
        ReaderOf(w);
        DrainOf(w, id);
        if a.Reader? {
          ReaderDrain(w, a.mv, id);
        } else if a.Consumer? {
          ConsumerDrain(w, a.id, a.cmv, id);
        } else {
          OtherDrain(w, a, id);
        }
      }
    }
  }

  lemma StartDrain(max: nat)
    ensures AllDrainOk(Start(max))
  {
  }

  /** However the session ended: a drained handler delivered, in order, all that
      was enqueued for its client but at most one chunk, which is then still
      queued; and all of it when the session was not closed from outside. */
  lemma DrainMissesAtMostOne(max: nat, w: World, id: Id)
    requires Reachable(max, w) && id in w.clients && w.clients[id].pc == C.Returned(C.Drained)
    ensures var c := w.clients[id];
            && C.Datas(C.Marked(c.log)) == C.Datas(c.delivered) + C.Datas(c.q)
            && |C.Datas(c.q)| <= 1
            && (!w.closing ==> c.q == [])
  {
    hide Inv, Reach, AllDrainOk, C.Datas, ClientOk, C.Marked;
    var c := w.clients[id];
    var acts :| Reach(max, acts) == Some(w);
    RunDrain(max, acts);
    assert DrainOk(w, id) by { hide DrainOk; DrainOf(w, id); }
    ReachableClient(max, w, id);
    DrainedStream(w, id);
    C.DatasConcat(c.delivered, c.q);
  }

  lemma DrainOf(w: World, id: Id)
    requires AllDrainOk(w)
    ensures DrainOk(w, id)
  {
  }

  lemma DrainedStream(w: World, id: Id)
    requires id in w.clients && id in w.snaps && ClientOk(w, id) && w.clients[id].pc == C.Returned(C.Drained)
    ensures var c := w.clients[id];
            C.Datas(C.Marked(c.log)) == C.Datas(c.delivered + c.q) && (!w.closing ==> c.q == [])
  {
    hide C.Datas, SnapOk, OffersOk;
    assert C.Stream(w.clients[id]) == w.clients[id].delivered + w.clients[id].q;
  }
}
