/** A drop at the tail of a burst has no later chunk to carry its marker
    (internal/server/server.go:668-672).  Whether the handler surfaces it is
    decided when the reader raises the flag (internal/session/session.go:487). */
module Tails {
  import opened Wrappers
  import opened Bytes
  import opened Client
  import opened P = Pipeline
  import I = PipelineInv

  /** The handler will still look at the flag with its queue empty: it is about to,
      or has data to send first. */
  predicate WillLook(c: State) {
    if c.pc.Taking? then c.q == [] else c.pc.Sent? || Datas(Hand(c.pc) + c.q) != []
  }

  /** What the end of the stream says, or is going to say. */
  predicate Marks(c: State) { Ends(Stream(c)) || (c.gap && WillLook(c)) }

  // ------------------------------------------------- one move of the handler

  lemma {:induction false} DatasEmpty(s: seq<Chunk>)
    ensures s == [] ==> Datas(s) == []
    ensures |s| == 1 ==> Datas(s) == if s[0] == GAP then [] else s
  {
    if |s| == 1 { assert s[..0] == []; }
  }

  lemma AllMarkers(s: seq<Chunk>)
    requires Datas(s) == [] && s != []
    ensures Ends(s)
  {
    OnlyGaps(s);
  }

  lemma ReceiveMarks(c: State)
    requires CanConsume(c, Receive, false)
    ensures Marks(Consume(c, Receive, false)) <==> Marks(c)
  {
    hide Datas;
    StreamKept(c, Receive, false);
    assert [c.q[0]] + c.q[1..] == c.q == [] + c.q;
  }

  lemma SendMarks(c: State)
    requires c.pc.Holding?
    ensures Marks(Consume(c, SendItem(true), false)) <==> Marks(c)
  {
    hide Datas;
    StreamKept(c, SendItem(true), false);
    var item := c.pc.item;
    DatasConcat([item], c.q);
    DatasEmpty([item]);
    assert [] + c.q == c.q;
  }

  lemma TestMarks(c: State)
    requires c.pc.Sent?
    ensures Marks(Consume(c, Test, false)) <==> Marks(c)
  {
    hide Datas;
    StreamKept(c, Test, false);
    assert [] + c.q == c.q;
    if c.q != [] && Datas(c.q) == [] {
      AllMarkers(c.q);
      assert Stream(c) == c.delivered + c.q;
    }
  }

  lemma TakeMarks(c: State)
    requires c.pc.Taking? && !c.removed
    ensures Marks(Consume(c, Take, false)) <==> Marks(c)
  {
    hide Datas;
    if c.gap {
      assert Stream(Consume(c, Take, false)) == c.delivered + [GAP] + c.q;
      assert Stream(c) == c.delivered + c.q;
    } else {
      StreamKept(c, Take, false);
    }
  }

  /** A move that is neither a failed send nor the client going away. */
  predicate Succeeds(mv: ConsumerMove) {
    match mv
    case SendReplay(ok) => ok
    case SendItem(ok) => ok
    case Disconnect => false
    case _ => true
  }

  lemma QuietMarks(c: State, mv: ConsumerMove, done: bool)
    requires CanConsume(c, mv, done)
    requires mv.SendReplay? || mv.FindGone? || mv.SeeClosed? || mv.SeeDone? || mv.FindEmpty?
    ensures Marks(Consume(c, mv, done)) <==> Marks(c)
  {
    hide Datas, Ends;
    StreamKept(c, mv, done);
    SameHand(c, mv, done);
  }

  lemma SameHand(c: State, mv: ConsumerMove, done: bool)
    requires CanConsume(c, mv, done)
    requires mv.SendReplay? || mv.FindGone? || mv.SeeClosed? || mv.SeeDone? || mv.FindEmpty?
    ensures var c' := Consume(c, mv, done);
            && c'.q == c.q && c'.gap == c.gap && Hand(c'.pc) == Hand(c.pc)
            && !c.pc.Taking? && !c'.pc.Taking? && !c.pc.Sent? && !c'.pc.Sent?
  {
  }

  /** No move of the handler changes what the end of the stream is going to say. */
  lemma MoveMarks(c: State, mv: ConsumerMove, done: bool)
    requires CanConsume(c, mv, done) && Succeeds(mv) && !c.removed
    ensures Marks(Consume(c, mv, done)) <==> Marks(c)
  {
    hide Marks;
    match mv
    case Receive => ReceiveMarks(c);
    case SendItem(_) => SendMarks(c);
    case Test => TestMarks(c);
    case Take => TakeMarks(c);
    case _ => QuietMarks(c, mv, done);
  }

  // ----------------------------------------------------- over whole runs

  /** Steps of a world in which the burst is over for this client: it is not served
      again, not removed, and its sends succeed.  All else may happen. */
  predicate Calm(w: World, a: Action, id: Id)
    requires P.Enabled(w, a)
  {
    match a
    case Reader(_) => w.reader.cur.value.0 != id
    case Remove(other) => other != id
    case Consumer(other, mv) => other == id ==> Succeeds(mv)
    case _ => true
  }

  predicate CalmRun(w: World, acts: seq<Action>, id: Id)
    decreases |acts|
  {
    acts != [] ==> P.Enabled(w, acts[0]) && Calm(w, acts[0], id) && CalmRun(P.Do(w, acts[0]), acts[1..], id)
  }

  predicate Attending(w: World, id: Id) { id in w.clients && !w.clients[id].removed }

  lemma CalmStep(w: World, a: Action, id: Id)
    requires Attending(w, id) && P.Enabled(w, a) && Calm(w, a, id)
    ensures Attending(P.Do(w, a), id)
    ensures Marks(P.Do(w, a).clients[id]) <==> Marks(w.clients[id])
  {
    if a.Consumer? && a.id == id {
      MoveMarks(w.clients[id], a.cmv, w.done);
      StaysRegistered(w.clients[id], a.cmv, w.done);
      hide Marks, Consume, CanConsume;
    } else {
      hide Marks, Consume, CanConsume, Serve, CanServe;
    }
  }

  lemma StaysRegistered(c: State, mv: ConsumerMove, done: bool)
    requires CanConsume(c, mv, done)
    ensures Consume(c, mv, done).removed == c.removed
  {
  }

  lemma {:induction false} CalmRunMarks(w: World, acts: seq<Action>, id: Id)
    requires Attending(w, id) && CalmRun(w, acts, id)
    ensures P.From(w, acts).Some?
    ensures var v := P.From(w, acts).value; Attending(v, id) && (Marks(v.clients[id]) <==> Marks(w.clients[id]))
    decreases |acts|
  {
    hide Marks, P.Do, P.Enabled, Attending;
    if acts != [] {
      CalmStep(w, acts[0], id);
      CalmRunMarks(P.Do(w, acts[0]), acts[1..], id);
    }
  }

  /** When a drop at the tail of a burst is surfaced: whatever happens after the
      flag is raised, once the handler waits on an empty queue a marker was
      delivered last if and only if, at the moment the flag was raised, one ended
      the stream already or the handler was still going to look at the flag. */
  lemma TailDropSurfacedIff(max: nat, w: World, id: Id, acts: seq<Action>)
    requires P.Reachable(max, w) && w.reader.Serving? && w.reader.cur == Some((id, SetFlag)) && id in w.clients
    requires P.Enabled(w, Reader(RaiseFlag)) && CalmRun(P.Do(w, Reader(RaiseFlag)), acts, id)
    requires var end := P.From(P.Do(w, Reader(RaiseFlag)), acts);
             end.Some? && id in end.value.clients && Idle(end.value.clients[id])
    ensures var c, end := w.clients[id], P.From(P.Do(w, Reader(RaiseFlag)), acts).value.clients[id];
            Ends(end.delivered) <==> Ends(Stream(c)) || WillLook(c)
  {
    var v := P.Do(w, Reader(RaiseFlag));
    ServedIsAttending(max, w, id);
    FlagRaised(w, id);
    CalmRunMarks(v, acts, id);
    hide P.Reachable, CalmRun, P.From, P.Do, P.Enabled;
    IdleMarks(P.From(v, acts).value.clients[id]);
  }

  lemma ServedIsAttending(max: nat, w: World, id: Id)
    requires P.Reachable(max, w) && w.reader.Serving? && w.reader.cur == Some((id, SetFlag)) && id in w.clients
    ensures Attending(w, id)
  {
    hide P.Reachable, P.BufferOk, P.TrackerOk, P.ClientOk;
    I.ReachableInv(max, w);
  }

  lemma FlagRaised(w: World, id: Id)
    requires Attending(w, id) && w.reader.Serving? && w.reader.cur == Some((id, SetFlag))
    requires P.Enabled(w, Reader(RaiseFlag))
    ensures var c, v := w.clients[id], P.Do(w, Reader(RaiseFlag));
            Attending(v, id) && v.clients[id] == c.(gap := true)
    ensures var c, v := w.clients[id], P.Do(w, Reader(RaiseFlag));
            Marks(v.clients[id]) <==> Ends(Stream(c)) || WillLook(c)
  {
    hide Datas, Ends;
  }

  predicate Idle(c: State) { c.pc.Waiting? && c.q == [] }

  lemma IdleMarks(c: State)
    requires Idle(c)
    ensures Marks(c) <==> Ends(c.delivered)
  {
    assert Stream(c) == c.delivered && [] + c.q == [];
    DatasEmpty([] + c.q);
  }

  // ------------------------------------------------ such runs always exist

  /** What the handler does next when its sends succeed. */
  function NextMove(c: State): ConsumerMove {
    match c.pc
    case Replaying(_) => SendReplay(true)
    case Waiting(_) => Receive
    case Holding(_, _) => SendItem(true)
    case Sent(_) => Test
    case _ => Take
  }

  function ReplayLeft(c: State): nat {
    if c.pc.Replaying? then (if c.pc.off < |c.replay| then |c.replay| - c.pc.off else 0) + 1 else 0
  }

  function WorkLeft(c: State): nat {
    8 * |c.q| + (if c.gap then 4 else 0)
    + match c.pc case Holding(_, _) => 3 case Sent(_) => 2 case Taking(_) => 1 case _ => 0
  }

  lemma MoveHelps(c: State, done: bool)
    requires !c.pc.Returned? && !Idle(c)
    ensures CanConsume(c, NextMove(c), done) && Succeeds(NextMove(c))
    ensures var d := Consume(c, NextMove(c), done);
            && d.removed == c.removed && !d.pc.Returned?
            && (ReplayLeft(d) < ReplayLeft(c) || (ReplayLeft(d) == ReplayLeft(c) && WorkLeft(d) < WorkLeft(c)))
  {
  }

  /** A handler that has not returned can always come to wait on an empty queue. */
  lemma {:induction false} HandlerSettles(w: World, id: Id) returns (acts: seq<Action>)
    requires Attending(w, id) && !w.clients[id].pc.Returned?
    ensures CalmRun(w, acts, id) && P.From(w, acts).Some?
    ensures id in P.From(w, acts).value.clients && Idle(P.From(w, acts).value.clients[id])
    decreases ReplayLeft(w.clients[id]), WorkLeft(w.clients[id])
  {
    if Idle(w.clients[id]) {
      acts := [];
    } else {
      var a := Consumer(id, NextMove(w.clients[id]));
      MoveHelps(w.clients[id], w.done);
      hide Consume, CanConsume, NextMove, WorkLeft, ReplayLeft, Idle;
      var rest := HandlerSettles(P.Do(w, a), id);
      acts := [a] + rest;
      assert acts[1..] == rest;
    }
  }
}
