/** Room means delivery: a chunk offered to a client whose queue has a free slot
    for it - and one for the marker, when one is owed - is queued, whatever the
    consumers do meanwhile (internal/session/session.go:463-483, 504-509); and a
    client that stalls does not hold the reader (504-522). */
module FastPath {
  import opened Wrappers
  import opened Bytes
  import opened Client
  import P = Pipeline

  /** Slots that still have to be free at this point of the broadcast body. */
  function Needed(c: State, ph: Phase): nat {
    match ph
    case Load => if c.gap then 2 else 1
    case MarkerTry => 2
    case Clear => 1
    case DataTry => 1
    case _ => 0
  }

  /** `c` has become `d`: the chunk is on its way and there is room for it, or it
      has been queued; nothing was dropped. */
  predicate OnTheWay(c: State, d: State, ph: Phase, chunk: Chunk) {
    && d.cap == c.cap && d.drops == c.drops
    && (match ph
        case Off => d.log == c.log + [Enqueued(chunk)]
        case MarkerWait => false
        case DataWait => false
        case SetFlag => false
        case _ => d.log == c.log && |d.q| + Needed(d, ph) <= d.cap)
  }

  lemma ServeOnTheWay(c: State, d: State, ph: Phase, mv: ReaderMove, chunk: Chunk)
    requires OnTheWay(c, d, ph, chunk) && CanServe(d, ph, mv)
    ensures var (e, ph') := Serve(d, ph, mv, chunk); OnTheWay(c, e, ph', chunk)
  {
  }

  lemma ConsumeOnTheWay(c: State, d: State, ph: Phase, mv: ConsumerMove, done: bool, chunk: Chunk)
    requires OnTheWay(c, d, ph, chunk) && CanConsume(d, mv, done)
    ensures OnTheWay(c, Consume(d, mv, done), ph, chunk)
  {
  }

  // ------------------------------------------------------- over whole runs

  /** The steps during which the reader is with this client, up to the one with
      which it is done. */
  predicate ServingRun(w: P.World, acts: seq<P.Action>, id: P.Id)
    decreases |acts|
  {
    && acts != [] && P.Enabled(w, acts[0])
    && var v := P.Do(w, acts[0]);
       if At(v, id) then ServingRun(v, acts[1..], id) else |acts| == 1
  }

  /** The reader is with this client. */
  predicate At(w: P.World, id: P.Id) {
    w.reader.Serving? && w.reader.cur.Some? && w.reader.cur.value.0 == id
  }

  function PhaseAt(w: P.World, id: P.Id): Phase {
    if At(w, id) then w.reader.cur.value.1 else Off
  }

  lemma StepOnTheWay(c: State, w: P.World, a: P.Action, id: P.Id)
    requires At(w, id) && id in w.clients && P.Enabled(w, a) && PhaseAt(w, id) != Off
    requires OnTheWay(c, w.clients[id], PhaseAt(w, id), w.reader.chunk)
    ensures var v := P.Do(w, a);
            && id in v.clients && OnTheWay(c, v.clients[id], PhaseAt(v, id), w.reader.chunk)
            && (At(v, id) ==> PhaseAt(v, id) != Off && v.reader.chunk == w.reader.chunk)
  {
    if a.Reader? {
      ServeOnTheWay(c, w.clients[id], PhaseAt(w, id), a.mv, w.reader.chunk);
      hide Serve, CanServe, OnTheWay;
    } else if a.Consumer? && a.id == id {
      ConsumeOnTheWay(c, w.clients[id], PhaseAt(w, id), a.cmv, w.done, w.reader.chunk);
      hide Consume, CanConsume, OnTheWay;
    } else {
      hide Consume, CanConsume, Serve, CanServe, OnTheWay;
    }
  }

  lemma {:induction false} RunOnTheWay(c: State, w: P.World, acts: seq<P.Action>, id: P.Id)
    requires At(w, id) && id in w.clients && PhaseAt(w, id) != Off && ServingRun(w, acts, id)
    requires OnTheWay(c, w.clients[id], PhaseAt(w, id), w.reader.chunk)
    ensures P.From(w, acts).Some?
    ensures var v := P.From(w, acts).value;
            id in v.clients && !At(v, id) && OnTheWay(c, v.clients[id], Off, w.reader.chunk)
    decreases |acts|
  {
    hide P.Do, P.Enabled, OnTheWay;
    StepOnTheWay(c, w, acts[0], id);
    var v := P.Do(w, acts[0]);
    if At(v, id) {
      RunOnTheWay(c, v, acts[1..], id);
    } else {
      assert P.From(v, acts[1..]) == Some(v);
    }
  }

  /** The promise: when the reader comes to a client with a free slot for the
      chunk, and another one if a marker is owed, the chunk is queued and nothing
      is dropped, in every interleaving. */
  lemma RoomMeansQueued(w: P.World, acts: seq<P.Action>, id: P.Id)
    requires w.reader.Serving? && w.reader.cur == Some((id, Load)) && id in w.clients
    requires |w.clients[id].q| + (if w.clients[id].gap then 1 else 0) < w.clients[id].cap
    requires ServingRun(w, acts, id)
    ensures P.From(w, acts).Some? && id in P.From(w, acts).value.clients
    ensures var c, d := w.clients[id], P.From(w, acts).value.clients[id];
            d.log == c.log + [Enqueued(w.reader.chunk)] && d.drops == c.drops
  {
    hide P.Do, P.Enabled, ServingRun, P.From;
    RunOnTheWay(w.clients[id], w, acts, id);
  }

  // ------------------------------------------------------- a stalled client

  /** Stages of the broadcast body that may still be ahead. */
  function Ahead(ph: Phase): nat {
    match ph
    case Load => 7
    case MarkerTry => 6
    case MarkerWait => 5
    case Clear => 4
    case DataTry => 3
    case DataWait => 2
    case SetFlag => 1
    case Off => 0
  }

  /** The reader's next move when every timer runs out. */
  function GiveUp(ph: Phase): ReaderMove {
    match ph
    case Load => LoadFlag
    case MarkerTry => TryMarker
    case MarkerWait => WaitMarker(false)
    case Clear => ClearFlag
    case DataTry => TryData
    case DataWait => WaitData(false)
    case _ => RaiseFlag
  }

  lemma GiveUpAdvances(c: State, ph: Phase, chunk: Chunk)
    requires ph != Off
    ensures CanServe(c, ph, GiveUp(ph)) && Ahead(Serve(c, ph, GiveUp(ph), chunk).1) < Ahead(ph)
  {
  }

  predicate ReaderOnly(acts: seq<P.Action>) {
    forall k :: 0 <= k < |acts| ==> acts[k].Reader?
  }

  /** A client whose consumer never moves does not hold the reader: by its own steps,
      at most seven, the reader is done with the client. */
  lemma {:induction false} StalledClientLetsGo(w: P.World, id: P.Id) returns (acts: seq<P.Action>)
    requires At(w, id) && id in w.clients && PhaseAt(w, id) != Off
    ensures ServingRun(w, acts, id) && ReaderOnly(acts) && |acts| <= Ahead(PhaseAt(w, id)) <= 7
    decreases Ahead(PhaseAt(w, id))
  {
    var ph := PhaseAt(w, id);
    GiveUpAdvances(w.clients[id], ph, w.reader.chunk);
    hide Serve, CanServe, GiveUp;
    var a := P.Reader(GiveUp(ph));
    assert P.Enabled(w, a);
    var v := P.Do(w, a);
    acts := [a];
    if At(v, id) {
      var rest := StalledClientLetsGo(v, id);
      acts := [a] + rest;
      assert acts[1..] == rest;
    }
  }
}
