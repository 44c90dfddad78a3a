/** The whole attach / scrollback / broadcast pipeline as one state machine:
    the PTY reader (internal/session/pty.go:149-223), any number of clients and
    Attach handlers, RemoveClient, and Close, interleaved step by step. */
module Pipeline {
  import opened Wrappers
  import opened Bytes
  import opened Modes
  import opened Resync
  import opened Scrollback
  import opened Replay
  import C = Client

  type Id = nat

  /** Bytes per PTY read. */
  const READ_SIZE: nat := 4096

  /** Where the reader goroutine is.  outputBufferMu is held from Appended to
      the end of Serving; clientsMu is read-locked during Serving. */
  datatype Reader =
    | Reading
    | Appended(chunk: Chunk)
    | Locking(chunk: Chunk)
    | Serving(chunk: Chunk, todo: set<Id>, cur: Option<(Id, C.Phase)>)
    | Updating(chunk: Chunk)
    | Exited

  /** What AttachClient saw: chunks read, chunks tracked, and the buffer. */
  datatype Snapshot = Snapshot(from: nat, tracked: nat, scroll: seq<byte>)

  datatype World = World(
    max: nat,                     // maxBufferSize
    buffer: seq<byte>,            // outputBuffer
    parser: Parser, modes: Modes, // the session's modeTracker
    clients: map<Id, C.State>,
    done: bool,
    closing: bool,                // done was closed by Close, not by the reader
    reader: Reader,
    hist: seq<Chunk>,             // history: every chunk read
    cast: nat,                    // history: chunks that passed broadcast's done test
    snaps: map<Id, Snapshot>)     // history: what each client was given

  function Start(max: nat): World {
    World(max, [], Ground, FRESH, map[], false, false, Reading, [], 0, map[])
  }

  datatype Action =
    | Read(chunk: Chunk) | CheckDone | Lock | Pick(id: Id) | Reader(mv: C.ReaderMove)
    | EndBroadcast | UpdateModes | Exit
    | Attach(id: Id, cap: nat) | Remove(id: Id) | Close
    | Consumer(id: Id, cmv: C.ConsumerMove)

  function Registered(w: World): set<Id> {
    set id | id in w.clients && !w.clients[id].removed
  }

  predicate BufferFree(w: World) { w.reader.Reading? || w.reader.Updating? || w.reader.Exited? }

  predicate Enabled(w: World, a: Action) {
    match a
    case Read(chunk) => w.reader == Reading && 1 <= |chunk| <= READ_SIZE
    case CheckDone => w.reader.Appended?
    case Lock => w.reader.Locking?
    case Pick(id) => w.reader.Serving? && w.reader.cur == None && id in w.reader.todo
    case Reader(mv) =>
      && w.reader.Serving? && w.reader.cur.Some? && w.reader.cur.value.0 in w.clients
      && C.CanServe(w.clients[w.reader.cur.value.0], w.reader.cur.value.1, mv)
    case EndBroadcast => w.reader.Serving? && w.reader.cur == None && w.reader.todo == {}
    case UpdateModes => w.reader.Updating?
    case Exit => w.reader == Reading
    case Attach(id, cap) => id !in w.clients && BufferFree(w) && cap >= 1
    case Remove(id) => id in Registered(w) && !w.reader.Serving?
    case Close => !w.done
    case Consumer(id, mv) => id in w.clients && C.CanConsume(w.clients[id], mv, w.done)
  }

  predicate InFlight(r: Reader) { r.Appended? || r.Locking? || r.Serving? || r.Updating? }

  /** Chunks the mode tracker has seen. */
  function TrackedCount(w: World): nat {
    if InFlight(w.reader) && w.hist != [] then |w.hist| - 1 else |w.hist|
  }

  /** Everything the process sends a client at attach. */
  function ReplayOf(w: World): seq<byte> {
    Preamble(w.modes) + w.buffer
  }

  /** Snapshot and registration in one step: outputBufferMu is held over both. */
  function AttachClient(w: World, id: Id, cap: nat): World {
    w.(clients := w.clients[id := C.Attached(cap, ReplayOf(w))],
       snaps := w.snaps[id := Snapshot(|w.hist|, TrackedCount(w), w.buffer)])
  }

  function SetClient(w: World, id: Id, c: C.State): World {
    w.(clients := w.clients[id := c])
  }

  /** One step inside the broadcast body; leaving it frees the reader for the next client. */
  function ServeClient(w: World, id: Id, next: (C.State, C.Phase)): World
    requires w.reader.Serving?
  {
    SetClient(w, id, next.0).(
      reader := Serving(w.reader.chunk, w.reader.todo, if next.1 == C.Off then None else Some((id, next.1))))
  }

  function Do(w: World, a: Action): World
    requires Enabled(w, a)
  {
    match a
    case Read(chunk) =>
      w.(hist := w.hist + [chunk], buffer := Trim(w.buffer + chunk, w.max), reader := Appended(chunk))
    case CheckDone =>
      w.(reader := if w.done then Updating(w.reader.chunk) else Locking(w.reader.chunk))
    case Lock =>
      w.(reader := Serving(w.reader.chunk, Registered(w), None), cast := w.cast + 1)
    case Pick(id) =>
      w.(reader := Serving(w.reader.chunk, w.reader.todo - {id}, Some((id, C.Load))))
    case Reader(mv) =>
      var (id, ph) := w.reader.cur.value;
      ServeClient(w, id, C.Serve(w.clients[id], ph, mv, w.reader.chunk))
    case EndBroadcast => w.(reader := Updating(w.reader.chunk))
    case UpdateModes =>
      w.(parser := Run(w.parser, w.reader.chunk),
         modes := After(w.modes, w.parser, w.reader.chunk),
         reader := Reading)
    case Exit => w.(reader := Exited, done := true)
    case Attach(id, cap) => AttachClient(w, id, cap)
    case Remove(id) => SetClient(w, id, w.clients[id].(removed := true))
    case Close => w.(done := true, closing := true)
    case Consumer(id, mv) => SetClient(w, id, C.Consume(w.clients[id], mv, w.done))
  }

  // -------------------------------------------------------------- runs

  /** The world after taking the actions one by one from a fresh session; None
      when some action was not enabled. */
  function Reach(max: nat, acts: seq<Action>): Option<World> {
    if acts == [] then Some(Start(max))
    else match Reach(max, acts[..|acts| - 1])
      case None => None
      case Some(w) => if Enabled(w, acts[|acts| - 1]) then Some(Do(w, acts[|acts| - 1])) else None
  }

  /** The same from any world on. */
  function From(w: World, acts: seq<Action>): Option<World>
    decreases |acts|
  {
    if acts == [] then Some(w)
    else if Enabled(w, acts[0]) then From(Do(w, acts[0]), acts[1..])
    else None
  }

  ghost predicate Reachable(max: nat, w: World) {
    max >= 1 && exists acts :: Reach(max, acts) == Some(w)
  }

  /** The bytes of the first `n` chunks read. */
  function Output(w: World, n: nat): seq<byte> { Span(w.hist, 0, n) }

  /** The bytes of the chunks from index `a` up to index `b`. */
  function Span(hist: seq<Chunk>, a: nat, b: nat): seq<byte> {
    if a <= b <= |hist| then Flat(hist[a..b]) else []
  }

  lemma SpanConcat(hist: seq<Chunk>, a: nat, b: nat, c: nat)
    requires a <= b <= c <= |hist|
    ensures Span(hist, a, c) == Span(hist, a, b) + Span(hist, b, c)
  {
    assert hist[a..c] == hist[a..b] + hist[b..c];
    FlatConcat(hist[a..b], hist[b..c]);
  }

  lemma {:induction false} SpanAll(hist: seq<Chunk>)
    ensures Span(hist, 0, |hist|) == Flat(hist)
  {
    assert hist[0..|hist|] == hist;
  }

  lemma SpanGrows(hist: seq<Chunk>, chunk: Chunk, a: nat, b: nat)
    requires a <= b <= |hist|
    ensures Span(hist + [chunk], a, b) == Span(hist, a, b)
  {
    assert (hist + [chunk])[a..b] == hist[a..b];
  }

  lemma SpanOne(hist: seq<Chunk>, a: nat)
    requires a < |hist|
    ensures Span(hist, a, a + 1) == hist[a]
  {
    assert hist[a..a + 1] == [hist[a]];
    FlatOne(hist[a]);
  }

  // ------------------------------------------------------- the invariant

  ghost predicate BufferOk(w: World) {
    && w.max >= 1
    && ChunksUpTo(w.hist, READ_SIZE)
    && (forall k :: 0 <= k < |w.hist| ==> w.hist[k] != C.GAP)
    && (InFlight(w.reader) ==> w.hist != [] && w.reader.chunk == w.hist[|w.hist| - 1])
    && IsScroll(Flat(w.hist), w.buffer, w.max)
  }

  ghost predicate TrackerOk(w: World) {
    && w.parser == Run(Ground, Span(w.hist, 0, TrackedCount(w)))
    && w.modes == Tracked(Span(w.hist, 0, TrackedCount(w)))
  }

  predicate CastOk(w: World) {
    && w.cast <= |w.hist|
    && (w.reader.Appended? ==> w.cast <= |w.hist| - 1 && (!w.closing ==> w.cast == |w.hist| - 1))
    && (w.reader.Locking? ==> w.cast == |w.hist| - 1)
    && (w.reader.Serving? ==> w.cast == |w.hist|)
    && (!w.closing && !w.reader.Appended? && !w.reader.Locking? ==> w.cast == |w.hist|)
  }

  predicate ReaderOk(w: World) {
    && (w.reader.Serving? ==>
         && w.reader.todo <= Registered(w)
         && (w.reader.cur.Some? ==>
              && w.reader.cur.value.0 in Registered(w)
              && w.reader.cur.value.0 !in w.reader.todo
              && w.reader.cur.value.1 != C.Off))
    && (w.reader.Exited? ==> w.done)
    && (w.closing ==> w.done)
    && (w.done && !w.closing ==> w.reader.Exited?)
  }

  /** Chunks offered so far to a client that was there for all of them. */
  function Upto(w: World, id: Id): int {
    if Owed(w.reader, id) then w.cast - 1 else w.cast
  }

  /** The chunk in flight has not met its fate for this client yet. */
  predicate Owed(r: Reader, id: Id) {
    && r.Serving?
    && (id in r.todo || (r.cur.Some? && r.cur.value.0 == id && r.cur.value.1 != C.SetFlag))
  }

  /** A client was offered exactly the chunks after its snapshot, in order. */
  ghost predicate OffersOk(w: World, id: Id)
    requires id in w.clients && id in w.snaps
  {
    var c, snap := w.clients[id], w.snaps[id];
    && snap.from + |c.log| <= |w.hist|
    && C.Offered(c.log) == w.hist[snap.from..snap.from + |c.log|]
    && (!c.removed ==> snap.from + |c.log| == if snap.from <= Upto(w, id) then Upto(w, id) else snap.from)
    && ((w.reader.Appended? || w.reader.Locking? || w.reader.Serving?) ==> snap.from < |w.hist|)
  }

  ghost predicate SnapOk(hist: seq<Chunk>, max: nat, snap: Snapshot, replay: seq<byte>) {
    && snap.tracked <= snap.from <= |hist| && snap.from <= snap.tracked + 1
    && IsScroll(Span(hist, 0, snap.from), snap.scroll, max)
    && replay == Preamble(Tracked(Span(hist, 0, snap.tracked))) + snap.scroll
  }

  predicate IsDraining(pc: C.Consumer) {
    match pc
    case Waiting(d) => d case Holding(_, d) => d case Sent(d) => d case Taking(d) => d
    case Returned(e) => e == C.Drained
    case Replaying(_) => false
  }

  /** Shutdown: who is draining, and what an ended handler left behind. */
  predicate EndingOk(w: World, c: C.State) {
    && (IsDraining(c.pc) ==> w.done)
    && (c.pc == C.Returned(C.Drained) && !w.closing ==> c.q == [])
    && (c.pc == C.Returned(C.Closed) ==> c.q == [] && c.removed)
  }

  /** The replay messages sent so far are the front of the replay, none too large. */
  predicate MessagesOk(c: C.State) {
    && (forall k :: 0 <= k < |c.messages| ==> |c.messages[k]| <= C.REPLAY_CHUNK_SIZE)
    && (match c.pc
        case Replaying(off) => Flat(c.messages) == c.replay[..C.Min(off, |c.replay|)]
        case Returned(e) => e == C.ReplayFailed || Flat(c.messages) == c.replay
        case _ => Flat(c.messages) == c.replay)
  }

  ghost predicate ClientOk(w: World, id: Id)
    requires id in w.clients && id in w.snaps
  {
    && C.Sound(w.clients[id])
    && OffersOk(w, id)
    && SnapOk(w.hist, w.max, w.snaps[id], w.clients[id].replay)
    && EndingOk(w, w.clients[id])
    && MessagesOk(w.clients[id])
  }

  ghost predicate Inv(w: World) {
    && BufferOk(w) && TrackerOk(w) && CastOk(w) && ReaderOk(w)
    && w.clients.Keys == w.snaps.Keys
    && (forall id {:trigger ClientOk(w, id)} :: id in w.clients ==> ClientOk(w, id))
  }
}
