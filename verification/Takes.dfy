/** What becomes of a take of the gap flag (internal/server/server.go:670) that is
    not harmless: the client machine alone, with chunks offered at will, can go on
    to deliver a marker where nothing was dropped or a drop without a marker. */
module Takes {
  import opened Wrappers
  import opened Bytes
  import opened Client
  import Markers

  /** A client, where the reader is with it, and the chunk being offered. */
  datatype Point = Point(c: State, ph: Phase, chunk: Chunk)

  datatype Move = Offer(chunk: Chunk) | ByReader(mv: ReaderMove) | ByConsumer(cmv: ConsumerMove)

  predicate Can(p: Point, m: Move) {
    match m
    case Offer(chunk) => p.ph == Off && chunk != GAP && !p.c.removed
    case ByReader(mv) => CanServe(p.c, p.ph, mv)
    case ByConsumer(mv) => CanConsume(p.c, mv, false)
  }

  function Next(p: Point, m: Move): Point
    requires Can(p, m)
  {
    match m
    case Offer(chunk) => Point(p.c, Load, chunk)
    case ByReader(mv) => var (c, ph) := Serve(p.c, p.ph, mv, p.chunk); Point(c, ph, p.chunk)
    case ByConsumer(mv) => p.(c := Consume(p.c, mv, false))
  }

  function Follow(p: Point, moves: seq<Move>): Option<Point>
    decreases |moves|
  {
    if moves == [] then Some(p)
    else if Can(p, moves[0]) then Follow(Next(p, moves[0]), moves[1..])
    else None
  }

  ghost predicate Leads(p: Point, q: Point) { exists moves :: Follow(p, moves) == Some(q) }

  lemma Here(p: Point)
    ensures Leads(p, p)
  {
    assert Follow(p, []) == Some(p);
  }

  lemma First(p: Point, m: Move, q: Point)
    requires Can(p, m) && Leads(Next(p, m), q)
    ensures Leads(p, q)
  {
    hide Can, Next;
    var moves :| Follow(Next(p, m), moves) == Some(q);
    assert ([m] + moves)[1..] == moves;
    assert Follow(p, [m] + moves) == Some(q);
  }

  /** A marker before the `k`-th chunk delivered without a drop before it, or the
      other way round. */
  ghost predicate Misplaced(c: State, k: nat) {
    && k < |Datas(c.delivered)| && k < |Datas(Marked(c.log))|
    && Markers.Gapped(c.delivered, k) != Markers.Gapped(Marked(c.log), k)
  }

  /** The queue the marker jumps starts with data that follows data. */
  predicate Early(c: State) { c.q != [] && c.q[0] != GAP && !Ends(c.delivered) }

  // ------------------------------------------------------ draining the queue

  /** The client after its handler has sent everything queued. */
  function Emptied(c: State): State { c.(delivered := c.delivered + c.q, q := []) }

  lemma Drains(p: Point, end: Point)
    requires p.c.pc.Waiting? && !p.c.gap
    requires Leads(p.(c := Emptied(p.c)), end)
    ensures Leads(p, end)
    decreases |p.c.q|
  {
    if p.c.q == [] {
      assert p.c.delivered + p.c.q == p.c.delivered;
    } else {
      var rest := p.c.(delivered := p.c.delivered + [p.c.q[0]], q := p.c.q[1..]);
      assert rest.delivered + rest.q == p.c.delivered + p.c.q;
      Drains(p.(c := rest), end);
      SendsOne(p, end);
    }
  }

  lemma SendsOne(p: Point, end: Point)
    requires p.c.pc.Waiting? && !p.c.gap && p.c.q != []
    requires Leads(p.(c := p.c.(delivered := p.c.delivered + [p.c.q[0]], q := p.c.q[1..])), end)
    ensures Leads(p, end)
  {
    hide Leads;
    var item, b := p.c.q[0], p.c.pc.draining;
    var held := p.(c := p.c.(pc := Holding(item, b), q := p.c.q[1..]));
    var sent := held.(c := held.c.(delivered := p.c.delivered + [item], pc := Sent(b)));
    if item != GAP {
      if sent.c.q == [] {
        First(sent.(c := sent.c.(pc := Taking(b))), ByConsumer(Take), end);
      }
      First(sent, ByConsumer(Test), end);
    }
    First(held, ByConsumer(SendItem(true)), end);
    First(p, ByConsumer(Receive), end);
  }

  // --------------------------------------------------- a marker too early

  lemma DeliversMarkerAndOne(p: Point) returns (end: Point)
    requires p.c.pc.Taking? && TakeSucceeds(p.c) && Early(p.c)
    ensures Leads(p, end) && end.c.delivered == p.c.delivered + [GAP] + [p.c.q[0]] && end.c.log == p.c.log
  {
    hide Leads;
    var c, b := p.c, p.c.pc.draining;
    var p1 := p.(c := c.(gap := false, pc := Holding(GAP, b)));
    var p2 := p.(c := c.(gap := false, delivered := c.delivered + [GAP], pc := Waiting(b)));
    var p3 := p.(c := p2.c.(pc := Holding(c.q[0], b), q := c.q[1..]));
    end := p.(c := p3.c.(delivered := p2.c.delivered + [c.q[0]], pc := Sent(b)));
    Here(end);
    First(p3, ByConsumer(SendItem(true)), end);
    First(p2, ByConsumer(Receive), end);
    First(p1, ByConsumer(SendItem(true)), end);
    First(p, ByConsumer(Take), end);
  }

  /** The marker stands before a chunk that follows its predecessor directly. */
  lemma EarlyMarkerShows(c: State, ph: Phase, end: State)
    requires ClientExact(c, ph) && c.pc.Taking? && Early(c)
    requires end.delivered == c.delivered + [GAP] + [c.q[0]] && end.log == c.log
    ensures Misplaced(end, |Datas(c.delivered)|)
  {
    hide Datas, Gaps, Ends, Marked;
    var d, l := c.delivered, Marked(c.log);
    var k := |Datas(d)|;
    SnocFacts(d, GAP);
    LastGapped(d + [GAP], c.q[0]);
    assert Stream(c) == d + c.q;
    GapsSplit(d, c.q);
    Markers.GapsCount(d);
    Markers.GapsCount(l);
    assert Gaps(l)[k] == Ends(d);
    Markers.GapsAreGapped(l, k);
  }

  // ------------------------------------------------ a drop without a marker

  const Z: Chunk := [0]

  /** Where the reader can take the client to the next send of data. */
  predicate Ready(p: Point) { p.ph == Off || (p.ph == Load && p.chunk != GAP) }

  /** The chunk that is sent next. */
  function Coming(p: Point): Chunk { if p.ph == Off then Z else p.chunk }

  /** From the marker in hand: it, the whole queue and one more chunk are delivered. */
  lemma DeliversAllAndOneMore(p: Point, b: bool) returns (end: Point)
    requires p.c.pc == Holding(GAP, b) && !p.c.gap && !p.c.removed && p.c.cap >= 1 && Ready(p)
    ensures Leads(p, end)
    ensures end.c.delivered == p.c.delivered + [GAP] + p.c.q + [Coming(p)]
    ensures end.c.log == p.c.log + [Enqueued(Coming(p))]
  {
    hide Leads;
    var sent := p.(c := p.c.(delivered := p.c.delivered + [GAP], pc := Waiting(b)));
    end := OneMore(sent.(c := Emptied(sent.c)));
    Drains(sent, end);
    First(p, ByConsumer(SendItem(true)), end);
  }

  /** An idle client with an empty queue is sent one chunk. */
  lemma OneMore(p: Point) returns (end: Point)
    requires p.c.pc.Waiting? && !p.c.gap && !p.c.removed && p.c.q == [] && p.c.cap >= 1 && Ready(p)
    ensures Leads(p, end)
    ensures end.c.delivered == p.c.delivered + [Coming(p)] && end.c.log == p.c.log + [Enqueued(Coming(p))]
  {
    hide Leads;
    var c, b, x := p.c, p.c.pc.draining, Coming(p);
    var queued := Point(PutData(c, x), Off, x);
    var held := Point(queued.c.(pc := Holding(x, b), q := []), Off, x);
    assert [] + [x] == [x] && [x][1..] == [];
    end := held.(c := held.c.(delivered := c.delivered + [x], pc := Sent(b)));
    Here(end);
    First(held, ByConsumer(SendItem(true)), end);
    First(queued, ByConsumer(Receive), end);
    First(Point(c, DataTry, x), ByReader(TryData), end);
    First(Point(c, Load, x), ByReader(LoadFlag), end);
    if p.ph == Off { First(p, Offer(x), end); }
  }

  /** The reader's wait for the marker ends without it. */
  lemma GivesUp(p: Point, end: Point)
    requires p.ph == MarkerWait || (p.ph == MarkerTry && !Room(p.c))
    requires Leads(Point(Drop(p.c, p.chunk), Off, p.chunk), end)
    ensures Leads(p, end)
  {
    hide Leads;
    First(p.(ph := MarkerWait), ByReader(WaitMarker(false)), end);
    if p.ph == MarkerTry { First(p, ByReader(TryMarker), end); }
  }

  /** The take, and whatever the reader had begun. */
  lemma TakesAndGoesOn(p: Point) returns (end: Point, log: seq<Event>, x: Chunk)
    requires p.c.pc.Taking? && TakeSucceeds(p.c) && p.c.cap >= 1 && p.chunk != GAP
    requires p.ph == Off || p.ph == Load || p.ph == MarkerWait || (p.ph == MarkerTry && !Room(p.c))
    ensures Leads(p, end)
    ensures log == p.c.log || log == p.c.log + [Dropped(p.chunk)]
    ensures end.c.delivered == p.c.delivered + [GAP] + p.c.q + [x]
    ensures end.c.log == log + [Enqueued(x)] && x != GAP
  {
    hide Leads;
    var b := p.c.pc.draining;
    var taken := p.(c := p.c.(gap := false, pc := Holding(GAP, b)));
    if Ready(p) {
      log, x := p.c.log, Coming(p);
      end := DeliversAllAndOneMore(taken, b);
    } else {
      log, x := p.c.log + [Dropped(p.chunk)], Z;
      var dropped := Point(Drop(taken.c, p.chunk), Off, p.chunk);
      end := DeliversAllAndOneMore(dropped, b);
      GivesUp(taken, end);
    }
    First(p, ByConsumer(Take), end);
  }

  /** The chunk offered next follows a drop, and data was delivered before it. */
  lemma LostMarkerShows(c: State, ph: Phase, end: State, log: seq<Event>, e: Event, x: Chunk)
    requires ClientExact(c, ph) && c.pc.Taking? && c.gap && c.q != [] && !Ends(c.q) && x != GAP
    requires e.Dropped? && (log == c.log || log == c.log + [e])
    requires end.delivered == c.delivered + [GAP] + c.q + [x] && end.log == log + [Enqueued(x)]
    ensures Misplaced(end, |Datas(Marked(c.log))|)
  {
    var s, l := c.delivered + [GAP] + c.q, Marked(log);
    assert Stream(c) == c.delivered + c.q;
    assert Ends(Marked(c.log)) && !Ends(s) && Datas(c.delivered + c.q) == Datas(Marked(c.log));
    hide Datas, Gaps, Ends, Marked, Offered, DropCount, ClientExact, Stream;
    DropAddsNothing(c.log, e);
    InsertGap(c.delivered, c.q);
    MarkedSnoc(log, Enqueued(x));
    LastGapped(s, x);
    LastGapped(l, x);
  }

  lemma DropAddsNothing(log: seq<Event>, e: Event)
    requires e.Dropped?
    ensures Ends(Marked(log + [e])) && Datas(Marked(log + [e])) == Datas(Marked(log))
  {
    hide Datas, Gaps, Marked, Offered, DropCount;
    MarkedSnoc(log, e);
    SnocFacts(Marked(log), GAP);
  }

  /** Whether the chunk put at the end of a stream has a marker before it. */
  lemma LastGapped(s: seq<Chunk>, x: Chunk)
    requires x != GAP
    ensures |Datas(s + [x])| == |Datas(s)| + 1
    ensures Markers.Gapped(s + [x], |Datas(s)|) <==> Ends(s)
  {
    hide Datas, Gaps, Ends;
    SnocFacts(s, x);
    Markers.GapsCount(s);
    Markers.GapsAreGapped(s + [x], |Datas(s)|);
  }

  // ------------------------------------------------------- the two halves

  /** The marker is certain to enter the queue: the reader has loaded the flag and
      there is room. */
  predicate MarkerComing(c: State, ph: Phase) { ph == MarkerTry && Room(c) }

  /** From any exact state, a take that is not harmless can be followed by a run
      that delivers a misplaced or a missing marker, unless it jumps no data
      directly and the reader's own marker is certain to come. */
  lemma HarmfulTakeShows(c: State, ph: Phase, chunk: Chunk) returns (end: Point, k: nat)
    requires Sound(c) && ClientExact(c, ph) && c.pc.Taking? && TakeSucceeds(c) && !Harmless(c) && chunk != GAP
    requires Early(c) || !MarkerComing(c, ph)
    ensures Leads(Point(c, ph, chunk), end) && Misplaced(end.c, k)
  {
    if Early(c) {
      end := DeliversMarkerAndOne(Point(c, ph, chunk));
      EarlyMarkerShows(c, ph, end.c);
      k := |Datas(c.delivered)|;
    } else {
      NotEarly(c);
      PhasesLeft(c, ph);
      var log, x;
      end, log, x := TakesAndGoesOn(Point(c, ph, chunk));
      LostMarkerShows(c, ph, end.c, log, Dropped(chunk), x);
      k := |Datas(Marked(c.log))|;
    }
  }

  lemma NotEarly(c: State)
    requires !Early(c) && !Harmless(c)
    ensures c.q != [] && !Ends(c.q) && (c.q[0] == GAP || Ends(c.delivered))
  {
  }

  /** With the flag up and no marker at the end, the reader has not got past the
      marker's wait. */
  lemma PhasesLeft(c: State, ph: Phase)
    requires ClientExact(c, ph) && c.pc.Taking? && c.gap && c.q != [] && !Ends(c.q)
    ensures ph == Off || ph == Load || ph == MarkerTry || ph == MarkerWait
  {
    assert Stream(c) == c.delivered + c.q;
  }

  /** In the remaining case the reader's marker repairs the stream, whatever the
      handler does before it is queued. */
  lemma MarkerRepairs(c: State, d: State)
    requires ClientExact(c, MarkerTry) && c.pc.Taking? && TakeSucceeds(c) && !Harmless(c) && !Early(c)
    requires Stream(d) == Stream(Consume(c, Take, false)) && d.log == c.log && !d.gap
    ensures ClientExact(PutMarker(d), Clear)
  {
    NotEarly(c);
    var s := c.delivered + [GAP] + c.q;
    assert Stream(c) == c.delivered + c.q && Stream(d) == s;
    StreamOf(d, PutMarker(d), GAP);
    hide Datas, Gaps, Marked;
    InsertGap(c.delivered, c.q);
    SnocFacts(s, GAP);
  }

  /** ... because none of its moves changes the stream once the flag is down. */
  lemma StreamStays(c: State, mv: ConsumerMove, done: bool)
    requires !c.gap && CanConsume(c, mv, done)
    ensures var d := Consume(c, mv, done);
            Stream(d) == Stream(c) && d.log == c.log && !d.gap && (Room(c) ==> Room(d))
  {
    StreamKept(c, mv, done);
  }
}
