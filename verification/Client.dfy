/** One attached client: its bounded queue, the reader's side of broadcast
    (internal/session/session.go:457-532) and the consumer's side of Attach
    (internal/server/server.go:608-716), each split into its atomic steps. */
module Client {
  import opened Bytes

  /** The in-band marker: an empty chunk.  The reader never offers an empty chunk. */
  const GAP: Chunk := []

  /** What became of a chunk offered to the client. */
  datatype Event = Enqueued(chunk: Chunk) | Dropped(chunk: Chunk)

  /** Where the reader is inside the broadcast body for this client. */
  datatype Phase = Off | Load | MarkerTry | MarkerWait | Clear | DataTry | DataWait | SetFlag

  /** How Attach ended: NotFound when the session was gone after the replay; a
      failed send lost the item in hand. */
  datatype Ending = Closed | Drained | Disconnected | ReplayFailed | NotFound | SendFailed(item: Chunk)

  /** Where the Attach handler is. */
  datatype Consumer =
    | Replaying(off: nat)
    | Waiting(draining: bool)
    | Holding(item: Chunk, draining: bool)
    | Sent(draining: bool)
    | Taking(draining: bool)
    | Returned(ending: Ending)

  datatype State = State(
    cap: nat,                // queue capacity
    q: seq<Chunk>,           // the channel
    gap: bool,               // gapPending
    drops: nat,              // dropCount
    removed: bool,           // channel closed and entry deleted
    replay: seq<byte>,       // bytes snapshotted at attach
    messages: seq<Chunk>,    // replay messages sent so far
    delivered: seq<Chunk>,   // live messages sent so far, GAP for output_gap
    pc: Consumer,
    log: seq<Event>)         // history: the fate of every chunk offered

  const REPLAY_CHUNK_SIZE: nat := 0x10_0000

  function Attached(cap: nat, replay: seq<byte>): State {
    State(cap, [], false, 0, false, replay, [], [], Replaying(0), [])
  }

  // ------------------------------------------------------------ reader side

  datatype ReaderMove =
    | LoadFlag | TryMarker | WaitMarker(sent: bool) | ClearFlag
    | TryData | WaitData(sent: bool) | RaiseFlag

  predicate Room(c: State) { |c.q| < c.cap }

  /** A try always succeeds when there is room; a wait ends either way, but a
      send only completes into a free slot. */
  predicate CanServe(c: State, ph: Phase, mv: ReaderMove) {
    match mv
    case LoadFlag => ph == Load
    case TryMarker => ph == MarkerTry
    case WaitMarker(sent) => ph == MarkerWait && (sent ==> Room(c))
    case ClearFlag => ph == Clear
    case TryData => ph == DataTry
    case WaitData(sent) => ph == DataWait && (sent ==> Room(c))
    case RaiseFlag => ph == SetFlag
  }

  function PutMarker(c: State): State { c.(q := c.q + [GAP]) }

  function PutData(c: State, chunk: Chunk): State {
    c.(q := c.q + [chunk], log := c.log + [Enqueued(chunk)])
  }

  function Drop(c: State, chunk: Chunk): State {
    c.(drops := c.drops + 1, log := c.log + [Dropped(chunk)])
  }

  function Serve(c: State, ph: Phase, mv: ReaderMove, chunk: Chunk): (State, Phase)
    requires CanServe(c, ph, mv)
  {
    match mv
    case LoadFlag => (c, if c.gap then MarkerTry else DataTry)
    case TryMarker => if Room(c) then (PutMarker(c), Clear) else (c, MarkerWait)
    case WaitMarker(sent) => if sent then (PutMarker(c), Clear) else (Drop(c, chunk), Off)
    case ClearFlag => (c.(gap := false), DataTry)
    case TryData => if Room(c) then (PutData(c, chunk), Off) else (c, DataWait)
    case WaitData(sent) => if sent then (PutData(c, chunk), Off) else (Drop(c, chunk), SetFlag)
    case RaiseFlag => (c.(gap := true), Off)
  }

  // ---------------------------------------------------------- consumer side

  datatype ConsumerMove =
    | SendReplay(ok: bool) | FindGone | Receive | SeeClosed | SeeDone | Disconnect | FindEmpty
    | SendItem(ok: bool) | Test | Take

  predicate CanConsume(c: State, mv: ConsumerMove, done: bool) {
    match mv
    case SendReplay(_) => c.pc.Replaying?
    case FindGone => c.pc.Replaying? && c.pc.off >= |c.replay|
    case Receive => c.pc.Waiting? && c.q != []
    case SeeClosed => c.pc.Waiting? && c.q == [] && c.removed
    case SeeDone => c.pc == Waiting(false) && done
    case Disconnect => c.pc == Waiting(false)
    case FindEmpty => c.pc == Waiting(true) && c.q == [] && !c.removed
    case SendItem(_) => c.pc.Holding?
    case Test => c.pc.Sent?
    case Take => c.pc.Taking?
  }

  function Min(a: nat, b: nat): nat { if a < b then a else b }

  function SendReplayStep(c: State, ok: bool): State
    requires c.pc.Replaying?
  {
    var off := c.pc.off;
    if off >= |c.replay| then c.(pc := Waiting(false))
    else if !ok then c.(pc := Returned(ReplayFailed))
    else
      var end := Min(off + REPLAY_CHUNK_SIZE, |c.replay|);
      c.(messages := c.messages + [c.replay[off..end]], pc := Replaying(off + REPLAY_CHUNK_SIZE))
  }

  function Consume(c: State, mv: ConsumerMove, done: bool): State
    requires CanConsume(c, mv, done)
  {
    match mv
    case SendReplay(ok) => SendReplayStep(c, ok)
    case FindGone => c.(pc := Returned(NotFound))
    case Receive => c.(pc := Holding(c.q[0], c.pc.draining), q := c.q[1..])
    case SeeClosed => c.(pc := Returned(Closed))
    case SeeDone => c.(pc := Waiting(true))
    case Disconnect => c.(pc := Returned(Disconnected))
    case FindEmpty => c.(pc := Returned(Drained))
    case SendItem(ok) =>
      if !ok then c.(pc := Returned(SendFailed(c.pc.item)))
      else c.(delivered := c.delivered + [c.pc.item],
              pc := if c.pc.item == GAP then Waiting(c.pc.draining) else Sent(c.pc.draining))
    case Test => c.(pc := if c.q == [] then Taking(c.pc.draining) else Waiting(c.pc.draining))
    case Take =>
      if TakeSucceeds(c) then c.(gap := false, pc := Holding(GAP, c.pc.draining))
      else c.(pc := Waiting(c.pc.draining))
  }

  /** TakeOutputGap finds the client and swaps the flag. */
  predicate TakeSucceeds(c: State) { !c.removed && c.gap }

  // ------------------------------------------------- what a stream says

  /** The data chunks of a stream, without its markers. */
  function Datas(s: seq<Chunk>): seq<Chunk> {
    if s == [] then []
    else Datas(s[..|s| - 1]) + (if s[|s| - 1] == GAP then [] else [s[|s| - 1]])
  }

  predicate Ends(s: seq<Chunk>) { s != [] && s[|s| - 1] == GAP }

  /** For every data chunk, whether a marker comes directly before it. */
  function Gaps(s: seq<Chunk>): seq<bool> {
    if s == [] then []
    else Gaps(s[..|s| - 1]) + (if s[|s| - 1] == GAP then [] else [Ends(s[..|s| - 1])])
  }

  /** The offer history, written as a stream: a marker for every drop. */
  function Marked(log: seq<Event>): seq<Chunk> {
    seq(|log|, k requires 0 <= k < |log| => if log[k].Enqueued? then log[k].chunk else GAP)
  }

  function Offered(log: seq<Event>): seq<Chunk> {
    seq(|log|, k requires 0 <= k < |log| => log[k].chunk)
  }

  function DropCount(log: seq<Event>): nat {
    if log == [] then 0
    else DropCount(log[..|log| - 1]) + (if log[|log| - 1].Dropped? then 1 else 0)
  }

  function Hand(pc: Consumer): seq<Chunk> {
    match pc
    case Holding(item, _) => [item]
    case Returned(SendFailed(item)) => [item]
    case _ => []
  }

  /** Everything sent or still to be sent to this client, in order. */
  function Stream(c: State): seq<Chunk> { c.delivered + Hand(c.pc) + c.q }

  lemma SnocFacts(s: seq<Chunk>, x: Chunk)
    ensures Datas(s + [x]) == if x == GAP then Datas(s) else Datas(s) + [x]
    ensures Gaps(s + [x]) == if x == GAP then Gaps(s) else Gaps(s) + [Ends(s)]
    ensures Ends(s + [x]) == (x == GAP)
  {
    assert (s + [x])[..|s + [x]| - 1] == s;
  }

  lemma MarkedSnoc(log: seq<Event>, e: Event)
    ensures Marked(log + [e]) == Marked(log) + [if e.Enqueued? then e.chunk else GAP]
    ensures Offered(log + [e]) == Offered(log) + [e.chunk]
    ensures DropCount(log + [e]) == DropCount(log) + (if e.Dropped? then 1 else 0)
  {
    assert (log + [e])[..|log + [e]| - 1] == log;
  }

  lemma {:induction false} OnlyGaps(s: seq<Chunk>)
    requires Datas(s) == []
    ensures forall k :: 0 <= k < |s| ==> s[k] == GAP
  {
    if s != [] { OnlyGaps(s[..|s| - 1]); }
  }

  // ---------------------------------------------- what holds in every run

  ghost predicate Nonempty(log: seq<Event>) {
    forall k :: 0 <= k < |log| ==> log[k].chunk != GAP
  }

  /** The queue is bounded, drops are counted, and the data of the stream is
      exactly the data that was enqueued, in order. */
  ghost predicate Sound(c: State) {
    && c.cap >= 1 && |c.q| <= c.cap
    && Nonempty(c.log)
    && c.drops == DropCount(c.log)
    && Datas(Stream(c)) == Datas(Marked(c.log))
  }

  lemma AttachedSound(cap: nat, replay: seq<byte>)
    requires cap >= 1
    ensures Sound(Attached(cap, replay))
    ensures Exact(Stream(Attached(cap, replay)), Marked(Attached(cap, replay).log), false, Off)
  {
    assert Stream(Attached(cap, replay)) == [];
    assert Marked([]) == [];
  }

  lemma PutDataSound(c: State, chunk: Chunk)
    requires Sound(c) && Room(c) && chunk != GAP
    ensures Sound(PutData(c, chunk))
  {
    hide Datas, Stream, Marked, DropCount;
    StreamOf(c, PutData(c, chunk), chunk);
    MarkedSnoc(c.log, Enqueued(chunk));
    SnocFacts(Stream(c), chunk);
    SnocFacts(Marked(c.log), chunk);
  }

  lemma StreamOf(c: State, c': State, x: Chunk)
    requires c'.q == c.q + [x] && c'.delivered == c.delivered && c'.pc == c.pc
    ensures Stream(c') == Stream(c) + [x]
  {
  }

  lemma DropSound(c: State, chunk: Chunk)
    requires Sound(c) && chunk != GAP
    ensures Sound(Drop(c, chunk))
  {
    hide Datas, Marked, DropCount;
    assert Stream(Drop(c, chunk)) == Stream(c);
    MarkedSnoc(c.log, Dropped(chunk));
    SnocFacts(Marked(c.log), GAP);
  }

  lemma PutMarkerSound(c: State)
    requires Sound(c) && Room(c)
    ensures Sound(PutMarker(c))
  {
    hide Datas;
    assert Stream(PutMarker(c)) == Stream(c) + [GAP];
    SnocFacts(Stream(c), GAP);
  }

  lemma ServeKeepsSound(c: State, ph: Phase, mv: ReaderMove, chunk: Chunk)
    requires Sound(c) && CanServe(c, ph, mv) && chunk != GAP
    ensures Sound(Serve(c, ph, mv, chunk).0)
  {
    hide Sound;
    if Room(c) { PutDataSound(c, chunk); PutMarkerSound(c); }
    DropSound(c, chunk);
    FlagSound(c);
  }

  lemma FlagSound(c: State)
    requires Sound(c)
    ensures Sound(c.(gap := true)) && Sound(c.(gap := false))
  {
    hide Datas;
    assert Stream(c.(gap := true)) == Stream(c) == Stream(c.(gap := false));
  }

  lemma ConsumeKeepsSound(c: State, mv: ConsumerMove, done: bool)
    requires Sound(c) && CanConsume(c, mv, done)
    ensures Sound(Consume(c, mv, done))
  {
    hide Datas;
    if mv.Take? && TakeSucceeds(c) {
      var c' := Consume(c, mv, done);
      assert Stream(c) == c.delivered + c.q;
      assert Stream(c') == c.delivered + [GAP] + c.q;
      DatasConcat(c.delivered, c.q);
      DatasConcat(c.delivered + [GAP], c.q);
      SnocFacts(c.delivered, GAP);
    } else {
      StreamKept(c, mv, done);
    }
  }

  /** No step of the consumer but a successful take changes the stream. */
  lemma StreamKept(c: State, mv: ConsumerMove, done: bool)
    requires CanConsume(c, mv, done) && !(mv.Take? && TakeSucceeds(c))
    ensures Stream(Consume(c, mv, done)) == Stream(c)
  {
    if mv.Receive? {
      assert c.q == [c.q[0]] + c.q[1..];
    }
  }

  lemma {:induction false} DatasConcat(a: seq<Chunk>, b: seq<Chunk>)
    ensures Datas(a + b) == Datas(a) + Datas(b)
  {
    if b == [] {
      assert a + b == a;
    } else {
      var init, x := b[..|b| - 1], b[|b| - 1];
      assert b == init + [x];
      Assoc(a, init, [x]);
      DatasConcat(a, init);
      SnocFacts(a + init, x);
      SnocFacts(init, x);
    }
  }

  // ----------------------------------------------------- exact gap markers

  /** Stream and history agree on the data, on where gaps lie before data,
      and - up to a drop whose marker is still owed - on a gap at the end. */
  ghost predicate Exact(s: seq<Chunk>, l: seq<Chunk>, gap: bool, ph: Phase) {
    && Datas(s) == Datas(l)
    && Gaps(s) == Gaps(l)
    && (Ends(s) ==> Ends(l))
    && (Ends(l) ==> Ends(s) || gap || ph == SetFlag)
    && (gap ==> Ends(l))
    && (ph == MarkerTry || ph == MarkerWait || ph == SetFlag ==> Ends(l))
    && (ph == Clear ==> Ends(s))
    && (ph == DataTry || ph == DataWait || ph == SetFlag ==> !gap)
  }

  ghost predicate ClientExact(c: State, ph: Phase) {
    Exact(Stream(c), Marked(c.log), c.gap, ph)
  }

  lemma PutMarkerExact(s: seq<Chunk>, l: seq<Chunk>, gap: bool, ph: Phase)
    requires Exact(s, l, gap, ph) && (ph == MarkerTry || ph == MarkerWait)
    ensures Exact(s + [GAP], l, gap, Clear)
  {
    SnocFacts(s, GAP);
  }

  lemma PutDataExact(s: seq<Chunk>, l: seq<Chunk>, gap: bool, ph: Phase, chunk: Chunk)
    requires Exact(s, l, gap, ph) && (ph == DataTry || ph == DataWait) && chunk != GAP
    ensures Exact(s + [chunk], l + [chunk], gap, Off)
  {
    SnocFacts(s, chunk);
    SnocFacts(l, chunk);
  }

  lemma DropExact(s: seq<Chunk>, l: seq<Chunk>, gap: bool, ph: Phase)
    requires Exact(s, l, gap, ph) && (ph == MarkerWait || ph == DataWait)
    ensures Exact(s, l + [GAP], gap, if ph == DataWait then SetFlag else Off)
  {
    SnocFacts(l, GAP);
  }

  /** Stages that put nothing on the channel and decide nothing. */
  lemma QuietExact(s: seq<Chunk>, l: seq<Chunk>, gap: bool, ph: Phase, gap': bool, ph': Phase)
    requires Exact(s, l, gap, ph)
    requires || (ph == Load && gap' == gap && ph' == if gap then MarkerTry else DataTry)
             || (ph == MarkerTry && gap' == gap && ph' == MarkerWait)
             || (ph == DataTry && gap' == gap && ph' == DataWait)
             || (ph == Clear && !gap' && ph' == DataTry)
             || (ph == SetFlag && gap' && ph' == Off)
    ensures Exact(s, l, gap', ph')
  {
  }

  lemma PutDataKeepsExact(c: State, ph: Phase, chunk: Chunk)
    requires ClientExact(c, ph) && (ph == DataTry || ph == DataWait) && chunk != GAP
    ensures ClientExact(PutData(c, chunk), Off)
  {
    hide Exact, Marked, Offered;
    MarkedSnoc(c.log, Enqueued(chunk));
    StreamOf(c, PutData(c, chunk), chunk);
    PutDataExact(Stream(c), Marked(c.log), c.gap, ph, chunk);
  }

  lemma PutMarkerKeepsExact(c: State, ph: Phase)
    requires ClientExact(c, ph) && (ph == MarkerTry || ph == MarkerWait)
    ensures ClientExact(PutMarker(c), Clear)
  {
    hide Exact, Marked;
    StreamOf(c, PutMarker(c), GAP);
    PutMarkerExact(Stream(c), Marked(c.log), c.gap, ph);
  }

  lemma DropKeepsExact(c: State, ph: Phase, chunk: Chunk)
    requires ClientExact(c, ph) && (ph == MarkerWait || ph == DataWait)
    ensures ClientExact(Drop(c, chunk), if ph == DataWait then SetFlag else Off)
  {
    hide Exact, Marked, Offered;
    MarkedSnoc(c.log, Dropped(chunk));
    DropExact(Stream(c), Marked(c.log), c.gap, ph);
  }

  lemma QuietKeepsExact(c: State, ph: Phase, gap': bool, ph': Phase)
    requires ClientExact(c, ph)
    requires || (ph == Load && gap' == c.gap && ph' == if c.gap then MarkerTry else DataTry)
             || (ph == MarkerTry && gap' == c.gap && ph' == MarkerWait)
             || (ph == DataTry && gap' == c.gap && ph' == DataWait)
             || (ph == Clear && !gap' && ph' == DataTry)
             || (ph == SetFlag && gap' && ph' == Off)
    ensures ClientExact(c.(gap := gap'), ph')
  {
    hide Exact;
    QuietExact(Stream(c), Marked(c.log), c.gap, ph, gap', ph');
  }

  /** Every step of the reader keeps the markers exact. */
  lemma ServeKeepsExact(c: State, ph: Phase, mv: ReaderMove, chunk: Chunk)
    requires ClientExact(c, ph) && CanServe(c, ph, mv) && chunk != GAP
    ensures var (c', ph') := Serve(c, ph, mv, chunk); ClientExact(c', ph')
  {
    hide ClientExact, PutData, PutMarker, Drop;
    match mv
    case LoadFlag => QuietKeepsExact(c, ph, c.gap, if c.gap then MarkerTry else DataTry);
    case TryMarker => if Room(c) { PutMarkerKeepsExact(c, ph); } else { QuietKeepsExact(c, ph, c.gap, MarkerWait); }
    case WaitMarker(sent) => if sent { PutMarkerKeepsExact(c, ph); } else { DropKeepsExact(c, ph, chunk); }
    case ClearFlag => QuietKeepsExact(c, ph, false, DataTry);
    case TryData => if Room(c) { PutDataKeepsExact(c, ph, chunk); } else { QuietKeepsExact(c, ph, c.gap, DataWait); }
    case WaitData(sent) => if sent { PutDataKeepsExact(c, ph, chunk); } else { DropKeepsExact(c, ph, chunk); }
    case RaiseFlag => QuietKeepsExact(c, ph, true, Off);
  }

  /** A successful take does no harm: no data was queued after the emptiness
      test, or all that was queued is fenced by markers of its own. */
  predicate Harmless(c: State) {
    || Datas(c.q) == []
    || ((c.q[0] == GAP || Ends(c.delivered)) && Ends(c.q))
  }

  /** The emptiness test still holds where it matters when the flag is taken. */
  predicate Timely(c: State, mv: ConsumerMove) {
    mv.Take? && TakeSucceeds(c) ==> Harmless(c)
  }

  /** `Gaps` of the rest of a stream, read from the front; `after` says whether
      a marker came directly before it. */
  function GapsFrom(after: bool, q: seq<Chunk>): seq<bool>
    decreases |q|
  {
    if q == [] then []
    else if q[0] == GAP then GapsFrom(true, q[1..])
    else [after] + GapsFrom(false, q[1..])
  }

  lemma {:induction false} GapsSplit(d: seq<Chunk>, q: seq<Chunk>)
    ensures Gaps(d + q) == Gaps(d) + GapsFrom(Ends(d), q)
    decreases |q|
  {
    hide Gaps, Datas;
    if q == [] {
      assert d + q == d;
    } else {
      var x, rest := q[0], q[1..];
      assert q == [x] + rest;
      Assoc(d, [x], rest);
      GapsSplit(d + [x], rest);
      SnocFacts(d, x);
      Assoc(Gaps(d), [Ends(d)], GapsFrom(false, rest));
    }
  }

  /** Putting a marker in front of `q` changes nothing for the data of `q`
      unless `q` starts with data that had no marker before it. */
  lemma InsertGap(d: seq<Chunk>, q: seq<Chunk>)
    ensures Gaps(d + [GAP] + q) == Gaps(d + q) <==> q == [] || q[0] == GAP || Ends(d)
    ensures Datas(d + [GAP] + q) == Datas(d + q)
    ensures q != [] ==> Ends(d + [GAP] + q) == Ends(d + q) == Ends(q)
  {
    hide Gaps, Datas;
    GapsSplit(d + [GAP], q);
    GapsSplit(d, q);
    SnocFacts(d, GAP);
    DatasConcat(d + [GAP], q);
    DatasConcat(d, q);
    if q != [] && q[0] != GAP {
      var x, y := [true] + GapsFrom(false, q[1..]), [Ends(d)] + GapsFrom(false, q[1..]);
      assert x[0] != y[0] <==> !Ends(d);
      assert (Gaps(d) + x)[|Gaps(d)|] == x[0] && (Gaps(d) + y)[|Gaps(d)|] == y[0];
    }
  }

  lemma OnlyGapsEnd(d: seq<Chunk>, q: seq<Chunk>)
    ensures Datas(q) == [] ==> Ends(d + [GAP] + q) && (q == [] || q[0] == GAP)
    ensures q == [] ==> Datas(q) == []
  {
    if Datas(q) == [] { OnlyGaps(q); }
  }

  /** A successful take keeps the markers exact if and only if it is harmless. */
  lemma TakeExactIff(c: State, ph: Phase)
    requires ClientExact(c, ph) && c.pc.Taking? && TakeSucceeds(c)
    ensures ClientExact(Consume(c, Take, true), ph) <==> Harmless(c)
  {
    hide Datas, Gaps;
    var c' := Consume(c, Take, true);
    assert Stream(c) == c.delivered + c.q;
    assert Stream(c') == c.delivered + [GAP] + c.q;
    InsertGap(c.delivered, c.q);
    OnlyGapsEnd(c.delivered, c.q);
  }

  /** Every timely step of the consumer keeps the markers exact. */
  lemma ConsumeKeepsExact(c: State, ph: Phase, mv: ConsumerMove, done: bool)
    requires ClientExact(c, ph) && CanConsume(c, mv, done) && Timely(c, mv)
    ensures ClientExact(Consume(c, mv, done), ph)
  {
    if mv.Take? && TakeSucceeds(c) {
      TakeExactIff(c, ph);
    } else {
      StreamKept(c, mv, done);
    }
  }
}
