/** What every client of the pipeline gets, after any run. */
module Delivery {
  import opened Bytes
  import opened Modes
  import opened Scrollback
  import opened Replay
  import opened Pipeline
  import opened PipelineInv
  import C = Client

  // --------------------------------------------------- nothing lost silently

  lemma {:induction false} DatasPlusDrops(log: seq<C.Event>)
    requires C.Nonempty(log)
    ensures |C.Datas(C.Marked(log))| + C.DropCount(log) == |log|
    ensures C.DropCount(log) == 0 ==> C.Datas(C.Marked(log)) == C.Offered(log)
  {
    if log != [] {
      var init, e := log[..|log| - 1], log[|log| - 1];
      assert log == init + [e];
      DatasPlusDrops(init);
      C.MarkedSnoc(init, e);
      C.SnocFacts(C.Marked(init), if e.Enqueued? then e.chunk else C.GAP);
    }
  }

  /** dropCount is the number of chunks offered minus the number enqueued, and
      what was enqueued is what the stream carries, in order. */
  lemma DropsAreCounted(max: nat, w: World, id: Id)
    requires Reachable(max, w) && id in w.clients
    ensures var c := w.clients[id];
            && c.drops == |c.log| - |C.Datas(C.Stream(c))|
            && C.Datas(C.Stream(c)) == C.Datas(C.Marked(c.log))
            && |c.q| <= c.cap
  {
    ReachableClient(max, w, id);
    DatasPlusDrops(w.clients[id].log);
  }

  /** The chunks a client was offered are the chunks read after its snapshot,
      all of them whenever the reader is between chunks of a live session. */
  lemma OffersAreContiguous(max: nat, w: World, id: Id)
    requires Reachable(max, w) && id in w.clients
    ensures id in w.snaps
    ensures var c, from := w.clients[id], w.snaps[id].from;
            && from + |c.log| <= |w.hist|
            && C.Offered(c.log) == w.hist[from..from + |c.log|]
            && (w.reader == Reading && !w.done && !c.removed ==> from + |c.log| == |w.hist|)
  {
    hide Reachable, BufferOk, TrackerOk, SnapOk, C.Sound, OffersOk, Inv, CastOk, ReaderOk;
    ReachableInv(max, w);
    OffersOf(w, id);
  }

  lemma OffersOf(w: World, id: Id)
    requires Inv(w) && id in w.clients
    ensures id in w.snaps
    ensures var c, from := w.clients[id], w.snaps[id].from;
            && from + |c.log| <= |w.hist|
            && C.Offered(c.log) == w.hist[from..from + |c.log|]
            && (w.reader == Reading && !w.done && !c.removed ==> from + |c.log| == |w.hist|)
  {
    hide BufferOk, TrackerOk, SnapOk, C.Sound, EndingOk, MessagesOk;
    assert ClientOk(w, id);
  }

  lemma SuffixThenMore(s: seq<byte>, x: seq<byte>, y: seq<byte>)
    requires IsSuffix(s, x)
    ensures IsSuffix(s + y, x + y)
  {
    assert (x + y)[|x| - |s|..] == s + y;
  }

  /** Everything the client was or will be sent besides the preamble. */
  function Received(w: World, id: Id): seq<byte>
    requires id in w.clients && id in w.snaps
  {
    w.snaps[id].scroll + Flat(C.Datas(C.Stream(w.clients[id])))
  }

  lemma LiveData(w: World, id: Id)
    requires id in w.clients && id in w.snaps && C.Sound(w.clients[id]) && OffersOk(w, id) && w.clients[id].drops == 0
    ensures var from, n := w.snaps[id].from, |w.clients[id].log|;
            && from + n <= |w.hist|
            && Flat(C.Datas(C.Stream(w.clients[id]))) == Span(w.hist, from, from + n)
  {
    DatasPlusDrops(w.clients[id].log);
  }

  lemma SnapFacts(w: World, id: Id)
    requires id in w.clients && id in w.snaps && ClientOk(w, id)
    ensures var c, snap := w.clients[id], w.snaps[id];
            && C.Sound(c) && OffersOk(w, id)
            && snap.tracked <= snap.from <= snap.from + |c.log| <= |w.hist| && snap.from <= snap.tracked + 1
            && IsScroll(Span(w.hist, 0, snap.from), snap.scroll, w.max)
            && c.replay == Preamble(Tracked(Span(w.hist, 0, snap.tracked))) + snap.scroll
  {
    hide C.Sound, MessagesOk, EndingOk, Preamble, Tracked, Span, IsScroll;
  }

  lemma ReceivedIsSuffix(w: World, id: Id)
    requires id in w.clients && id in w.snaps && ClientOk(w, id) && w.clients[id].drops == 0
    ensures IsSuffix(Received(w, id), Output(w, w.snaps[id].from + |w.clients[id].log|))
  {
    hide ClientOk, OffersOk, C.Sound, C.Datas, C.Stream, Preamble, Tracked, Span, Flat, IsScroll, IsSuffix;
    SnapFacts(w, id);
    LiveData(w, id);
    var snap, n := w.snaps[id], |w.clients[id].log|;
    SpanConcat(w.hist, 0, snap.from, snap.from + n);
    ScrollIsSuffix(Span(w.hist, 0, snap.from), snap.scroll, w.max);
    SuffixThenMore(snap.scroll, Span(w.hist, 0, snap.from), Span(w.hist, snap.from, snap.from + n));
  }

  /** Snapshot plus live data of a client without drops is a suffix of all
      output so far: no hole, no duplicate, and the right end. */
  lemma NoHoleNoDuplicate(max: nat, w: World, id: Id)
    requires Reachable(max, w) && id in w.clients && w.clients[id].drops == 0
    ensures id in w.snaps
    ensures IsSuffix(Received(w, id), Output(w, w.snaps[id].from + |w.clients[id].log|))
    ensures w.reader == Reading && !w.done && !w.clients[id].removed ==> IsSuffix(Received(w, id), Flat(w.hist))
  {
    hide ClientOk, Reachable, IsSuffix, Span, Flat, C.Datas, C.Stream;
    ReachableClient(max, w, id);
    ReceivedIsSuffix(w, id);
    OffersAreContiguous(max, w, id);
    SpanAll(w.hist);
  }

  /** Replay messages are at most 1 MiB each and, once all are sent, concatenate
      to the preamble of the tracked modes plus the snapshot of the buffer. */
  lemma ReplayIsWhole(max: nat, w: World, id: Id)
    requires Reachable(max, w) && id in w.clients
    ensures id in w.snaps
    ensures forall k :: 0 <= k < |w.clients[id].messages| ==> |w.clients[id].messages[k]| <= 0x10_0000
    ensures !w.clients[id].pc.Replaying? && w.clients[id].pc != C.Returned(C.ReplayFailed) ==>
              Flat(w.clients[id].messages) == Preamble(Tracked(Output(w, w.snaps[id].tracked))) + w.snaps[id].scroll
  {
    ReachableClient(max, w, id);
    hide C.Sound, Preamble, OffersOk;
  }

  // ----------------------------------------------------- modes at attach

  /** Everything the terminal of a client was or will be sent. */
  function Sent(w: World, id: Id): seq<byte>
    requires id in w.clients
  {
    w.clients[id].replay + Flat(C.Datas(C.Stream(w.clients[id])))
  }

  /** The snapshot holds all output up to the attach. */
  ghost predicate Untrimmed(w: World, id: Id)
    requires id in w.snaps
  {
    w.snaps[id].scroll == Output(w, w.snaps[id].from)
  }

  lemma RestIsSmall(w: World, snap: Snapshot)
    requires BufferOk(w) && snap.tracked <= snap.from <= |w.hist| && snap.from <= snap.tracked + 1
    ensures |Span(w.hist, snap.tracked, snap.from)| <= READ_SIZE
  {
    if snap.tracked < snap.from { SpanOne(w.hist, snap.tracked); }
  }

  lemma {:induction false} ReplayAgrees(
    prior: seq<byte>, rest: seq<byte>, live: seq<byte>, scroll: seq<byte>, replay: seq<byte>, max: nat)
    requires IsScroll(prior + rest, scroll, max)
    requires scroll == prior + rest || max >= |rest| + LOOKBACK
    requires replay == Preamble(Tracked(prior)) + scroll
    ensures SameModes(Shown(replay + live), Tracked(prior + rest + live))
  {
    hide Preamble, Shown, Tracked, IsScroll, SameModes;
    AttachAgrees(prior, rest, scroll, live, max);
  }

  /** The history up to the last chunk offered, in its three parts: tracked at
      the attach, appended but not yet tracked, and live. */
  lemma {:induction false} SnapshotParts(w: World, id: Id) returns (prior: seq<byte>, rest: seq<byte>, live: seq<byte>)
    requires BufferOk(w) && id in w.clients && id in w.snaps && ClientOk(w, id)
    requires w.clients[id].drops == 0
    requires w.max >= READ_SIZE + LOOKBACK || Untrimmed(w, id)
    ensures IsScroll(prior + rest, w.snaps[id].scroll, w.max)
    ensures w.snaps[id].scroll == prior + rest || w.max >= |rest| + LOOKBACK
    ensures w.clients[id].replay == Preamble(Tracked(prior)) + w.snaps[id].scroll
    ensures Flat(C.Datas(C.Stream(w.clients[id]))) == live
    ensures Output(w, w.snaps[id].from + |w.clients[id].log|) == prior + rest + live
  {
    hide ClientOk, OffersOk, C.Sound, C.Datas, C.Stream, Preamble, Tracked, Span, Flat, IsScroll;
    SnapFacts(w, id);
    LiveData(w, id);
    var snap, n := w.snaps[id], |w.clients[id].log|;
    prior, rest := Span(w.hist, 0, snap.tracked), Span(w.hist, snap.tracked, snap.from);
    live := Span(w.hist, snap.from, snap.from + n);
    SpanConcat(w.hist, 0, snap.tracked, snap.from);
    SpanConcat(w.hist, 0, snap.from, snap.from + n);
    RestIsSmall(w, snap);
  }

  lemma {:induction false} SnapshotAgrees(w: World, id: Id)
    requires BufferOk(w) && id in w.clients && id in w.snaps && ClientOk(w, id)
    requires w.clients[id].drops == 0
    requires w.max >= READ_SIZE + LOOKBACK || Untrimmed(w, id)
    ensures SameModes(Shown(Sent(w, id)), Tracked(Output(w, w.snaps[id].from + |w.clients[id].log|)))
  {
    var prior, rest, live := SnapshotParts(w, id);
    hide ClientOk, BufferOk, Flat, C.Datas, C.Stream, Preamble, Shown, Tracked, IsScroll, SameModes, Untrimmed, Output;
    ReplayAgrees(prior, rest, live, w.snaps[id].scroll, w.clients[id].replay, w.max);
  }

  /** The headline: a fresh terminal fed replay and live output of a client
      without drops has the session's effective modes whenever the reader is
      between chunks - wherever the attach fell, even between the append of a
      chunk and its mode update - provided the scrollback can hold one read
      plus 34 bytes, or had not been trimmed at the attach. */
  lemma TerminalAgreesWithSession(max: nat, w: World, id: Id)
    requires Reachable(max, w) && id in w.clients && id in w.snaps
    requires w.clients[id].drops == 0 && !w.clients[id].removed
    requires w.reader == Reading && !w.done
    requires max >= 4130 || Untrimmed(w, id)
    ensures SameModes(Shown(Sent(w, id)), w.modes)
  {
    hide SameModes, Shown, Tracked, ClientOk;
    ReachableInv(max, w);
    ReachableClient(max, w, id);
    SnapshotAgrees(w, id);
    OffersAreContiguous(max, w, id);
    SpanAll(w.hist);
  }

  // ------------------------------------------------------------ shutdown

  /** No chunk or marker is ever sent to a channel that was closed. */
  lemma NoSendOnClosed(max: nat, w: World, mv: C.ReaderMove)
    requires Reachable(max, w) && Enabled(w, Reader(mv))
    ensures !w.clients[w.reader.cur.value.0].removed
  {
    ReachableInv(max, w);
  }

  /** A handler that ended because its channel was closed, or that drained after
      the reader's own exit, has delivered everything that was ever enqueued for
      its client, in order, whichever ready case its select picked. */
  lemma NaturalExitDeliversAll(max: nat, w: World, id: Id)
    requires Reachable(max, w) && id in w.clients
    requires w.clients[id].pc == C.Returned(C.Closed) || (w.clients[id].pc == C.Returned(C.Drained) && !w.closing)
    ensures w.clients[id].delivered == C.Stream(w.clients[id])
    ensures C.Datas(w.clients[id].delivered) == C.Datas(C.Marked(w.clients[id].log))
  {
    ReachableClient(max, w, id);
    hide SnapOk, OffersOk, C.Datas;
    assert C.Stream(w.clients[id]) == w.clients[id].delivered;
  }

  /** ... and with no drops, what it was sent ends exactly where the output ends. */
  lemma NaturalExitIsComplete(max: nat, w: World, id: Id)
    requires Reachable(max, w) && id in w.clients
    requires w.done && !w.closing && w.clients[id].pc == C.Returned(C.Drained)
    requires w.clients[id].drops == 0 && !w.clients[id].removed
    ensures id in w.snaps
    ensures IsSuffix(w.snaps[id].scroll + Flat(C.Datas(w.clients[id].delivered)), Flat(w.hist))
  {
    hide ClientOk, Reachable, IsSuffix, Span, Flat, C.Datas, C.Stream, Inv;
    NaturalExitDeliversAll(max, w, id);
    ReachableClient(max, w, id);
    ReceivedIsSuffix(w, id);
    OfferedAll(max, w, id);
    SpanAll(w.hist);
  }

  lemma OfferedAll(max: nat, w: World, id: Id)
    requires Reachable(max, w) && id in w.clients && w.done && !w.closing && !w.clients[id].removed
    ensures id in w.snaps && w.snaps[id].from + |w.clients[id].log| == |w.hist|
  {
    ReachableClient(max, w, id);
    hide SnapOk, C.Sound, MessagesOk, BufferOk, TrackerOk;
    ReachableInv(max, w);
  }
}
