/** Every step of the pipeline keeps its invariant. */
module PipelineInv {
  import opened Wrappers
  import opened Bytes
  import opened Modes
  import opened Resync
  import opened Scrollback
  import opened Replay
  import opened Pipeline
  import C = Client

  lemma StartInv(max: nat)
    requires max >= 1
    ensures Inv(Start(max))
  {
    assert CutAt([], [], max, 0, 0);
  }

  /** What ClientOk reads besides the client itself is unchanged. */
  lemma Unchanged(w: World, w': World, id: Id)
    requires id in w.clients && w.clients.Keys == w.snaps.Keys && ClientOk(w, id)
    requires w'.clients == w.clients && w'.snaps == w.snaps && w'.hist == w.hist && w'.max == w.max
    requires w.done ==> w'.done
    requires w.closing ==> w'.closing
    requires CastOk(w) && ReaderOk(w)
    requires !w.clients[id].removed ==> Upto(w', id) == Upto(w, id)
    requires (w'.reader.Appended? || w'.reader.Locking? || w'.reader.Serving?) ==>
             (w.reader.Appended? || w.reader.Locking? || w.reader.Serving?)
    ensures ClientOk(w', id)
  {
    hide C.Sound, SnapOk, MessagesOk;
  }

  lemma GlobalsFramed(w: World, w': World)
    requires BufferOk(w) && TrackerOk(w)
    requires w'.max == w.max && w'.buffer == w.buffer && w'.hist == w.hist
    requires w'.parser == w.parser && w'.modes == w.modes
    requires InFlight(w'.reader) == InFlight(w.reader)
    requires InFlight(w.reader) ==> w'.reader.chunk == w.reader.chunk
    ensures BufferOk(w') && TrackerOk(w')
  {
  }

  // -------------------------------------------------------------- Read

  lemma SnapGrows(hist: seq<Chunk>, chunk: Chunk, max: nat, snap: Snapshot, replay: seq<byte>)
    requires SnapOk(hist, max, snap, replay)
    ensures SnapOk(hist + [chunk], max, snap, replay)
  {
    hide Span, Preamble, IsScroll, Tracked;
    SpanGrows(hist, chunk, 0, snap.from);
    SpanGrows(hist, chunk, 0, snap.tracked);
  }

  lemma OffersGrow(w: World, chunk: Chunk, id: Id)
    requires id in w.clients && id in w.snaps && OffersOk(w, id)
    requires Enabled(w, Read(chunk))
    ensures OffersOk(Do(w, Read(chunk)), id)
  {
    var w' := Do(w, Read(chunk));
    var c, snap := w.clients[id], w.snaps[id];
    assert w'.hist[snap.from..snap.from + |c.log|] == w.hist[snap.from..snap.from + |c.log|];
    assert Upto(w', id) == Upto(w, id) == w.cast;
  }

  lemma ReadClient(w: World, chunk: Chunk, id: Id)
    requires Inv(w) && Enabled(w, Read(chunk)) && id in w.clients
    ensures ClientOk(Do(w, Read(chunk)), id)
  {
    assert ClientOk(w, id);
    hide C.Sound, SnapOk, MessagesOk, OffersOk, BufferOk, TrackerOk;
    SnapGrows(w.hist, chunk, w.max, w.snaps[id], w.clients[id].replay);
    OffersGrow(w, chunk, id);
  }

  lemma ReadGlobals(w: World, chunk: Chunk)
    requires BufferOk(w) && TrackerOk(w) && Enabled(w, Read(chunk))
    ensures BufferOk(Do(w, Read(chunk))) && TrackerOk(Do(w, Read(chunk)))
  {
    hide IsScroll, Flat, Trim, Span, Run, Tracked;
    FlatSnoc(w.hist, chunk);
    AppendCut(Flat(w.hist), w.buffer, w.max, chunk);
    SpanGrows(w.hist, chunk, 0, |w.hist|);
  }

  lemma ReadInv(w: World, chunk: Chunk)
    requires Inv(w) && Enabled(w, Read(chunk))
    ensures Inv(Do(w, Read(chunk)))
  {
    hide ClientOk, BufferOk, TrackerOk;
    ReadGlobals(w, chunk);
    var w' := Do(w, Read(chunk));
    forall id | id in w'.clients ensures ClientOk(w', id) { ReadClient(w, chunk, id); }
  }

  // -------------------------------------- the reader's lock and bookkeeping steps

  /** Steps that move neither a client nor the buffer nor the tracker. */
  predicate Bookkeeping(a: Action) {
    a.CheckDone? || a.Lock? || a.Pick? || a.EndBroadcast? || a.Exit? || a.Close?
  }

  lemma BookkeepingInv(w: World, a: Action)
    requires Inv(w) && Bookkeeping(a) && Enabled(w, a)
    ensures Inv(Do(w, a))
  {
    hide ClientOk, BufferOk, TrackerOk;
    var w' := Do(w, a);
    GlobalsFramed(w, w');
    forall id | id in w'.clients ensures ClientOk(w', id) { Unchanged(w, w', id); }
  }

  lemma TrackChunk(hist: seq<Chunk>, n: nat)
    requires n < |hist|
    ensures Run(Run(Ground, Span(hist, 0, n)), hist[n]) == Run(Ground, Span(hist, 0, n + 1))
    ensures After(Tracked(Span(hist, 0, n)), Run(Ground, Span(hist, 0, n)), hist[n]) == Tracked(Span(hist, 0, n + 1))
  {
    SpanConcat(hist, 0, n, n + 1);
    SpanOne(hist, n);
    RunConcat(Ground, Span(hist, 0, n), hist[n]);
    AfterConcat(FRESH, Ground, Span(hist, 0, n), hist[n]);
  }

  lemma UpdateModesTracker(w: World)
    requires BufferOk(w) && TrackerOk(w) && w.reader.Updating?
    ensures BufferOk(Do(w, UpdateModes)) && TrackerOk(Do(w, UpdateModes))
  {
    hide Run, After, IsScroll, ChunksUpTo, Span;
    TrackChunk(w.hist, |w.hist| - 1);
  }

  lemma UpdateModesInv(w: World)
    requires Inv(w) && Enabled(w, UpdateModes)
    ensures Inv(Do(w, UpdateModes))
  {
    UpdateModesTracker(w);
    hide ClientOk, BufferOk, TrackerOk;
    var w' := Do(w, UpdateModes);
    forall id | id in w'.clients ensures ClientOk(w', id) { Unchanged(w, w', id); }
  }

  // ------------------------------------------------------------ broadcast

  /** The reader is serving client `id` in phase `ph`. */
  ghost predicate ServingAt(w: World, id: Id, ph: C.Phase) {
    w.reader.Serving? && w.reader.cur == Some((id, ph)) && id in w.clients && id in w.snaps
  }

  lemma OneMoreOffer(hist: seq<Chunk>, from: nat, log: seq<C.Event>, e: C.Event)
    requires from + |log| + 1 <= |hist| && e.chunk == hist[from + |log|]
    requires C.Offered(log) == hist[from..from + |log|]
    ensures C.Offered(log + [e]) == hist[from..from + |log + [e]|]
  {
    C.MarkedSnoc(log, e);
    assert hist[from..from + |log| + 1] == hist[from..from + |log|] + [e.chunk];
  }

  lemma ServedOffers(w: World, id: Id, ph: C.Phase, mv: C.ReaderMove)
    requires ServingAt(w, id, ph) && CastOk(w) && !w.clients[id].removed && id !in w.reader.todo
    requires w.hist != [] && w.reader.chunk == w.hist[|w.hist| - 1]
    requires OffersOk(w, id) && C.CanServe(w.clients[id], ph, mv)
    ensures OffersOk(ServeClient(w, id, C.Serve(w.clients[id], ph, mv, w.reader.chunk)), id)
  {
    hide C.Serve, C.CanServe, C.Offered;
    var c, chunk, snap := w.clients[id], w.reader.chunk, w.snaps[id];
    var c' := C.Serve(c, ph, mv, chunk).0;
    ServeLogs(c, ph, mv, chunk);
    if c'.log != c.log {
      OneMoreOffer(w.hist, snap.from, c.log, c'.log[|c.log|]);
    }
  }

  /** The chunk meets its fate exactly once: on the way out of the data or
      marker sends, before the flag is raised. */
  lemma ServeLogs(c: C.State, ph: C.Phase, mv: C.ReaderMove, chunk: Chunk)
    requires C.CanServe(c, ph, mv)
    ensures var (c', ph') := C.Serve(c, ph, mv, chunk);
            && c'.removed == c.removed && c'.pc == c.pc && c'.messages == c.messages && c'.replay == c.replay
            && (c'.log == c.log || c'.log == c.log + [C.Enqueued(chunk)] || c'.log == c.log + [C.Dropped(chunk)])
            && (c'.log != c.log <==> ph != C.SetFlag && (ph' == C.Off || ph' == C.SetFlag))
            && (ph == C.SetFlag ==> ph' == C.Off)
  {
  }

  lemma ServedClient(w: World, id: Id, ph: C.Phase, mv: C.ReaderMove)
    requires ServingAt(w, id, ph) && CastOk(w) && ReaderOk(w) && BufferOk(w)
    requires ClientOk(w, id) && C.CanServe(w.clients[id], ph, mv)
    ensures ClientOk(ServeClient(w, id, C.Serve(w.clients[id], ph, mv, w.reader.chunk)), id)
  {
    hide C.Sound, SnapOk, OffersOk, C.Serve, C.CanServe;
    C.ServeKeepsSound(w.clients[id], ph, mv, w.reader.chunk);
    ServeLogs(w.clients[id], ph, mv, w.reader.chunk);
    ServedOffers(w, id, ph, mv);
  }

  lemma ReaderInv(w: World, mv: C.ReaderMove)
    requires Inv(w) && Enabled(w, Reader(mv))
    ensures Inv(Do(w, Reader(mv)))
  {
    var (id, ph) := w.reader.cur.value;
    ServedInv(w, id, ph, mv);
  }

  lemma ServedInv(w: World, id: Id, ph: C.Phase, mv: C.ReaderMove)
    requires Inv(w) && ServingAt(w, id, ph) && C.CanServe(w.clients[id], ph, mv)
    ensures Inv(ServeClient(w, id, C.Serve(w.clients[id], ph, mv, w.reader.chunk)))
  {
    hide ClientOk, BufferOk, TrackerOk, C.Serve, C.CanServe;
    assert ClientOk(w, id);
    ServedClient(w, id, ph, mv);
    ServeLogs(w.clients[id], ph, mv, w.reader.chunk);
    var next := C.Serve(w.clients[id], ph, mv, w.reader.chunk);
    var w' := ServeClient(w, id, next);
    GlobalsFramed(w, w');
    assert Registered(w') == Registered(w);
    forall other | other in w'.clients ensures ClientOk(w', other) {
      if other != id { assert ClientOk(w, other); OtherClient(w, w', other); }
    }
  }

  /** A step on one client leaves every other client alone. */
  lemma OtherClient(w: World, w': World, id: Id)
    requires id in w.clients && id in w.snaps && ClientOk(w, id)
    requires id in w'.clients && id in w'.snaps && w'.clients[id] == w.clients[id] && w'.snaps[id] == w.snaps[id]
    requires w'.hist == w.hist && w'.max == w.max && w'.done == w.done && w'.closing == w.closing
    requires w'.cast == w.cast && Upto(w', id) == Upto(w, id)
    requires (w'.reader.Appended? || w'.reader.Locking? || w'.reader.Serving?) ==>
             (w.reader.Appended? || w.reader.Locking? || w.reader.Serving?)
    ensures ClientOk(w', id)
  {
    hide C.Sound, SnapOk, MessagesOk;
  }

  /** A step that changes one client only, not whether it is registered or,
      when it is being removed, outside a broadcast. */
  lemma OneClientInv(w: World, id: Id, c: C.State)
    requires Inv(w) && id in w.clients
    requires c.removed == w.clients[id].removed || !w.reader.Serving?
    requires ClientOk(SetClient(w, id, c), id)
    ensures Inv(SetClient(w, id, c))
  {
    hide ClientOk, BufferOk, TrackerOk;
    var w' := SetClient(w, id, c);
    GlobalsFramed(w, w');
    if w.reader.Serving? { assert Registered(w') == Registered(w); }
    forall other | other in w'.clients ensures ClientOk(w', other) {
      if other != id { assert ClientOk(w, other); OtherClient(w, w', other); }
    }
  }

  // -------------------------------------------------- attach, detach, consume

  lemma AttachedSnap(w: World)
    requires BufferOk(w) && TrackerOk(w) && BufferFree(w)
    ensures SnapOk(w.hist, w.max, Snapshot(|w.hist|, TrackedCount(w), w.buffer), ReplayOf(w))
  {
    SpanAll(w.hist);
    TrackedOk(Span(w.hist, 0, TrackedCount(w)));
  }

  lemma AttachedClient(w: World, id: Id, cap: nat)
    requires BufferOk(w) && TrackerOk(w) && ReaderOk(w) && CastOk(w) && BufferFree(w)
    requires id !in w.clients && id !in w.snaps && cap >= 1
    ensures ClientOk(AttachClient(w, id, cap), id)
  {
    hide SnapOk, OffersOk, MessagesOk, BufferOk, TrackerOk, ReplayOf, C.Sound, C.Attached, C.Exact;
    C.AttachedSound(cap, ReplayOf(w));
    AttachedSnap(w);
    NewClientIdle(cap, ReplayOf(w));
    AttachedOffers(w, id, cap);
  }

  lemma AttachedOffers(w: World, id: Id, cap: nat)
    requires CastOk(w) && BufferFree(w) && id !in w.clients && id !in w.snaps
    ensures OffersOk(AttachClient(w, id, cap), id)
  {
    hide C.Attached, C.Offered, MessagesOk;
    NewClientIdle(cap, ReplayOf(w));
    hide ReplayOf;
    assert w.hist[|w.hist|..|w.hist|] == [];
  }

  lemma NewClientIdle(cap: nat, replay: seq<byte>)
    ensures var c := C.Attached(cap, replay);
            && MessagesOk(c) && c.log == [] && C.Offered(c.log) == [] && c.replay == replay
            && c.pc == C.Replaying(0) && !c.removed
  {
    assert Flat<byte>([]) == [];
    assert replay[..0] == [];
  }

  lemma AttachedInv(w: World, id: Id, cap: nat)
    requires Inv(w) && BufferFree(w) && id !in w.clients && cap >= 1
    ensures Inv(AttachClient(w, id, cap))
  {
    hide ClientOk, BufferOk, TrackerOk, ReplayOf, TrackedCount, C.Attached;
    AttachedClient(w, id, cap);
    var w' := AttachClient(w, id, cap);
    GlobalsFramed(w, w');
    forall other | other in w'.clients ensures ClientOk(w', other) {
      if other != id { OldClient(w, id, cap, other); }
    }
  }

  lemma OldClient(w: World, id: Id, cap: nat, other: Id)
    requires other in w.clients && other in w.snaps && ClientOk(w, other) && other != id && BufferFree(w)
    ensures ClientOk(AttachClient(w, id, cap), other)
  {
    hide ClientOk, ReplayOf, TrackedCount, C.Attached;
    OtherClient(w, AttachClient(w, id, cap), other);
  }

  lemma AttachInv(w: World, id: Id, cap: nat)
    requires Inv(w) && Enabled(w, Attach(id, cap))
    ensures Inv(Do(w, Attach(id, cap)))
  {
    AttachedInv(w, id, cap);
  }

  lemma RemovedClient(w: World, id: Id)
    requires id in w.clients && id in w.snaps && ClientOk(w, id)
    ensures ClientOk(SetClient(w, id, w.clients[id].(removed := true)), id)
  {
    hide SnapOk, MessagesOk;
    var c := w.clients[id];
    assert C.Stream(c.(removed := true)) == C.Stream(c);
    assert MessagesOk(c) == MessagesOk(c.(removed := true)) by { SameMessages(c, c.(removed := true)); }
  }

  lemma SameMessages(c: C.State, c': C.State)
    requires c'.pc == c.pc && c'.messages == c.messages && c'.replay == c.replay
    ensures MessagesOk(c) == MessagesOk(c')
  {
  }

  lemma RemoveInv(w: World, gone: Id)
    requires Inv(w) && Enabled(w, Remove(gone))
    ensures Inv(Do(w, Remove(gone)))
  {
    hide ClientOk, BufferOk, TrackerOk;
    assert ClientOk(w, gone);
    RemovedClient(w, gone);
    OneClientInv(w, gone, w.clients[gone].(removed := true));
  }

  lemma SendReplayMessages(c: C.State, ok: bool)
    requires c.pc.Replaying? && MessagesOk(c)
    ensures MessagesOk(C.SendReplayStep(c, ok))
  {
    var off := c.pc.off;
    if off < |c.replay| && ok {
      var end := C.Min(off + C.REPLAY_CHUNK_SIZE, |c.replay|);
      FlatSnoc(c.messages, c.replay[off..end]);
      assert c.replay[..off] + c.replay[off..end] == c.replay[..end];
    } else if off >= |c.replay| {
      assert c.replay[..|c.replay|] == c.replay;
    }
  }

  lemma ConsumedEnding(w: World, c: C.State, mv: C.ConsumerMove)
    requires EndingOk(w, c) && C.CanConsume(c, mv, w.done)
    ensures EndingOk(w, C.Consume(c, mv, w.done))
  {
  }

  lemma ConsumedMessages(c: C.State, mv: C.ConsumerMove, done: bool)
    requires C.CanConsume(c, mv, done) && MessagesOk(c)
    ensures MessagesOk(C.Consume(c, mv, done))
  {
    if mv.SendReplay? {
      SendReplayMessages(c, mv.ok);
    }
  }

  lemma ConsumeFrame(c: C.State, mv: C.ConsumerMove, done: bool)
    requires C.CanConsume(c, mv, done)
    ensures var c' := C.Consume(c, mv, done); c'.removed == c.removed && c'.log == c.log && c'.replay == c.replay
  {
  }

  lemma ConsumerClient(w: World, id: Id, mv: C.ConsumerMove)
    requires id in w.clients && id in w.snaps && ClientOk(w, id) && C.CanConsume(w.clients[id], mv, w.done)
    ensures ClientOk(SetClient(w, id, C.Consume(w.clients[id], mv, w.done)), id)
  {
    hide C.Sound, SnapOk, MessagesOk, EndingOk, C.Consume, C.CanConsume;
    var c := w.clients[id];
    C.ConsumeKeepsSound(c, mv, w.done);
    ConsumedMessages(c, mv, w.done);
    ConsumedEnding(w, c, mv);
    ConsumeFrame(c, mv, w.done);
    SameEnding(w, SetClient(w, id, C.Consume(c, mv, w.done)), C.Consume(c, mv, w.done));
  }

  lemma SameEnding(w: World, w': World, c: C.State)
    requires EndingOk(w, c) && w'.done == w.done && w'.closing == w.closing
    ensures EndingOk(w', c)
  {
  }

  lemma ConsumerInv(w: World, who: Id, mv: C.ConsumerMove)
    requires Inv(w) && Enabled(w, Consumer(who, mv))
    ensures Inv(Do(w, Consumer(who, mv)))
  {
    hide ClientOk, BufferOk, TrackerOk, C.Consume, C.CanConsume;
    assert ClientOk(w, who);
    ConsumerClient(w, who, mv);
    ConsumeFrame(w.clients[who], mv, w.done);
    OneClientInv(w, who, C.Consume(w.clients[who], mv, w.done));
  }

  /** Every step keeps the invariant. */
  lemma StepInv(w: World, a: Action)
    requires Inv(w) && Enabled(w, a)
    ensures Inv(Do(w, a))
  {
    match a
    case Read(chunk) => ReadInv(w, chunk);
    case Reader(mv) => ReaderInv(w, mv);
    case UpdateModes => UpdateModesInv(w);
    case Attach(id, cap) => AttachInv(w, id, cap);
    case Remove(id) => RemoveInv(w, id);
    case Consumer(id, mv) => ConsumerInv(w, id, mv);
    case _ => BookkeepingInv(w, a);
  }

  lemma {:induction false} RunInv(max: nat, acts: seq<Action>)
    requires max >= 1 && Reach(max, acts).Some?
    ensures Inv(Reach(max, acts).value) && Reach(max, acts).value.max == max
  {
    if acts == [] {
      StartInv(max);
    } else {
      RunInv(max, acts[..|acts| - 1]);
      StepInv(Reach(max, acts[..|acts| - 1]).value, acts[|acts| - 1]);
      DoKeepsMax(Reach(max, acts[..|acts| - 1]).value, acts[|acts| - 1]);
    }
  }

  lemma DoKeepsMax(w: World, a: Action)
    requires Enabled(w, a)
    ensures Do(w, a).max == w.max
  {
    hide C.Consume, C.Serve, C.CanServe, C.CanConsume, Trim, Run, After;
  }

  /** The invariant holds after every run, whatever the interleaving. */
  lemma ReachableInv(max: nat, w: World)
    requires Reachable(max, w)
    ensures Inv(w) && w.max == max
  {
    var acts :| Reach(max, acts) == Some(w);
    RunInv(max, acts);
  }

  lemma ReachableClient(max: nat, w: World, id: Id)
    requires Reachable(max, w) && id in w.clients
    ensures id in w.snaps && ClientOk(w, id)
  {
    hide ClientOk;
    ReachableInv(max, w);
  }
}
