/** A concrete run in which the emptiness test and TakeOutputGap
    (internal/server/server.go:670) are separated by a whole bounded wait: the
    marker comes out one chunk early and the real gap is not marked. */
module GapRace {
  import opened Wrappers
  import opened Bytes
  import opened Modes
  import opened Pipeline
  import opened PipelineInv
  import C = Client

  const A: Chunk := [65]
  const X: Chunk := [88]
  const Y: Chunk := [89]
  const Z: Chunk := [90]

  /** The run `acts` leaves the reader between chunks of a live session whose
      only client is `c`. */
  ghost predicate IdleAt(max: nat, acts: seq<Action>, c: C.State) {
    && Reach(max, acts).Some?
    && var w := Reach(max, acts).value;
    && w.reader == Reading && !w.done && w.clients == map[0 := c] && !c.removed
  }

  lemma {:induction false} Extend(max: nat, acts: seq<Action>, a: Action) returns (more: seq<Action>)
    requires Reach(max, acts).Some? && Enabled(Reach(max, acts).value, a)
    ensures Reach(max, more) == Some(Do(Reach(max, acts).value, a))
  {
    more := acts + [a];
    assert more[..|more| - 1] == acts;
  }

  lemma Consume(max: nat, acts: seq<Action>, c: C.State, mv: C.ConsumerMove) returns (more: seq<Action>)
    requires IdleAt(max, acts, c) && C.CanConsume(c, mv, false)
    ensures IdleAt(max, more, C.Consume(c, mv, false))
  {
    ConsumeFrame(c, mv, false);
    hide C.Consume, C.CanConsume;
    more := Extend(max, acts, Consumer(0, mv));
  }

  /** The reader reads `chunk` and arrives at the only client. */
  lemma Begin(max: nat, acts: seq<Action>, c: C.State, chunk: Chunk) returns (more: seq<Action>)
    requires IdleAt(max, acts, c) && 1 <= |chunk| <= READ_SIZE
    ensures ServingOnly(max, more, c, chunk, C.Load)
  {
    more := Extend(max, acts, Read(chunk));
    more := Extend(max, more, CheckDone);
    more := Extend(max, more, Lock);
    assert Registered(Reach(max, more).value) == {0};
    more := Extend(max, more, Pick(0));
  }

  /** The reader is at the only client, in phase `ph`. */
  ghost predicate ServingOnly(max: nat, acts: seq<Action>, c: C.State, chunk: Chunk, ph: C.Phase) {
    && Reach(max, acts).Some?
    && var w := Reach(max, acts).value;
    && w.reader == Serving(chunk, {}, if ph == C.Off then None else Some((0, ph)))
    && !w.done && w.clients == map[0 := c] && !c.removed
  }

  lemma ServeOnly(max: nat, acts: seq<Action>, c: C.State, chunk: Chunk, ph: C.Phase, mv: C.ReaderMove)
    returns (more: seq<Action>)
    requires ServingOnly(max, acts, c, chunk, ph) && ph != C.Off && C.CanServe(c, ph, mv)
    ensures var (c', ph') := C.Serve(c, ph, mv, chunk); ServingOnly(max, more, c', chunk, ph')
  {
    ServeLogs(c, ph, mv, chunk);
    hide C.Serve, C.CanServe;
    more := Extend(max, acts, Reader(mv));
  }

  lemma Finish(max: nat, acts: seq<Action>, c: C.State, chunk: Chunk) returns (more: seq<Action>)
    requires ServingOnly(max, acts, c, chunk, C.Off)
    ensures IdleAt(max, more, c)
  {
    more := Extend(max, acts, EndBroadcast);
    more := Extend(max, more, UpdateModes);
  }

  lemma Offer(max: nat, acts: seq<Action>, c: C.State, chunk: Chunk) returns (more: seq<Action>)
    requires IdleAt(max, acts, c) && 1 <= |chunk| <= READ_SIZE && !c.gap && C.Room(c)
    ensures IdleAt(max, more, C.PutData(c, chunk))
  {
    more := Begin(max, acts, c, chunk);
    more := ServeOnly(max, more, c, chunk, C.Load, C.LoadFlag);
    more := ServeOnly(max, more, c, chunk, C.DataTry, C.TryData);
    more := Finish(max, more, C.PutData(c, chunk), chunk);
  }

  lemma OfferInVain(max: nat, acts: seq<Action>, c: C.State, chunk: Chunk) returns (more: seq<Action>)
    requires IdleAt(max, acts, c) && 1 <= |chunk| <= READ_SIZE && !c.gap && !C.Room(c)
    ensures IdleAt(max, more, C.Drop(c, chunk).(gap := true))
  {
    more := Begin(max, acts, c, chunk);
    hide ServingOnly, IdleAt;
    more := ServeOnly(max, more, c, chunk, C.Load, C.LoadFlag);
    more := ServeOnly(max, more, c, chunk, C.DataTry, C.TryData);
    more := GiveUp(max, more, c, chunk);
  }

  lemma GiveUp(max: nat, acts: seq<Action>, c: C.State, chunk: Chunk) returns (more: seq<Action>)
    requires ServingOnly(max, acts, c, chunk, C.DataWait)
    ensures IdleAt(max, more, C.Drop(c, chunk).(gap := true))
  {
    hide ServingOnly, IdleAt;
    more := ServeOnly(max, acts, c, chunk, C.DataWait, C.WaitData(false));
    more := ServeOnly(max, more, C.Drop(c, chunk), chunk, C.SetFlag, C.RaiseFlag);
    more := Finish(max, more, C.Drop(c, chunk).(gap := true), chunk);
  }

  /** A client with one queue slot, and its handler in the receive loop. */
  const READY := C.State(1, [], false, 0, false, [], [], [], C.Waiting(false), [])

  lemma GetReady(max: nat) returns (acts: seq<Action>)
    ensures IdleAt(max, acts, READY)
  {
    acts := [];
    acts := Extend(max, acts, Attach(0, 1));
    assert Preamble(FRESH) + [] == [] by { SwitchWritesAre(FRESH); }
    assert IdleAt(max, acts, C.Attached(1, []));
    acts := Consume(max, acts, C.Attached(1, []), C.SendReplay(true));
  }

  /** Delivered A and about to take the flag, X queued, Y dropped. */
  const POISED :=
    C.State(1, [X], true, 1, false, [], [], [A], C.Taking(false), [C.Enqueued(A), C.Enqueued(X), C.Dropped(Y)])

  lemma GetPoised(max: nat) returns (acts: seq<Action>)
    ensures IdleAt(max, acts, POISED)
  {
    acts := GetReady(max);
    acts := Offer(max, acts, READY, A);
    var c := C.PutData(READY, A);
    acts := Consume(max, acts, c, C.Receive);
    c := C.Consume(c, C.Receive, false);
    acts := Consume(max, acts, c, C.SendItem(true));
    c := C.Consume(c, C.SendItem(true), false);
    acts := Consume(max, acts, c, C.Test);
    c := C.Consume(c, C.Test, false);
    acts := Offer(max, acts, c, X);
    c := C.PutData(c, X);
    acts := OfferInVain(max, acts, c, Y);
    assert C.Drop(c, Y).(gap := true) == POISED;
  }

  /** The run: A, a marker nothing was dropped for, X, then Z with the dropped
      Y unmarked in between. */
  lemma UntimelyTakeMisplacesMarker(max: nat) returns (acts: seq<Action>)
    ensures Reach(max, acts).Some? && 0 in Reach(max, acts).value.clients
    ensures var c := Reach(max, acts).value.clients[0];
            && c.delivered == [A, C.GAP, X, Z]
            && c.log == [C.Enqueued(A), C.Enqueued(X), C.Dropped(Y), C.Enqueued(Z)]
  {
    acts := GetPoised(max);
    var c := POISED;
    acts := Consume(max, acts, c, C.Take);
    c := C.Consume(c, C.Take, false);
    acts := Consume(max, acts, c, C.SendItem(true));
    c := C.Consume(c, C.SendItem(true), false);
    acts := Consume(max, acts, c, C.Receive);
    c := C.Consume(c, C.Receive, false);
    acts := Consume(max, acts, c, C.SendItem(true));
    c := C.Consume(c, C.SendItem(true), false);
    acts := Offer(max, acts, c, Z);
    c := C.PutData(c, Z);
    acts := Consume(max, acts, c, C.Test);
    c := C.Consume(c, C.Test, false);
    acts := Consume(max, acts, c, C.Receive);
    c := C.Consume(c, C.Receive, false);
    acts := Consume(max, acts, c, C.SendItem(true));
    c := C.Consume(c, C.SendItem(true), false);
    assert c.delivered == [A, C.GAP, X, Z];
  }

  // ------------------------------------------- a drop at the tail of a burst

  lemma ConsumeMeanwhile(
    max: nat, acts: seq<Action>, c: C.State, chunk: Chunk, ph: C.Phase, mv: C.ConsumerMove)
    returns (more: seq<Action>)
    requires ServingOnly(max, acts, c, chunk, ph) && C.CanConsume(c, mv, false)
    ensures ServingOnly(max, more, C.Consume(c, mv, false), chunk, ph)
  {
    ConsumeFrame(c, mv, false);
    hide C.Consume, C.CanConsume;
    more := Extend(max, acts, Consumer(0, mv));
  }

  /** A was delivered and Y dropped; the flag is up, the handler waits. */
  const UNSURFACED := C.State(1, [], true, 1, false, [], [], [A], C.Waiting(false), [C.Enqueued(A), C.Dropped(Y)])

  /** The handler looks at the flag between the failed send of Y and the raising
      of the flag: Y's marker stays owed until the next chunk. */
  lemma TailDropStaysUnsurfaced(max: nat) returns (acts: seq<Action>)
    ensures IdleAt(max, acts, UNSURFACED)
    ensures forall mv :: C.CanConsume(UNSURFACED, mv, false) ==> mv.Disconnect?
  {
    acts := GetReady(max);
    acts := Offer(max, acts, READY, A);
    acts := DropWaiting(max, acts, C.PutData(READY, A));
    acts := LookTooEarly(max, acts, C.Drop(C.PutData(READY, A), Y));
    hide IdleAt, ServingOnly;
    var c := UNSURFACED.(gap := false);
    assert C.Drop(C.PutData(READY, A), Y).(q := [], delivered := [A], pc := C.Waiting(false)) == c;
    acts := ServeOnly(max, acts, c, Y, C.SetFlag, C.RaiseFlag);
    acts := Finish(max, acts, UNSURFACED, Y);
  }

  /** Y is dropped; the flag is not raised yet. */
  lemma DropWaiting(max: nat, before: seq<Action>, c: C.State) returns (acts: seq<Action>)
    requires IdleAt(max, before, c) && !c.gap && !C.Room(c)
    ensures ServingOnly(max, acts, C.Drop(c, Y), Y, C.SetFlag)
  {
    acts := Begin(max, before, c, Y);
    hide IdleAt, ServingOnly;
    acts := ServeOnly(max, acts, c, Y, C.Load, C.LoadFlag);
    acts := ServeOnly(max, acts, c, Y, C.DataTry, C.TryData);
    acts := ServeOnly(max, acts, c, Y, C.DataWait, C.WaitData(false));
  }

  lemma LookTooEarly(max: nat, before: seq<Action>, c: C.State) returns (acts: seq<Action>)
    requires ServingOnly(max, before, c, Y, C.SetFlag)
    requires c.q == [A] && c.delivered == [] && c.pc == C.Waiting(false) && !c.gap
    ensures ServingOnly(max, acts, c.(q := [], delivered := [A], pc := C.Waiting(false)), Y, C.SetFlag)
  {
    hide ServingOnly;
    acts := ConsumeMeanwhile(max, before, c, Y, C.SetFlag, C.Receive);
    var held := c.(q := [], pc := C.Holding(A, false));
    assert [A][1..] == [] && C.Consume(c, C.Receive, false) == held;
    acts := ConsumeMeanwhile(max, acts, held, Y, C.SetFlag, C.SendItem(true));
    var d := c.(q := [], delivered := [A], pc := C.Sent(false));
    assert [] + [A] == [A] && C.Consume(held, C.SendItem(true), false) == d;
    acts := ConsumeMeanwhile(max, acts, d, Y, C.SetFlag, C.Test);
    acts := ConsumeMeanwhile(max, acts, d.(pc := C.Taking(false)), Y, C.SetFlag, C.Take);
  }
}
