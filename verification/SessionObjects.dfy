/** The session's objects, updated in place as in internal/session/session.go.
    While a broadcast body runs, the client's consumer may act between any two
    of its statements; the methods are proved to take only steps of the Client
    state machine under every such interference. */
module SessionObjects {
  import opened Wrappers
  import opened Bytes
  import opened Modes
  import opened Scrollback
  import opened Tracker
  import C = Client
  import FastPath

  type Id = nat

  // -------------------------------------------------- interleaved steps

  datatype Move = ByReader(mv: C.ReaderMove) | ByConsumer(cmv: C.ConsumerMove, done: bool)

  /** Where a client and the broadcast body are after a sequence of steps. */
  function Play(c: C.State, ph: C.Phase, chunk: Chunk, moves: seq<Move>): Option<(C.State, C.Phase)> {
    if moves == [] then Some((c, ph))
    else match Play(c, ph, chunk, moves[..|moves| - 1])
      case None => None
      case Some((d, dph)) =>
        match moves[|moves| - 1]
        case ByReader(mv) => if C.CanServe(d, dph, mv) then Some(C.Serve(d, dph, mv, chunk)) else None
        case ByConsumer(mv, done) => if C.CanConsume(d, mv, done) then Some((C.Consume(d, mv, done), dph)) else None
  }

  ghost predicate Reaches(c: C.State, ph: C.Phase, chunk: Chunk, d: C.State, dph: C.Phase) {
    exists moves :: Play(c, ph, chunk, moves) == Some((d, dph))
  }

  lemma ReachesSelf(c: C.State, ph: C.Phase, chunk: Chunk)
    ensures Reaches(c, ph, chunk, c, ph)
  {
    assert Play(c, ph, chunk, []) == Some((c, ph));
  }

  lemma ReachesServe(c: C.State, ph: C.Phase, chunk: Chunk, d: C.State, dph: C.Phase, mv: C.ReaderMove)
    requires Reaches(c, ph, chunk, d, dph) && C.CanServe(d, dph, mv)
    ensures var (e, eph) := C.Serve(d, dph, mv, chunk); Reaches(c, ph, chunk, e, eph)
  {
    hide C.Serve, C.CanServe;
    var moves :| Play(c, ph, chunk, moves) == Some((d, dph));
    var more := moves + [ByReader(mv)];
    assert more[..|more| - 1] == moves;
    assert Play(c, ph, chunk, more) == Some(C.Serve(d, dph, mv, chunk));
  }

  /** Consumer steps only, in any number. */
  ghost predicate Consumed(c: C.State, d: C.State) {
    forall ph, chunk {:trigger Reaches(c, ph, chunk, d, ph)} :: Reaches(c, ph, chunk, d, ph)
  }

  lemma {:induction false} PlayConcat(c: C.State, ph: C.Phase, chunk: Chunk, a: seq<Move>, b: seq<Move>)
    requires Play(c, ph, chunk, a).Some?
    ensures Play(c, ph, chunk, a + b) ==
            Play(Play(c, ph, chunk, a).value.0, Play(c, ph, chunk, a).value.1, chunk, b)
  {
    hide C.Serve, C.CanServe, C.Consume, C.CanConsume;
    if b == [] {
      assert a + b == a;
    } else {
      assert (a + b)[..|a + b| - 1] == a + b[..|b| - 1];
      PlayConcat(c, ph, chunk, a, b[..|b| - 1]);
    }
  }

  lemma ReachesConsumed(c: C.State, ph: C.Phase, chunk: Chunk, d: C.State, dph: C.Phase, e: C.State)
    requires Reaches(c, ph, chunk, d, dph) && Consumed(d, e)
    ensures Reaches(c, ph, chunk, e, dph)
  {
    var a :| Play(c, ph, chunk, a) == Some((d, dph));
    assert Reaches(d, dph, chunk, e, dph);
    var b :| Play(d, dph, chunk, b) == Some((e, dph));
    PlayConcat(c, ph, chunk, a, b);
  }

  lemma ConsumedReaches(
    c: C.State, d: C.State, ph: C.Phase, chunk: Chunk, e: C.State, eph: C.Phase)
    requires Consumed(c, d) && Reaches(d, ph, chunk, e, eph)
    ensures Reaches(c, ph, chunk, e, eph)
  {
    assert Reaches(c, ph, chunk, d, ph);
    var a :| Play(c, ph, chunk, a) == Some((d, ph));
    var b :| Play(d, ph, chunk, b) == Some((e, eph));
    PlayConcat(c, ph, chunk, a, b);
  }

  lemma ConsumedTwice(c: C.State, d: C.State, e: C.State)
    requires Consumed(c, d) && Consumed(d, e)
    ensures Consumed(c, e)
  {
    hide Reaches;
    forall ph, chunk ensures Reaches(c, ph, chunk, e, ph) {
      assert Reaches(c, ph, chunk, d, ph);
      ReachesConsumed(c, ph, chunk, d, ph, e);
    }
  }

  lemma ConsumedSelf(c: C.State)
    ensures Consumed(c, c)
  {
    forall ph, chunk ensures Reaches(c, ph, chunk, c, ph) { ReachesSelf(c, ph, chunk); }
  }

  lemma {:induction false} RoomPlay(c: C.State, chunk: Chunk, moves: seq<Move>)
    requires |c.q| + (if c.gap then 1 else 0) < c.cap && Play(c, C.Load, chunk, moves).Some?
    ensures var (d, ph) := Play(c, C.Load, chunk, moves).value; FastPath.OnTheWay(c, d, ph, chunk)
    decreases |moves|
  {
    if moves != [] {
      var init := moves[..|moves| - 1];
      RoomPlay(c, chunk, init);
      var (d, ph) := Play(c, C.Load, chunk, init).value;
      hide C.Serve, C.CanServe, C.Consume, C.CanConsume, FastPath.OnTheWay;
      match moves[|moves| - 1]
      case ByReader(mv) => FastPath.ServeOnTheWay(c, d, ph, mv, chunk);
      case ByConsumer(mv, done) => FastPath.ConsumeOnTheWay(c, d, ph, mv, done, chunk);
    }
  }

  /** With a free slot for the chunk, and another one if a marker is owed, the body
      ends with the chunk queued and nothing dropped. */
  lemma RoomReaches(c: C.State, chunk: Chunk, d: C.State)
    requires |c.q| + (if c.gap then 1 else 0) < c.cap && Reaches(c, C.Load, chunk, d, C.Off)
    ensures d.log == c.log + [C.Enqueued(chunk)] && d.drops == c.drops
  {
    hide Play;
    var moves :| Play(c, C.Load, chunk, moves) == Some((d, C.Off));
    RoomPlay(c, chunk, moves);
  }

  /** A client that waits for its turn has only been consumed from; the others
      have been served. */
  ghost predicate Progress(c: C.State, d: C.State, waiting: bool, data: Chunk) {
    if waiting then Consumed(c, d) else Reaches(c, C.Load, data, d, C.Off)
  }

  lemma Progresses(c: C.State, d: C.State, e: C.State, waiting: bool, served: bool, data: Chunk)
    requires Progress(c, d, waiting, data) && (served ==> waiting)
    requires if served then Reaches(d, C.Load, data, e, C.Off) else Consumed(d, e)
    ensures Progress(c, e, waiting && !served, data)
  {
    hide Consumed, Reaches;
    if served {
      ConsumedReaches(c, d, C.Load, data, e, C.Off);
    } else if waiting {
      ConsumedTwice(c, d, e);
    } else {
      ReachesConsumed(c, C.Load, data, d, C.Off, e);
    }
  }

  // ---------------------------------------------------------- one client

  class ClientState {
    const cap: nat
    var ch: seq<Chunk>
    var gapPending: bool
    var dropCount: nat
    ghost var far: C.State  // the consumer's side and the offer history

    constructor (capacity: nat, ghost replay: seq<byte>)
      ensures Abs() == C.Attached(capacity, replay)
    {
      cap, ch, gapPending, dropCount := capacity, [], false, 0;
      far := C.Attached(capacity, replay);
    }

    ghost function Abs(): C.State
      reads this
    {
      far.(cap := cap, q := ch, gap := gapPending, drops := dropCount)
    }

    /** The consumer takes any number of steps. */
    method Interfere()
      modifies this
      ensures Consumed(old(Abs()), Abs())
    {
      ConsumedSelf(Abs());
    }

    /** A send attempt that does not wait. */
    method TrySend(item: Chunk, ghost data: Chunk, ghost ph: C.Phase) returns (sent: bool, ghost next: C.Phase)
      requires ph == C.MarkerTry || ph == C.DataTry
      requires item == if ph == C.MarkerTry then C.GAP else data
      modifies this
      ensures (Abs(), next) == C.Serve(old(Abs()), ph, if ph == C.MarkerTry then C.TryMarker else C.TryData, data)
      ensures sent <==> next != C.MarkerWait && next != C.DataWait
      ensures sent <==> |old(ch)| < cap
      ensures ch == if sent then old(ch) + [item] else old(ch)
    {
      sent := |ch| < cap;
      next := if ph == C.MarkerTry then (if sent then C.Clear else C.MarkerWait)
              else (if sent then C.Off else C.DataWait);
      if sent {
        ch := ch + [item];
        if ph == C.DataTry { far := far.(log := far.log + [C.Enqueued(data)]); }
      }
    }

    /** The wait for room until the deadline; the timer may win at any moment.
        A chunk that is not sent is counted as dropped. */
    method WaitSend(item: Chunk, ghost data: Chunk, ghost ph: C.Phase) returns (sent: bool, ghost next: C.Phase)
      requires ph == C.MarkerWait || ph == C.DataWait
      requires item == if ph == C.MarkerWait then C.GAP else data
      modifies this
      ensures sent ==> |old(ch)| < cap && ch == old(ch) + [item]
      ensures !sent ==> dropCount == old(dropCount) + 1 && ch == old(ch)
      ensures (Abs(), next) ==
              C.Serve(old(Abs()), ph, if ph == C.MarkerWait then C.WaitMarker(sent) else C.WaitData(sent), data)
    {
      var timer: bool := *;
      sent := |ch| < cap && !timer;
      next := if ph == C.MarkerWait then (if sent then C.Clear else C.Off) else (if sent then C.Off else C.SetFlag);
      if sent {
        ch := ch + [item];
        if ph == C.DataWait { far := far.(log := far.log + [C.Enqueued(data)]); }
      } else {
        dropCount := dropCount + 1;
        far := far.(log := far.log + [C.Dropped(data)]);
      }
    }

    /** sendBoundedUntil: a fast try, then a bounded wait. */
    method SendBoundedUntil(item: Chunk, ghost c0: C.State, ghost data: Chunk, ghost ph: C.Phase)
      returns (sent: bool, ghost next: C.Phase)
      requires ph == C.MarkerTry || ph == C.DataTry
      requires item == if ph == C.MarkerTry then C.GAP else data
      requires Reaches(c0, C.Load, data, Abs(), ph)
      modifies this
      ensures Reaches(c0, C.Load, data, Abs(), next)
      ensures |old(ch)| < cap ==> sent && ch == old(ch) + [item]
      ensures next == if ph == C.MarkerTry then (if sent then C.Clear else C.Off)
                      else (if sent then C.Off else C.SetFlag)
    {
      ghost var c := Abs();
      ReachesServe(c0, C.Load, data, c, ph, if ph == C.MarkerTry then C.TryMarker else C.TryData);
      sent, next := TrySend(item, data, ph);
      if sent { return; }
      c := Abs();
      Interfere();
      ReachesConsumed(c0, C.Load, data, c, next, Abs());
      c := Abs();
      ghost var waiting := next;
      sent, next := WaitSend(item, data, waiting);
      var mv := if waiting == C.MarkerWait then C.WaitMarker(sent) else C.WaitData(sent);
      ReachesServe(c0, C.Load, data, c, waiting, mv);
    }

    /** The broadcast body for this client: whatever the consumer does in
        between, the outcome is one of the state machine's. */
    method Broadcast(data: Chunk)
      modifies this
      ensures Reaches(old(Abs()), C.Load, data, Abs(), C.Off)
      ensures |old(ch)| + (if old(gapPending) then 1 else 0) < cap ==>
                Abs().log == old(Abs()).log + [C.Enqueued(data)] && dropCount == old(dropCount)
    {
      BroadcastSteps(data);
      if |old(ch)| + (if old(gapPending) then 1 else 0) < cap {
        RoomReaches(old(Abs()), data, Abs());
      }
    }

    method BroadcastSteps(data: Chunk)
      modifies this
      ensures Reaches(old(Abs()), C.Load, data, Abs(), C.Off)
    {
      ghost var c0 := Abs();
      ReachesSelf(c0, C.Load, data);
      var owed := gapPending;
      ReachesServe(c0, C.Load, data, c0, C.Load, C.LoadFlag);
      Interfere();
      ReachesConsumed(c0, C.Load, data, c0, if owed then C.MarkerTry else C.DataTry, Abs());
      if owed {
        var marked, ph := SendBoundedUntil(C.GAP, c0, data, C.MarkerTry);
        if !marked {
          return;
        }
        ghost var c := Abs();
        Interfere();
        ReachesConsumed(c0, C.Load, data, c, C.Clear, Abs());
        ReachesServe(c0, C.Load, data, Abs(), C.Clear, C.ClearFlag);
        gapPending := false;
        c := Abs();
        Interfere();
        ReachesConsumed(c0, C.Load, data, c, C.DataTry, Abs());
      }
      var sent, ph := SendBoundedUntil(data, c0, data, C.DataTry);
      if sent {
        return;
      }
      ghost var c := Abs();
      Interfere();
      ReachesConsumed(c0, C.Load, data, c, C.SetFlag, Abs());
      ReachesServe(c0, C.Load, data, Abs(), C.SetFlag, C.RaiseFlag);
      gapPending := true;
    }

    ghost method CloseChannel()
      modifies this`far
      ensures Abs() == old(Abs()).(removed := true)
    {
      far := far.(removed := true);
    }

    /** The swap of TakeOutputGap for a registered client. */
    method TakeGap() returns (taken: bool)
      modifies this`gapPending
      ensures taken == old(gapPending) && !gapPending
    {
      taken := gapPending;
      gapPending := false;
    }
  }

  // ----------------------------------------------------------- the session

  class Session {
    const maxBufferSize: nat
    var outputBuffer: seq<byte>
    const modes: ModeTracker
    var clients: map<Id, ClientState>
    var done: bool

    /** NewSession: a size that is not positive means the 1 MiB default. */
    constructor (size: int)
      ensures fresh(modes) && modes.P() == Ground && modes.M() == FRESH
      ensures maxBufferSize == (if size <= 0 then 0x10_0000 else size)
      ensures outputBuffer == [] && clients == map[] && !done
    {
      maxBufferSize := if size <= 0 then 0x10_0000 else size;
      outputBuffer, clients, done := [], map[], false;
      modes := new ModeTracker();
    }

    /** Appends to the scrollback and trims it to the most recent bytes, on a
        rune boundary. */
    method AppendOutput(data: Chunk)
      modifies this`outputBuffer
      ensures outputBuffer == Trim(old(outputBuffer) + data, maxBufferSize)
    {
      outputBuffer := outputBuffer + data;
      if |outputBuffer| > maxBufferSize {
        var start := |outputBuffer| - maxBufferSize;
        var i := 0;
        while i < 3 && start < |outputBuffer| && Cont(outputBuffer[start])
          invariant 0 <= i <= 3 && 0 <= start <= |outputBuffer|
          invariant SkipCont(outputBuffer, start, 3 - i) == SkipCont(outputBuffer, |outputBuffer| - maxBufferSize, 3)
        {
          start, i := start + 1, i + 1;
        }
        outputBuffer := outputBuffer[start..];
      }
    }

    ghost predicate DistinctClients()
      reads this
    {
      forall a, b :: a in clients && b in clients && a != b ==> clients[a] != clients[b]
    }

    /** A free slot for a chunk, and another one if a marker is owed. */
    ghost predicate HasRoom(id: Id)
      requires id in clients
      reads this, clients.Values
    {
      var c := clients[id].Abs();
      |c.q| + (if c.gap then 1 else 0) < c.cap
    }

    /** Every client's consumer takes any number of steps. */
    method InterfereAll()
      requires DistinctClients()
      modifies clients.Values
      ensures forall id :: id in clients ==> Consumed(old(clients[id].Abs()), clients[id].Abs())
    {
      hide Consumed, ClientState.Abs;
      forall id | id in clients ensures Consumed(clients[id].Abs(), clients[id].Abs()) {
        ConsumedSelf(clients[id].Abs());
      }
      var todo := clients.Keys;
      while todo != {}
        invariant todo <= clients.Keys
        invariant forall id :: id in todo ==> clients[id].Abs() == old(clients[id].Abs())
        invariant forall id :: id in clients ==> Consumed(old(clients[id].Abs()), clients[id].Abs())
      {
        var id :| id in todo;
        clients[id].Interfere();
        todo := todo - {id};
      }
    }

    /** One client served while every consumer is free to act. */
    method ServeOne(id: Id, data: Chunk)
      requires DistinctClients() && id in clients
      modifies clients.Values
      ensures Reaches(old(clients[id].Abs()), C.Load, data, clients[id].Abs(), C.Off)
      ensures forall i :: i in clients && i != id ==> Consumed(old(clients[i].Abs()), clients[i].Abs())
    {
      hide Consumed, Reaches, ClientState.Abs;
      clients[id].Broadcast(data);
      ghost var c := clients[id].Abs();
      InterfereAll();
      ReachesConsumed(old(clients[id].Abs()), C.Load, data, c, C.Off, clients[id].Abs());
    }

    /** appendAndBroadcast: the scrollback first, then every registered client
        once, unless the session is done.  All consumers act throughout. */
    method AppendAndBroadcast(data: Chunk)
      requires DistinctClients()
      modifies this`outputBuffer, clients.Values
      ensures outputBuffer == Trim(old(outputBuffer) + data, maxBufferSize)
      ensures done ==> forall id :: id in clients ==> Consumed(old(clients[id].Abs()), clients[id].Abs())
      ensures !done ==> forall id :: id in clients ==>
                Reaches(old(clients[id].Abs()), C.Load, data, clients[id].Abs(), C.Off)
      ensures !done ==> forall id :: id in clients && old(HasRoom(id)) ==>
                clients[id].Abs().log == old(clients[id].Abs().log) + [C.Enqueued(data)]
    {
      hide Trim, Reaches, Consumed, ClientState.Abs;
      AppendOutput(data);
      if done {
        InterfereAll();
      } else {
        BroadcastAll(data);
        forall id | id in clients && old(HasRoom(id))
          ensures clients[id].Abs().log == old(clients[id].Abs().log) + [C.Enqueued(data)]
        {
          RoomReaches(old(clients[id].Abs()), data, clients[id].Abs());
        }
      }
    }

    /** broadcast's loop over the clients. */
    method BroadcastAll(data: Chunk)
      requires DistinctClients()
      modifies clients.Values
      ensures forall id :: id in clients ==>
                Reaches(old(clients[id].Abs()), C.Load, data, clients[id].Abs(), C.Off)
    {
      hide Reaches, Consumed, ClientState.Abs;
      forall id | id in clients ensures Consumed(clients[id].Abs(), clients[id].Abs()) {
        ConsumedSelf(clients[id].Abs());
      }
      var todo := clients.Keys;
      while todo != {}
        invariant todo <= clients.Keys
        invariant forall id :: id in clients ==>
                    Progress(old(clients[id].Abs()), clients[id].Abs(), id in todo, data)
      {
        var id :| id in todo;
        ghost var mid := map i | i in clients :: clients[i].Abs();
        ServeOne(id, data);
        forall i | i in clients
          ensures Progress(old(clients[i].Abs()), clients[i].Abs(), i in todo - {id}, data)
        {
          Progresses(old(clients[i].Abs()), mid[i], clients[i].Abs(), i in todo, i == id, data);
        }
        todo := todo - {id};
      }
    }

    /** AttachClient: snapshot and registration, with nothing in between. */
    method AttachClient(id: Id, bufferSize: int) returns (replay: seq<byte>, cs: ClientState)
      requires DistinctClients()
      modifies this`clients
      ensures fresh(cs) && clients == old(clients)[id := cs]
      ensures replay == Preamble(modes.M()) + outputBuffer
      ensures cs.Abs() == C.Attached(if bufferSize <= 0 then 1024 else bufferSize, replay)
    {
      var preamble := modes.GetPreamble();
      replay := preamble + outputBuffer;
      cs := new ClientState(if bufferSize <= 0 then 1024 else bufferSize, replay);
      clients := clients[id := cs];
    }

    /** TakeOutputGap: false for an unknown client, otherwise swap the flag. */
    method TakeOutputGap(id: Id) returns (taken: bool)
      modifies (if id in clients then {clients[id]} else {})
      ensures taken <==> id in clients && old(clients[id].gapPending)
      ensures id in clients ==> clients[id].Abs() == old(clients[id].Abs()).(gap := false)
    {
      taken := false;
      if id in clients { taken := clients[id].TakeGap(); }
    }

    /** RemoveClient: closes the channel and forgets the client, if known. */
    method RemoveClient(id: Id)
      modifies this`clients, (if id in clients then {clients[id]} else {})
      ensures clients == old(clients) - {id}
      ensures id in old(clients) ==> old(clients)[id].Abs() == old(clients[id].Abs()).(removed := true)
    {
      if id in clients {
        clients[id].CloseChannel();
        clients := clients - {id};
      }
    }
  }

  // -------------------------------------------------------- replay messages

  /** Attach sends the replay in messages of at most 1 MiB. */
  method ReplayMessages(replay: seq<byte>) returns (messages: seq<Chunk>)
    ensures Flat(messages) == replay
    ensures forall k :: 0 <= k < |messages| ==> 1 <= |messages[k]| <= 0x10_0000
    ensures forall k :: 0 <= k < |messages| - 1 ==> |messages[k]| == 0x10_0000
  {
    messages := [];
    var off := 0;
    while off < |replay|
      invariant Flat(messages) == replay[..C.Min(off, |replay|)]
      invariant forall k :: 0 <= k < |messages| ==> 1 <= |messages[k]| <= C.REPLAY_CHUNK_SIZE
      invariant forall k :: 0 <= k < |messages| && (k < |messages| - 1 || off <= |replay|) ==>
                  |messages[k]| == C.REPLAY_CHUNK_SIZE
      decreases |replay| - off
    {
      var end := off + C.REPLAY_CHUNK_SIZE;
      if end > |replay| { end := |replay|; }
      FlatSnoc(messages, replay[off..end]);
      assert replay[..off] + replay[off..end] == replay[..end];
      messages := messages + [replay[off..end]];
      off := off + C.REPLAY_CHUNK_SIZE;
    }
    assert replay[..|replay|] == replay;
  }
}
