/** The session's methods as runs of the pipeline: what the objects do to their
    fields, the state machine does step by step. */
module SessionRuns {
  import opened Wrappers
  import opened Bytes
  import opened Modes
  import opened Resync
  import opened Scrollback
  import opened Tracker
  import opened Pipeline
  import O = SessionObjects
  import C = Client

  ghost predicate Leads(w: World, v: World) { exists acts :: From(w, acts) == Some(v) }

  lemma Stays(w: World)
    ensures Leads(w, w)
  {
    assert From(w, []) == Some(w);
  }

  lemma {:induction false} FromMore(w: World, acts: seq<Action>, v: World, a: Action)
    requires From(w, acts) == Some(v) && Enabled(v, a)
    ensures From(w, acts + [a]) == Some(Do(v, a))
    decreases |acts|
  {
    hide Enabled, Do;
    if acts == [] {
      assert acts + [a] == [a] && [a][1..] == [];
    } else {
      assert (acts + [a])[0] == acts[0] && (acts + [a])[1..] == acts[1..] + [a];
      FromMore(Do(w, acts[0]), acts[1..], v, a);
    }
  }

  lemma ThenDo(w: World, v: World, a: Action)
    requires Leads(w, v) && Enabled(v, a)
    ensures Leads(w, Do(v, a))
  {
    hide Enabled, Do, From;
    var acts :| From(w, acts) == Some(v);
    FromMore(w, acts, v, a);
  }

  lemma {:induction false} FromConcat(w: World, a: seq<Action>, v: World, b: seq<Action>)
    requires From(w, a) == Some(v)
    ensures From(w, a + b) == From(v, b)
    decreases |a|
  {
    hide Enabled, Do;
    if a == [] {
      assert a + b == b;
    } else {
      assert (a + b)[0] == a[0] && (a + b)[1..] == a[1..] + b;
      FromConcat(Do(w, a[0]), a[1..], v, b);
    }
  }

  lemma Then(u: World, v: World, w: World)
    requires Leads(u, v) && Leads(v, w)
    ensures Leads(u, w)
  {
    hide From;
    var a :| From(u, a) == Some(v);
    var b :| From(v, b) == Some(w);
    FromConcat(u, a, v, b);
  }

  // -------------------------------------------------- one client's steps

  /** The reader is in this phase of the broadcast body for this client, or between
      clients, or not broadcasting at all. */
  predicate InPhase(w: World, id: Id, ph: C.Phase, chunk: Chunk) {
    && id in w.clients
    && (w.reader.Serving? ==> w.reader.chunk == chunk && w.reader.cur == if ph == C.Off then None else Some((id, ph)))
    && (!w.reader.Serving? ==> ph == C.Off)
  }

  /** The same world with this client, and the reader, further on. */
  function Moved(w: World, id: Id, c: C.State, ph: C.Phase): World {
    if w.reader.Serving? then ServeClient(w, id, (c, ph)) else SetClient(w, id, c)
  }

  lemma MovedPhase(w: World, id: Id, c: C.State, ph: C.Phase, chunk: Chunk, ph0: C.Phase)
    requires InPhase(w, id, ph0, chunk) && (ph0 == C.Off ==> ph == C.Off)
    ensures InPhase(Moved(w, id, c, ph), id, ph, chunk) && Moved(w, id, c, ph).clients[id] == c
  {
  }

  /** Once the session is closed, every step of a client and of the broadcast body
      for it is a step of the world. */
  lemma OneMove(w: World, id: Id, ph: C.Phase, chunk: Chunk, move: O.Move) returns (a: Action)
    requires w.done && InPhase(w, id, ph, chunk)
    requires O.Play(w.clients[id], ph, chunk, [move]).Some?
    ensures Enabled(w, a)
    ensures var (c, ph') := O.Play(w.clients[id], ph, chunk, [move]).value;
            (ph == C.Off ==> ph' == C.Off) && Do(w, a) == Moved(w, id, c, ph')
  {
    assert [move][..0] == [];
    match move
    case ByReader(mv) =>
      a := Reader(mv);
      OffIsOver(w.clients[id], mv);
      hide C.Serve, C.CanServe;
    case ByConsumer(mv, done) =>
      a := Consumer(id, mv);
      DoneAllowsMore(w.clients[id], mv, done);
      hide C.Consume, C.CanConsume;
  }

  lemma OffIsOver(c: C.State, mv: C.ReaderMove)
    ensures !C.CanServe(c, C.Off, mv)
  {
  }

  lemma DoneAllowsMore(c: C.State, mv: C.ConsumerMove, done: bool)
    requires C.CanConsume(c, mv, done)
    ensures C.CanConsume(c, mv, true) && C.Consume(c, mv, true) == C.Consume(c, mv, done)
  {
  }

  lemma MovedTwice(w: World, id: Id, c: C.State, ph: C.Phase, d: C.State, dph: C.Phase)
    ensures Moved(Moved(w, id, c, ph), id, d, dph) == Moved(w, id, d, dph)
  {
    UpdatedTwice(w.clients, id, c, d);
  }

  lemma UpdatedTwice(m: map<Id, C.State>, id: Id, c: C.State, d: C.State)
    ensures m[id := c][id := d] == m[id := d]
  {
  }

  lemma MovedNowhere(w: World, id: Id, ph: C.Phase, chunk: Chunk)
    requires InPhase(w, id, ph, chunk)
    ensures Moved(w, id, w.clients[id], ph) == w
  {
    assert w.clients[id := w.clients[id]] == w.clients;
  }

  lemma {:induction false} PlayRuns(w: World, id: Id, ph: C.Phase, chunk: Chunk, moves: seq<O.Move>)
    requires w.done && InPhase(w, id, ph, chunk)
    requires O.Play(w.clients[id], ph, chunk, moves).Some?
    ensures var (c, ph') := O.Play(w.clients[id], ph, chunk, moves).value;
            (ph == C.Off ==> ph' == C.Off) && Leads(w, Moved(w, id, c, ph'))
    decreases |moves|
  {
    hide Leads, C.Serve, C.CanServe, C.Consume, C.CanConsume;
    if moves == [] {
      MovedNowhere(w, id, ph, chunk);
      Stays(w);
    } else {
      var init, m := moves[..|moves| - 1], moves[|moves| - 1];
      PlayRuns(w, id, ph, chunk, init);
      var (d, dph) := O.Play(w.clients[id], ph, chunk, init).value;
      var v := Moved(w, id, d, dph);
      MovedPhase(w, id, d, dph, chunk, ph);
      assert [m][..0] == [] && O.Play(d, dph, chunk, [m]) == O.Play(w.clients[id], ph, chunk, moves);
      var (c, ph') := O.Play(d, dph, chunk, [m]).value;
      assert v.done;
      hide O.Play, Moved, InPhase, Do, Enabled;
      var a := OneMove(v, id, dph, chunk, m);
      MovedTwice(w, id, d, dph, c, ph');
      ThenDo(w, v, a);
    }
  }

  lemma ClientRuns(w: World, id: Id, ph: C.Phase, chunk: Chunk, d: C.State, dph: C.Phase)
    requires w.done && InPhase(w, id, ph, chunk) && O.Reaches(w.clients[id], ph, chunk, d, dph)
    ensures Leads(w, Moved(w, id, d, dph))
  {
    assert id in w.clients;
    hide Leads, Moved, InPhase, O.Play;
    var moves :| O.Play(w.clients[id], ph, chunk, moves) == Some((d, dph));
    PlayRuns(w, id, ph, chunk, moves);
  }

  // -------------------------------------------------- all clients together

  function Merged(clients: map<Id, C.State>, after: map<Id, C.State>, ids: set<Id>): map<Id, C.State>
    requires ids <= after.Keys
  {
    map id | id in clients :: if id in ids then after[id] else clients[id]
  }

  lemma MergedOne(clients: map<Id, C.State>, after: map<Id, C.State>, ids: set<Id>, id: Id)
    requires ids <= after.Keys && id in ids && id in clients
    ensures Merged(clients[id := after[id]], after, ids - {id}) == Merged(clients, after, ids)
  {
  }

  /** broadcast's loop over the clients, in any order. */
  lemma {:induction false} BroadcastRuns(w: World, after: map<Id, C.State>, chunk: Chunk, todo: set<Id>)
    requires w.done && w.reader == Serving(chunk, todo, None) && todo <= w.clients.Keys && todo <= after.Keys
    requires forall id :: id in todo ==> O.Reaches(w.clients[id], C.Load, chunk, after[id], C.Off)
    ensures Leads(w, w.(clients := Merged(w.clients, after, todo), reader := Serving(chunk, {}, None)))
    decreases |todo|
  {
    hide Leads, O.Reaches;
    if todo == {} {
      assert Merged(w.clients, after, {}) == w.clients;
      Stays(w);
    } else {
      var id :| id in todo;
      var u := Do(w, Pick(id));
      Stays(w);
      ThenDo(w, w, Pick(id));
      ClientRuns(u, id, C.Load, chunk, after[id], C.Off);
      var v := Moved(u, id, after[id], C.Off);
      Then(w, u, v);
      assert v == w.(clients := w.clients[id := after[id]], reader := Serving(chunk, todo - {id}, None));
      BroadcastRuns(v, after, chunk, todo - {id});
      MergedOne(w.clients, after, todo, id);
      hide Merged;
      Then(w, v, w.(clients := Merged(w.clients, after, todo), reader := Serving(chunk, {}, None)));
    }
  }

  /** Consumers alone, while no broadcast is going on. */
  lemma {:induction false} ConsumersRun(w: World, after: map<Id, C.State>, todo: set<Id>)
    requires w.done && !w.reader.Serving? && todo <= w.clients.Keys && todo <= after.Keys
    requires forall id :: id in todo ==> O.Consumed(w.clients[id], after[id])
    ensures Leads(w, w.(clients := Merged(w.clients, after, todo)))
    decreases |todo|
  {
    hide Leads, O.Reaches;
    if todo == {} {
      assert Merged(w.clients, after, {}) == w.clients;
      Stays(w);
    } else {
      var id :| id in todo;
      assert O.Reaches(w.clients[id], C.Off, C.GAP, after[id], C.Off);
      hide O.Consumed;
      ClientRuns(w, id, C.Off, C.GAP, after[id], C.Off);
      var v := Moved(w, id, after[id], C.Off);
      ConsumersRun(v, after, todo - {id});
      MergedOne(w.clients, after, todo, id);
      hide Merged;
      Then(w, v, w.(clients := Merged(w.clients, after, todo)));
    }
  }

  // ------------------------------------------------------------ the object

  /** The world seen through the session's fields; removed clients are not among
      them, and a Close that strikes meanwhile shows only in the world. */
  ghost predicate Shows(w: World, s: O.Session)
    reads s, s.modes, s.clients.Values
  {
    && w.max == s.maxBufferSize && w.buffer == s.outputBuffer
    && w.parser == s.modes.P() && w.modes == s.modes.M()
    && s.clients.Keys == Registered(w)
    && forall id :: id in s.clients ==> w.clients[id] == s.clients[id].Abs()
  }

  /** A chunk is read and its broadcast about to begin, or not to begin. */
  lemma ReadRuns(w: World, data: Chunk)
    requires w.reader == Reading && 1 <= |data| <= READ_SIZE
    ensures var v := w.(hist := w.hist + [data], buffer := Trim(w.buffer + data, w.max), done := true);
            && (w.done ==> Leads(w, v.(reader := Updating(data))))
            && (!w.done ==>
                 Leads(w, v.(reader := Serving(data, Registered(w), None), cast := w.cast + 1, closing := true)))
  {
    hide Leads, Trim;
    Stays(w);
    ThenDo(w, w, Read(data));
    var u := Do(w, Read(data));
    ThenDo(w, u, CheckDone);
    u := Do(u, CheckDone);
    if !w.done {
      ThenDo(w, u, Lock);
      u := Do(u, Lock);
      ThenDo(w, u, Close);
    }
  }

  /** The world after one round of the reader, the session's clients being `after`. */
  lemma RoundRuns(w: World, data: Chunk, after: map<Id, C.State>) returns (end: World)
    requires w.reader == Reading && 1 <= |data| <= READ_SIZE && after.Keys == Registered(w)
    requires w.done ==> forall id :: id in after ==> O.Consumed(w.clients[id], after[id])
    requires !w.done ==> forall id :: id in after ==> O.Reaches(w.clients[id], C.Load, data, after[id], C.Off)
    ensures Leads(w, end) && end.reader == Reading
    ensures end.max == w.max && end.buffer == Trim(w.buffer + data, w.max)
    ensures end.parser == Run(w.parser, data) && end.modes == After(w.modes, w.parser, data)
    ensures end.clients == Merged(w.clients, after, after.Keys)
  {
    hide Leads, Trim, Run, After, O.Reaches, O.Consumed, Merged;
    ReadRuns(w, data);
    var v := w.(hist := w.hist + [data], buffer := Trim(w.buffer + data, w.max), done := true);
    if w.done {
      v := v.(reader := Updating(data));
      ConsumersRun(v, after, after.Keys);
      end := v.(clients := Merged(w.clients, after, after.Keys));
      Then(w, v, end);
    } else {
      v := v.(reader := Serving(data, Registered(w), None), cast := w.cast + 1, closing := true);
      BroadcastRuns(v, after, data, Registered(w));
      end := v.(clients := Merged(w.clients, after, after.Keys), reader := Serving(data, {}, None));
      Then(w, v, end);
      ThenDo(w, end, EndBroadcast);
      end := Do(end, EndBroadcast);
    }
    ThenDo(w, end, UpdateModes);
    end := Do(end, UpdateModes);
  }

  lemma {:induction false} PlayKeepsRegistered(c: C.State, ph: C.Phase, chunk: Chunk, moves: seq<O.Move>)
    requires O.Play(c, ph, chunk, moves).Some?
    ensures O.Play(c, ph, chunk, moves).value.0.removed == c.removed
    decreases |moves|
  {
    if moves != [] {
      var init := moves[..|moves| - 1];
      PlayKeepsRegistered(c, ph, chunk, init);
      var (d, dph) := O.Play(c, ph, chunk, init).value;
      MoveKeepsRegistered(d, dph, chunk, moves[|moves| - 1]);
      hide C.Serve, C.CanServe, C.Consume, C.CanConsume;
    }
  }

  lemma MoveKeepsRegistered(c: C.State, ph: C.Phase, chunk: Chunk, m: O.Move)
    ensures m.ByReader? && C.CanServe(c, ph, m.mv) ==> C.Serve(c, ph, m.mv, chunk).0.removed == c.removed
    ensures m.ByConsumer? && C.CanConsume(c, m.cmv, m.done) ==> C.Consume(c, m.cmv, m.done).removed == c.removed
  {
  }

  lemma ReachesRegistered(c: C.State, ph: C.Phase, chunk: Chunk, d: C.State, dph: C.Phase)
    requires O.Reaches(c, ph, chunk, d, dph)
    ensures d.removed == c.removed
  {
    hide O.Play;
    var moves :| O.Play(c, ph, chunk, moves) == Some((d, dph));
    PlayKeepsRegistered(c, ph, chunk, moves);
  }

  lemma ConsumedRegistered(c: C.State, d: C.State)
    requires O.Consumed(c, d)
    ensures d.removed == c.removed
  {
    assert O.Reaches(c, C.Off, C.GAP, d, C.Off);
    hide O.Reaches;
    ReachesRegistered(c, C.Off, C.GAP, d, C.Off);
  }

  lemma MergedAll(w: World, after: map<Id, C.State>)
    requires after.Keys == Registered(w)
    requires forall id :: id in after ==> after[id].removed == w.clients[id].removed
    ensures Registered(w.(clients := Merged(w.clients, after, after.Keys))) == after.Keys
    ensures forall id :: id in after ==> Merged(w.clients, after, after.Keys)[id] == after[id]
  {
  }

  /** One round of readPTYOutput: appendAndBroadcast, then the mode tracker.  It is
      a run of the pipeline, with the consumers acting throughout. */
  method ReadChunk(s: O.Session, data: Chunk, ghost w: World) returns (ghost end: World)
    requires s.DistinctClients() && 1 <= |data| <= 4096
    requires Shows(w, s) && w.reader == Reading && w.done == s.done
    modifies s`outputBuffer, s.clients.Values, s.modes
    ensures Leads(w, end) && Shows(end, s) && end.reader == Reading
  {
    hide Leads, Trim, Run, After, O.Reaches, O.Consumed, Merged, O.ClientState.Abs, ModeTracker.P, ModeTracker.M;
    s.AppendAndBroadcast(data);
    s.modes.Process(data);
    ghost var after := map id | id in s.clients :: s.clients[id].Abs();
    end := RoundRuns(w, data, after);
    forall id | id in after ensures after[id].removed == w.clients[id].removed {
      if w.done { ConsumedRegistered(w.clients[id], after[id]); }
      else { ReachesRegistered(w.clients[id], C.Load, data, after[id], C.Off); }
    }
    MergedAll(w, after);
  }

  /** AttachClient is the pipeline's attach step. */
  method Attach(s: O.Session, id: Id, bufferSize: int, ghost w: World)
    returns (replay: seq<byte>, cs: O.ClientState, ghost end: World)
    requires s.DistinctClients() && Shows(w, s) && BufferFree(w) && id !in w.clients
    modifies s`clients
    ensures fresh(cs) && s.clients == old(s.clients)[id := cs]
    ensures var cap := if bufferSize <= 0 then 1024 else bufferSize;
            Enabled(w, Action.Attach(id, cap)) && end == Do(w, Action.Attach(id, cap))
    ensures Shows(end, s) && replay == end.clients[id].replay
  {
    hide O.ClientState.Abs, ModeTracker.P, ModeTracker.M, Preamble;
    ghost var cap := if bufferSize <= 0 then 1024 else bufferSize;
    replay, cs := s.AttachClient(id, bufferSize);
    end := Do(w, Action.Attach(id, cap));
  }
}
