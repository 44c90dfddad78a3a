/** The event hub of internal/session/events.go: subscribers on bounded channels,
    a bounded history, and an Unsubscribe that deletes under the lock but closes
    after it. */
module Events {
  type SubId = nat

  datatype EventType = Unspecified | Bell | Ended

  datatype Event = Event(session: string, name: string, tool: string, kind: EventType, time: int, message: string)

  /** Buffer of one subscriber channel, and retained history. */
  const BUFFER: nat := 64
  const MAX_RECENT: nat := 100

  // ------------------------------------------------ the effect on the values

  function Last(s: seq<Event>, n: nat): seq<Event> {
    if |s| <= n then s else s[|s| - n..]
  }

  /** A full buffer drops the event. */
  function Offer(buf: seq<Event>, e: Event): seq<Event> {
    if |buf| < BUFFER then buf + [e] else buf
  }

  /** Keeping the last n and adding one is keeping the last n of all. */
  lemma LastOfLast(s: seq<Event>, e: Event, n: nat)
    ensures Last(Last(s, n) + [e], n) == Last(s + [e], n)
  {
    if |s| > n {
      assert (s + [e])[|s| + 1 - n..] == (s[|s| - n..] + [e])[1..];
    }
  }

  // ------------------------------------------------------------- the machine

  /** A channel with its history: what was received from it, what was published
      while it was subscribed, from which event on, and how much was dropped. */
  datatype Chan = Chan(buf: seq<Event>, closed: bool, received: seq<Event>, offered: seq<Event>, from: nat, drops: nat)

  datatype World = World(
    subs: set<SubId>,        // keys of the subscribers map
    chans: map<SubId, Chan>, // every channel ever made
    closing: set<SubId>,     // deleted by an Unsubscribe that has not closed it yet
    recent: seq<Event>,
    closed: bool,
    published: seq<Event>,   // history: events published before Close
    panicked: bool)          // a channel was closed twice or sent on after close

  function Start(): World { World({}, map[], {}, [], false, [], false) }

  datatype Action =
    | Subscribe(id: SubId) | Unsubscribe(id: SubId) | CloseChannel(id: SubId)
    | Publish(event: Event) | Close | Receive(id: SubId)

  predicate Enabled(w: World, a: Action) {
    match a
    case Subscribe(id) => id !in w.chans
    case Unsubscribe(id) => true
    case CloseChannel(id) => id in w.closing && id in w.chans
    case Publish(_) => true
    case Close => true
    case Receive(id) => id in w.chans && w.chans[id].buf != []
  }

  function Send(c: Chan, e: Event): Chan {
    c.(buf := Offer(c.buf, e), offered := c.offered + [e], drops := if |c.buf| < BUFFER then c.drops else c.drops + 1)
  }

  predicate AnyClosed(w: World, ids: set<SubId>) {
    exists id :: id in ids && id in w.chans && w.chans[id].closed
  }

  function Do(w: World, a: Action): World
    requires Enabled(w, a)
  {
    match a
    case Subscribe(id) =>
      var c := Chan([], w.closed, [], [], |w.published|, 0);
      w.(chans := w.chans[id := c], subs := if w.closed then w.subs else w.subs + {id})
    case Unsubscribe(id) =>
      if id in w.subs then w.(subs := w.subs - {id}, closing := w.closing + {id}) else w
    case CloseChannel(id) =>
      w.(chans := w.chans[id := w.chans[id].(closed := true)], closing := w.closing - {id},
         panicked := w.panicked || w.chans[id].closed)
    case Publish(e) =>
      if w.closed then w
      else w.(recent := Last(w.recent + [e], MAX_RECENT), published := w.published + [e],
              chans := map id | id in w.chans :: if id in w.subs then Send(w.chans[id], e) else w.chans[id],
              panicked := w.panicked || AnyClosed(w, w.subs))
    case Close =>
      if w.closed then w
      else w.(closed := true, subs := {},
              chans := map id | id in w.chans :: if id in w.subs then w.chans[id].(closed := true) else w.chans[id],
              panicked := w.panicked || AnyClosed(w, w.subs))
    case Receive(id) =>
      var c := w.chans[id];
      w.(chans := w.chans[id := c.(buf := c.buf[1..], received := c.received + [c.buf[0]])])
  }

  function After(w: World, acts: seq<Action>): (r: World) {
    if acts == [] then w
    else
      var v := After(w, acts[..|acts| - 1]);
      if Enabled(v, acts[|acts| - 1]) then Do(v, acts[|acts| - 1]) else v
  }

  // ------------------------------------------------------------ subsequences

  /** s is t with some events left out, order kept. */
  predicate Subsequence(s: seq<Event>, t: seq<Event>) {
    if s == [] then true
    else if t == [] then false
    else
      || (s[|s| - 1] == t[|t| - 1] && Subsequence(s[..|s| - 1], t[..|t| - 1]))
      || Subsequence(s, t[..|t| - 1])
  }

  lemma SubsequenceGrows(s: seq<Event>, t: seq<Event>, e: Event)
    requires Subsequence(s, t)
    ensures Subsequence(s, t + [e]) && Subsequence(s + [e], t + [e])
  {
    assert (t + [e])[..|t|] == t;
    assert (s + [e])[..|s|] == s;
  }

  lemma {:induction false} SubsequenceShorter(s: seq<Event>, t: seq<Event>)
    requires Subsequence(s, t)
    ensures |s| <= |t| && (|s| == |t| ==> s == t)
  {
    if s != [] {
      var s', t' := s[..|s| - 1], t[..|t| - 1];
      if s[|s| - 1] == t[|t| - 1] && Subsequence(s', t') {
        SubsequenceShorter(s', t');
        assert s == s' + [s[|s| - 1]] && t == t' + [t[|t| - 1]];
      } else {
        SubsequenceShorter(s, t');
      }
    }
  }

  // ----------------------------------------------------------- the invariant

  function Stream(c: Chan): seq<Event> { c.received + c.buf }

  /** A channel is open exactly while it is subscribed or about to be closed by
      the Unsubscribe that removed it. */
  predicate LifeOk(w: World, id: SubId) {
    && (id in w.subs || id in w.closing ==> id in w.chans)
    && !(id in w.subs && id in w.closing)
    && (id in w.chans ==> (w.chans[id].closed <==> id !in w.subs && id !in w.closing))
  }

  predicate FlowOk(w: World, id: SubId)
    requires id in w.chans
  {
    var c := w.chans[id];
    && |c.buf| <= BUFFER
    && c.from + |c.offered| <= |w.published|
    && c.offered == w.published[c.from..c.from + |c.offered|]
    && (id in w.subs ==> c.from + |c.offered| == |w.published|)
    && Subsequence(Stream(c), c.offered)
    && |Stream(c)| + c.drops == |c.offered|
  }

  ghost predicate Inv(w: World) {
    && !w.panicked
    && w.recent == Last(w.published, MAX_RECENT)
    && (w.closed ==> w.subs == {})
    && (forall id {:trigger LifeOk(w, id)} :: LifeOk(w, id))
    && (forall id {:trigger FlowOk(w, id)} :: id in w.chans ==> FlowOk(w, id))
  }

  lemma SendFlow(c: Chan, e: Event)
    requires |c.buf| <= BUFFER && Subsequence(Stream(c), c.offered) && |Stream(c)| + c.drops == |c.offered|
    ensures var d := Send(c, e);
            && |d.buf| <= BUFFER && Subsequence(Stream(d), d.offered) && |Stream(d)| + d.drops == |d.offered|
  {
    hide Subsequence;
    SubsequenceGrows(Stream(c), c.offered, e);
    assert c.received + (c.buf + [e]) == Stream(c) + [e];
  }

  lemma PublishInv(w: World, e: Event)
    requires Inv(w)
    ensures Inv(Do(w, Publish(e)))
  {
    var w' := Do(w, Publish(e));
    if !w.closed {
      LastOfLast(w.published, e, MAX_RECENT);
      hide Last, Subsequence, Send;
      assert !AnyClosed(w, w.subs) by {
        forall id | id in w.subs && id in w.chans ensures !w.chans[id].closed { assert LifeOk(w, id); }
      }
      forall id ensures LifeOk(w', id) {
        assert LifeOk(w, id);
        if id in w.chans { SendKeepsOpen(w.chans[id], e); }
      }
      forall id | id in w'.chans ensures FlowOk(w', id) { PublishFlow(w, e, id); }
    }
  }

  lemma SendKeepsOpen(c: Chan, e: Event)
    ensures Send(c, e).closed == c.closed
  {
  }

  lemma PublishFlow(w: World, e: Event, id: SubId)
    requires Inv(w) && id in w.chans && !w.closed
    ensures FlowOk(Do(w, Publish(e)), id)
  {
    hide Last, Subsequence, LifeOk;
    var c, w' := w.chans[id], Do(w, Publish(e));
    assert FlowOk(w, id);
    assert forall k :: 0 <= k <= |w.published| ==> (w.published + [e])[..k] == w.published[..k];
    if id in w.subs {
      SendFlow(c, e);
      assert (w.published + [e])[c.from..|w.published| + 1] == w.published[c.from..|w.published|] + [e];
    } else {
      assert (w.published + [e])[c.from..c.from + |c.offered|] == c.offered;
    }
  }

  lemma CloseInv(w: World)
    requires Inv(w)
    ensures Inv(Do(w, Close))
  {
    hide Last, Subsequence;
    var w' := Do(w, Close);
    if !w.closed {
      assert !AnyClosed(w, w.subs) by {
        forall id | id in w.subs && id in w.chans ensures !w.chans[id].closed { assert LifeOk(w, id); }
      }
      forall id ensures LifeOk(w', id) { assert LifeOk(w, id); }
      forall id | id in w'.chans ensures FlowOk(w', id) { assert FlowOk(w, id); }
    }
  }

  lemma SubscriptionInv(w: World, a: Action)
    requires Inv(w) && Enabled(w, a) && (a.Subscribe? || a.Unsubscribe? || a.CloseChannel?)
    ensures Inv(Do(w, a))
  {
    hide Last, Subsequence;
    var w' := Do(w, a);
    SubscriptionLife(w, a);
    forall id | id in w'.chans ensures FlowOk(w', id) { SubscriptionFlow(w, a, id); }
    hide LifeOk, FlowOk;
    if a.CloseChannel? { OpenWhileClosing(w, a.id); }
  }

  lemma OpenWhileClosing(w: World, id: SubId)
    requires Inv(w) && id in w.closing && id in w.chans
    ensures !w.chans[id].closed
  {
    hide FlowOk;
    assert LifeOk(w, id);
  }

  lemma SubscriptionLife(w: World, a: Action)
    requires Inv(w) && Enabled(w, a) && (a.Subscribe? || a.Unsubscribe? || a.CloseChannel?)
    ensures forall id {:trigger LifeOk(Do(w, a), id)} :: LifeOk(Do(w, a), id)
  {
    hide FlowOk, Last;
    forall id ensures LifeOk(Do(w, a), id) { assert LifeOk(w, id); }
  }

  lemma SubscriptionFlow(w: World, a: Action, id: SubId)
    requires Inv(w) && Enabled(w, a) && (a.Subscribe? || a.Unsubscribe? || a.CloseChannel?)
    requires id in Do(w, a).chans
    ensures FlowOk(Do(w, a), id)
  {
    hide Last, LifeOk;
    if id in w.chans {
      assert FlowOk(w, id);
      hide Subsequence;
    } else {
      assert w.published[|w.published|..|w.published|] == [];
    }
  }

  lemma ReceiveInv(w: World, id: SubId)
    requires Inv(w) && Enabled(w, Receive(id))
    ensures Inv(Do(w, Receive(id)))
  {
    hide Last, Subsequence;
    var w', c := Do(w, Receive(id)), w.chans[id];
    assert c.received + [c.buf[0]] + c.buf[1..] == c.received + c.buf;
    forall i ensures LifeOk(w', i) { assert LifeOk(w, i); }
    forall i | i in w'.chans ensures FlowOk(w', i) { assert FlowOk(w, i); }
  }

  lemma {:induction false} RunInv(acts: seq<Action>)
    ensures Inv(After(Start(), acts))
  {
    hide Inv, Do, Enabled;
    if acts == [] {
      StartInv();
    } else {
      RunInv(acts[..|acts| - 1]);
      StepInv(After(Start(), acts[..|acts| - 1]), acts[|acts| - 1]);
    }
  }

  lemma StartInv()
    ensures Inv(Start())
  {
  }

  lemma StepInv(w: World, a: Action)
    requires Inv(w)
    ensures Enabled(w, a) ==> Inv(Do(w, a))
  {
    hide Inv, Do;
    if Enabled(w, a) {
      match a
      case Publish(e) => PublishInv(w, e);
      case Close => CloseInv(w);
      case Receive(id) => ReceiveInv(w, id);
      case _ => SubscriptionInv(w, a);
    }
  }

  // ------------------------------------------------------------ the promises

  /** No channel is ever closed twice or sent on after close, in any
      interleaving of Subscribe, Unsubscribe, Publish, Close and receivers. */
  lemma {:induction false} NeverPanics(acts: seq<Action>)
    ensures !After(Start(), acts).panicked
  {
    hide After;
    RunInv(acts);
  }

  /** The history is the last 100 events published before Close, or all of them. */
  lemma {:induction false} HistoryIsRecent(acts: seq<Action>)
    ensures var w := After(Start(), acts);
            && |w.recent| == (if |w.published| < 100 then |w.published| else 100)
            && w.recent == w.published[|w.published| - |w.recent|..]
  {
    hide After;
    RunInv(acts);
  }

  /** What a subscriber got and still has buffered is, in order, part of the
      events published while it was subscribed, and short of them by exactly the
      drops: without drops it is all of them. */
  lemma {:induction false} StreamIsOrdered(acts: seq<Action>, id: SubId)
    requires id in After(Start(), acts).chans
    ensures var w := After(Start(), acts);
            var c := w.chans[id];
            && c.from + |c.offered| <= |w.published|
            && c.offered == w.published[c.from..c.from + |c.offered|]
            && (id in w.subs ==> c.offered == w.published[c.from..])
            && Subsequence(Stream(c), c.offered)
            && |Stream(c)| + c.drops == |c.offered|
            && (c.drops == 0 ==> Stream(c) == c.offered)
  {
    hide After, Subsequence, LifeOk;
    RunInv(acts);
    var w := After(Start(), acts);
    assert FlowOk(w, id);
    SubsequenceShorter(Stream(w.chans[id]), w.chans[id].offered);
  }

  /** A published event is dropped for a subscriber exactly when 64 are waiting in
      its channel; otherwise it is appended.  Nobody else is sent it. */
  lemma {:induction false} DroppedIff(acts: seq<Action>, e: Event, id: SubId)
    requires var w := After(Start(), acts); !w.closed && id in w.chans
    ensures id in After(Start(), acts + [Publish(e)]).chans
    ensures var w := After(Start(), acts);
            var c, c' := w.chans[id], After(Start(), acts + [Publish(e)]).chans[id];
            && |c.buf| <= 64 && c'.received == c.received && c'.closed == c.closed
            && (id !in w.subs ==> c' == c)
            && (id in w.subs ==> c'.offered == c.offered + [e])
            && (id in w.subs && |c.buf| == 64 ==> c'.buf == c.buf && c'.drops == c.drops + 1)
            && (id in w.subs && |c.buf| < 64 ==> c'.buf == c.buf + [e] && c'.drops == c.drops)
  {
    var more := acts + [Publish(e)];
    assert more[..|more| - 1] == acts;
    assert After(Start(), more) == Do(After(Start(), acts), Publish(e));
    hide After, LifeOk, Last;
    RunInv(acts);
    assert FlowOk(After(Start(), acts), id);
    hide Subsequence;
  }

  /** A channel whose subscription has ended gets nothing more, whatever happens:
      what it was offered, received and has buffered together stays as it is. */
  lemma {:induction false} EndedStreamStays(w: World, more: seq<Action>, id: SubId)
    requires id in w.chans && id !in w.subs
    ensures var v := After(w, more);
            && id in v.chans && id !in v.subs
            && v.chans[id].offered == w.chans[id].offered && Stream(v.chans[id]) == Stream(w.chans[id])
            && (w.chans[id].closed ==> v.chans[id].closed)
  {
    if more != [] {
      EndedStreamStays(w, more[..|more| - 1], id);
      var v, a := After(w, more[..|more| - 1]), more[|more| - 1];
      hide After;
      if Enabled(v, a) && a == Receive(id) {
        var c := v.chans[id];
        assert c.received + [c.buf[0]] + c.buf[1..] == c.received + c.buf;
      }
    }
  }

  /** After Unsubscribe the channel gets nothing more, ever. */
  lemma {:induction false} UnsubscribeEnds(w: World, more: seq<Action>, id: SubId)
    requires id in w.chans
    ensures var v := After(Do(w, Unsubscribe(id)), more);
            id in v.chans && id !in v.subs && Stream(v.chans[id]) == Stream(w.chans[id])
  {
    hide After, Stream;
    EndedStreamStays(Do(w, Unsubscribe(id)), more, id);
  }

  /** After Close every receive loop ends: a channel is closed, or the
      Unsubscribe that removed it is about to close it. */
  lemma {:induction false} CloseEndsStreams(acts: seq<Action>, id: SubId)
    requires var w := After(Start(), acts); w.closed && id in w.chans
    ensures var w := After(Start(), acts); w.chans[id].closed || id in w.closing
  {
    hide After, FlowOk;
    RunInv(acts);
    assert LifeOk(After(Start(), acts), id);
  }

  // ---------------------------------------------------------- the hub object

  /** What a publication does to one channel: dropped when 64 events are waiting. */
  predicate Offered(before: seq<Event>, after: seq<Event>, e: Event) {
    after == if |before| < 64 then before + [e] else before
  }

  class Channel {
    var buf: seq<Event>
    var closed: bool

    constructor ()
      ensures buf == [] && !closed
    {
      buf, closed := [], false;
    }

    method Close()
      modifies `closed
      ensures closed
    {
      closed := true;
    }

    /** A send that never blocks. */
    method TrySend(e: Event)
      modifies `buf
      ensures buf == Offer(old(buf), e) && Offered(old(buf), buf, e)
    {
      if |buf| < BUFFER { buf := buf + [e]; }
    }
  }

  class EventHub {
    var subscribers: map<SubId, Channel>
    var recent: seq<Event>
    var closed: bool

    constructor ()
      ensures Valid() && subscribers == map[] && recent == [] && !closed
    {
      subscribers, recent, closed := map[], [], false;
    }

    /** Subscribed channels are open and not shared. */
    ghost predicate Valid()
      reads this, subscribers.Values
    {
      && (closed ==> subscribers == map[])
      && (forall id :: id in subscribers ==> !subscribers[id].closed)
      && (forall i, j :: i in subscribers && j in subscribers && subscribers[i] == subscribers[j] ==> i == j)
    }

    method Subscribe(id: SubId) returns (ch: Channel)
      requires Valid() && id !in subscribers
      modifies `subscribers
      ensures Valid() && fresh(ch) && ch.buf == [] && ch.closed == closed
      ensures subscribers == if closed then old(subscribers) else old(subscribers)[id := ch]
    {
      ch := new Channel();
      if closed {
        ch.closed := true;
        return;
      }
      subscribers := subscribers[id := ch];
    }

    /** The locked half of Unsubscribe; closing the channel is the caller's next step. */
    method Remove(id: SubId) returns (removed: bool)
      requires Valid()
      modifies `subscribers
      ensures Valid()
      ensures removed == (id in old(subscribers))
      ensures subscribers == old(subscribers) - {id}
    {
      removed := id in subscribers;
      subscribers := subscribers - {id};
    }

    method Unsubscribe(id: SubId)
      requires Valid()
      modifies `subscribers, if id in subscribers then {subscribers[id]} else {}
      ensures Valid() && subscribers == old(subscribers) - {id}
      ensures id in old(subscribers) ==>
                old(subscribers)[id].closed && old(subscribers)[id].buf == old(subscribers[id].buf)
    {
      var subs := subscribers;
      var removed := Remove(id);
      if removed {
        var ch := subs[id];
        ch.closed := true;
      }
    }

    method Publish(event: Event)
      requires Valid()
      modifies `recent, subscribers.Values
      ensures Valid()
      ensures recent == if closed then old(recent) else Last(old(recent) + [event], MAX_RECENT)
      ensures forall id :: id in subscribers ==> Offered(old(subscribers[id].buf), subscribers[id].buf, event)
    {
      hide Last, Offered;
      if closed { return; }
      Remember(event);
      SendAll(event);
    }

    /** The history after one more event: the last hundred. */
    method Remember(event: Event)
      modifies `recent
      ensures recent == Last(old(recent) + [event], MAX_RECENT)
      ensures |recent| == if |old(recent)| < 100 then |old(recent)| + 1 else 100
    {
      recent := recent + [event];
      if |recent| > MAX_RECENT { recent := recent[|recent| - MAX_RECENT..]; }
    }

    /** Publish's loop: the event is offered to every subscriber once. */
    method SendAll(event: Event)
      requires Valid()
      modifies subscribers.Values
      ensures Valid()
      ensures forall id :: id in subscribers ==> Offered(old(subscribers[id].buf), subscribers[id].buf, event)
    {
      hide Offer, Offered;
      var todo := subscribers.Keys;
      while todo != {}
        invariant todo <= subscribers.Keys && Valid()
        invariant forall id :: id in subscribers ==>
                    if id in todo then subscribers[id].buf == old(subscribers[id].buf)
                    else Offered(old(subscribers[id].buf), subscribers[id].buf, event)
      {
        var id :| id in todo;
        subscribers[id].TrySend(event);
        todo := todo - {id};
      }
    }

    method Close()
      requires Valid()
      modifies `subscribers, `closed, subscribers.Values
      ensures Valid() && closed && subscribers == map[]
      ensures !old(closed) ==> forall id :: id in old(subscribers) ==>
                old(subscribers)[id].closed && old(subscribers)[id].buf == old(subscribers[id].buf)
    {
      if closed { return; }
      closed := true;
      CloseChannels();
    }

    /** Close's loop: every subscribed channel is closed, then forgotten. */
    method CloseChannels()
      requires forall i, j :: i in subscribers && j in subscribers && subscribers[i] == subscribers[j] ==> i == j
      requires forall id :: id in subscribers ==> !subscribers[id].closed
      modifies `subscribers, (set id | id in subscribers :: subscribers[id])`closed
      ensures subscribers == map[]
      ensures forall id :: id in old(subscribers) ==> old(subscribers)[id].closed
    {
      var subs := subscribers;
      while subscribers.Keys != {}
        invariant forall id :: id in subscribers ==> id in subs && subscribers[id] == subs[id]
        invariant forall id :: id in subs ==> (subs[id].closed <==> id !in subscribers)
        decreases |subscribers|
      {
        var id :| id in subscribers;
        subscribers[id].Close();
        subscribers := subscribers - {id};
      }
    }

    /** Up to `limit` retained events, newest first; a limit that is not positive means all. */
    method Recent(limit: int) returns (result: seq<Event>)
      ensures |result| == if limit <= 0 || limit > |recent| then |recent| else limit
      ensures forall i :: 0 <= i < |result| ==> result[i] == recent[|recent| - 1 - i]
    {
      var n := |recent|;
      var count := if limit <= 0 || limit > n then n else limit;
      result := [];
      for i := 0 to count
        invariant |result| == i && forall k :: 0 <= k < i ==> result[k] == recent[n - 1 - k]
      {
        result := result + [recent[n - 1 - i]];
      }
    }
  }
}
