/** One node's connection: routing what the node sends to the requests that wait for it. */
module Connection {
  import opened Results
  import D = Dispatch
  import F = Failover

  const CHANNEL_CAPACITY := 128

  /** What a request's channel holds: the node's messages, or the notice that the connection closed. */
  datatype Item = FromNode(message: D.Message) | Disconnected

  /** One SendInference call: its channel, and what it has read from it. */
  datatype Channel = Channel(id: string, consumed: seq<Item>, queue: seq<Item>, returned: bool)

  /**
   `hand` is the reader between looking a channel up and sending into it, outside the lock.
   `wire` is what the node has sent under each request id since that request began.
   */
  datatype State = State(pending: map<string, nat>, channels: seq<Channel>, hand: Option<(nat, D.Message)>,
                         wire: map<string, seq<D.Message>>)

  datatype Event =
    | Open(id: string)
    | Arrive(id: string, message: D.Message)
    | Push
    | Consume(channel: nat)
    | Return(channel: nat)
    | Close

  function Put(c: Channel, item: Item): Channel {
    c.(queue := c.queue + [item])
  }

  function Sent(s: State, id: string): seq<D.Message> {
    if id in s.wire then s.wire[id] else []
  }

  predicate Waiting(s: State, c: nat) {
    c < |s.channels| && s.channels[c].id in s.pending && s.pending[s.channels[c].id] == c
  }

  /** Request ids are drawn afresh, so none opens twice on a connection. */
  predicate Enabled(s: State, ev: Event) {
    match ev
    case Open(id) => id !in s.wire
    case Arrive(_, _) => s.hand.None?
    case Push => s.hand.Some? && s.hand.value.0 < |s.channels| && |s.channels[s.hand.value.0].queue| < CHANNEL_CAPACITY
    case Consume(c) => c < |s.channels| && !s.channels[c].returned && s.channels[c].queue != []
    case Return(c) => c < |s.channels| && !s.channels[c].returned
    case Close => forall c :: 0 <= c < |s.channels| && Waiting(s, c) ==> |s.channels[c].queue| < CHANNEL_CAPACITY
  }

  function Closed(s: State): seq<Channel> {
    seq(|s.channels|, c requires 0 <= c < |s.channels| =>
      if Waiting(s, c) then Put(s.channels[c], Disconnected) else s.channels[c])
  }

  ghost function Step(s: State, ev: Event): State {
    if !Enabled(s, ev) then s
    else match ev
      case Open(id) =>
        s.(pending := s.pending[id := |s.channels|], channels := s.channels + [Channel(id, [], [], false)], wire := s.wire[id := []])
      case Arrive(id, m) =>
        s.(hand := if id in s.pending then Some((s.pending[id], m)) else None,
           wire := if id in s.wire then s.wire[id := s.wire[id] + [m]] else s.wire)
      case Push =>
        var (c, m) := s.hand.value;
        s.(channels := s.channels[c := Put(s.channels[c], FromNode(m))], hand := None)
      case Consume(c) =>
        var ch := s.channels[c];
        s.(channels := s.channels[c := ch.(consumed := ch.consumed + [ch.queue[0]], queue := ch.queue[1..])])
      case Return(c) =>
        s.(channels := s.channels[c := s.channels[c].(returned := true)], pending := s.pending - {s.channels[c].id})
      case Close => s.(channels := Closed(s), pending := map[])
  }

  ghost function Run(s: State, evs: seq<Event>): State {
    if evs == [] then s else Step(Run(s, evs[..|evs| - 1]), evs[|evs| - 1])
  }

  /** The node's own messages among a channel's items. */
  function Real(items: seq<Item>): seq<D.Message> {
    if items == [] then []
    else
      var last := items[|items| - 1];
      Real(items[..|items| - 1]) + if last.FromNode? then [last.message] else []
  }

  lemma RealAppend(items: seq<Item>, x: Item)
    ensures Real(items + [x]) == Real(items) + if x.FromNode? then [x.message] else []
  {
    assert (items + [x])[..|items|] == items;
  }

  lemma {:induction false} RealSplits(a: seq<Item>, b: seq<Item>)
    ensures Real(a + b) == Real(a) + Real(b)
  {
    if b == [] {
      assert a + b == a;
    } else {
      var n := |b| - 1;
      RealSplits(a, b[..n]);
      assert a + b == a + b[..n] + [b[n]] && b == b[..n] + [b[n]];
      RealAppend(a + b[..n], b[n]);
      RealAppend(b[..n], b[n]);
    }
  }

  function InHand(s: State, c: nat): seq<D.Message> {
    if s.hand.Some? && s.hand.value.0 == c then [s.hand.value.1] else []
  }

  /** All of the node's messages that channel `c` has been given, read or not, with the one on its way. */
  function Given(s: State, c: nat): seq<D.Message>
    requires c < |s.channels|
  {
    Real(s.channels[c].consumed + s.channels[c].queue) + InHand(s, c)
  }

  ghost predicate ChannelOk(s: State, c: nat)
    requires c < |s.channels|
  {
    && s.channels[c].id in s.wire
    && Given(s, c) <= s.wire[s.channels[c].id]
    && (Waiting(s, c) ==> Given(s, c) == s.wire[s.channels[c].id])
  }

  ghost predicate Inv(s: State) {
    && (forall c :: 0 <= c < |s.channels| ==> ChannelOk(s, c))
    && (forall c, d :: 0 <= c < d < |s.channels| ==> s.channels[c].id != s.channels[d].id)
    && (forall id :: id in s.pending ==> s.pending[id] < |s.channels| && s.channels[s.pending[id]].id == id)
    && (s.hand.Some? ==> s.hand.value.0 < |s.channels|)
  }

  lemma StepKeepsInv(s: State, ev: Event)
    requires Inv(s)
    ensures Inv(Step(s, ev))
  {
    var s' := Step(s, ev);
    if Enabled(s, ev) {
      forall c | 0 <= c < |s'.channels| ensures ChannelOk(s', c) {
        ChannelKept(s, ev, c);
      }
      forall c | 0 <= c < |s.channels| ensures s.channels[c].id in s.wire {
        assert ChannelOk(s, c);
      }
    }
  }

  lemma PutKeepsRest(ch: Channel, item: Item)
    ensures Put(ch, item).consumed + Put(ch, item).queue == ch.consumed + ch.queue + [item]
    ensures Real(Put(ch, item).consumed + Put(ch, item).queue)
         == Real(ch.consumed + ch.queue) + if item.FromNode? then [item.message] else []
  {
    assert ch.consumed + (ch.queue + [item]) == ch.consumed + ch.queue + [item];
    RealAppend(ch.consumed + ch.queue, item);
  }

  lemma PushKeeps(s: State, c: nat)
    requires Inv(s) && Enabled(s, Push) && c < |s.channels|
    ensures ChannelOk(Step(s, Push), c)
  {
    assert ChannelOk(s, c);
    PutKeepsRest(s.channels[c], FromNode(s.hand.value.1));
  }

  lemma ConsumeKeeps(s: State, d: nat, c: nat)
    requires Inv(s) && Enabled(s, Consume(d)) && c < |s.channels|
    ensures ChannelOk(Step(s, Consume(d)), c)
  {
    assert ChannelOk(s, c);
    var ch := s.channels[d];
    assert ch.consumed + [ch.queue[0]] + ch.queue[1..] == ch.consumed + ch.queue;
  }

  /** A notice of the close adds nothing to what a channel was given by the node. */
  lemma CloseGivesNothing(s: State, c: nat)
    requires c < |s.channels|
    ensures Given(s.(channels := Closed(s), pending := map[]), c) == Given(s, c)
  {
    if Waiting(s, c) { PutKeepsRest(s.channels[c], Disconnected); }
  }

  lemma CloseKeeps(s: State, c: nat)
    requires Inv(s) && Enabled(s, Close) && c < |s.channels|
    ensures ChannelOk(Step(s, Close), c)
  {
    assert ChannelOk(s, c);
    CloseGivesNothing(s, c);
  }

  lemma ChannelKept(s: State, ev: Event, c: nat)
    requires Inv(s) && Enabled(s, ev) && c < |Step(s, ev).channels|
    ensures ChannelOk(Step(s, ev), c)
  {
    assert c < |s.channels| ==> ChannelOk(s, c);
    match ev
    case Push => PushKeeps(s, c);
    case Consume(d) => ConsumeKeeps(s, d, c);
    case Close => CloseKeeps(s, c);
    case _ =>
  }

  lemma {:induction false} RunKeepsInv(evs: seq<Event>)
    ensures Inv(Run(State(map[], [], None, map[]), evs))
  {
    if evs != [] {
      RunKeepsInv(evs[..|evs| - 1]);
      StepKeepsInv(Run(State(map[], [], None, map[]), evs[..|evs| - 1]), evs[|evs| - 1]);
    }
  }

  // ---- The connection object ----------------------------------------------------------------

  /** The pending table and its channels; each method is what happens while the lock is held, or one channel operation. */
  class NodeConn {
    var pending: map<string, nat>
    var channels: seq<Channel>
    var hand: Option<(nat, D.Message)>
    ghost var wire: map<string, seq<D.Message>>

    constructor ()
      ensures Abstract() == State(map[], [], None, map[]) && Inv(Abstract())
    {
      pending, channels, hand, wire := map[], [], None, map[];
    }

    ghost function Abstract(): State
      reads this
    {
      State(pending, channels, hand, wire)
    }

    method OpenChannel(id: string) returns (c: nat)
      requires Enabled(Abstract(), Open(id))
      modifies this
      ensures Abstract() == Step(old(Abstract()), Open(id)) && c == |old(channels)|
    {
      c := |channels|;
      channels := channels + [Channel(id, [], [], false)];
      pending := pending[id := c];
      wire := wire[id := []];
    }

    /** deliver, first half: look the channel up; nobody waiting means the message is dropped. */
    method LookUp(id: string, message: D.Message)
      requires Enabled(Abstract(), Arrive(id, message))
      modifies this
      ensures Abstract() == Step(old(Abstract()), Arrive(id, message))
    {
      if id in pending { hand := Some((pending[id], message)); }
      wire := if id in wire then wire[id := wire[id] + [message]] else wire;
    }

    /** deliver, second half: send outside the lock. */
    method Send()
      requires Enabled(Abstract(), Push)
      modifies this
      ensures Abstract() == Step(old(Abstract()), Push)
    {
      var (c, message) := hand.value;
      channels := channels[c := Put(channels[c], FromNode(message))];
      hand := None;
    }

    method Receive(c: nat) returns (item: Item)
      requires Enabled(Abstract(), Consume(c))
      modifies this
      ensures Abstract() == Step(old(Abstract()), Consume(c)) && item == old(channels[c].queue[0])
    {
      var ch := channels[c];
      item := ch.queue[0];
      channels := channels[c := ch.(consumed := ch.consumed + [item], queue := ch.queue[1..])];
    }

    method Leave(c: nat)
      requires Enabled(Abstract(), Return(c))
      modifies this
      ensures Abstract() == Step(old(Abstract()), Return(c))
    {
      channels := channels[c := channels[c].(returned := true)];
      pending := pending - {channels[c].id};
    }

    /** Every waiting request is told, then the table is emptied. */
    method CloseAll()
      requires Inv(Abstract()) && Enabled(Abstract(), Close)
      modifies this
      ensures Abstract() == Step(old(Abstract()), Close)
    {
      var rest := pending.Keys;
      while rest != {}
        invariant rest <= pending.Keys && pending == old(pending) && hand == old(hand) && wire == old(wire)
        invariant |channels| == |old(channels)|
        invariant forall c :: 0 <= c < |channels| ==>
                    channels[c] == if Waiting(old(Abstract()), c) && old(channels)[c].id !in rest
                                   then Put(old(channels)[c], Disconnected) else old(channels)[c]
        decreases rest
      {
        var id :| id in rest;
        rest := rest - {id};
        var c := pending[id];
        channels := channels[c := Put(channels[c], Disconnected)];
      }
      assert channels == Closed(old(Abstract()));
      pending := map[];
    }
  }

  // ---- What reaches the client --------------------------------------------------------------

  /** How SendInference sees an item: a closed connection reads as a retryable error. */
  function Seen(item: Item): D.Message {
    if item.FromNode? then item.message else D.ErrorMessage(Some(true))
  }

  function AllSeen(items: seq<Item>): seq<D.Message> {
    seq(|items|, i requires 0 <= i < |items| => Seen(items[i]))
  }

  /** What a request reads before it learns that the connection closed: messages of the node, none of them final. */
  ghost predicate Unfinished(items: seq<Item>) {
    forall i :: 0 <= i < |items| ==> items[i].FromNode? && !F.Ends(items[i].message)
  }

  /** A connection that closes under a request sends it to another node, unless a chunk has gone out or its context has ended. */
  lemma ClosedConnectionIsRetried(a: D.Attempt, items: seq<Item>)
    requires a.written && Unfinished(items) && a.messages == AllSeen(items + [Disconnected])
    ensures D.VerdictOf(a) == if F.Spoke(a) then D.BrokenOff else if a.cancelled then D.Refused else D.TryAgain
  {
    var n := |items|;
    assert forall i :: 0 <= i < n ==> a.messages[i] == items[i].message;
    assert a.messages[n].ErrorMessage? && F.Read(a, n);
    F.VerdictFromMessages(a);
  }

  lemma {:induction false} BodyIsReal(items: seq<Item>)
    ensures D.Body(AllSeen(items)) <= Real(items)
  {
    if items != [] {
      var rest := items[1..];
      BodyIsReal(rest);
      assert AllSeen(items)[1..] == AllSeen(rest);
      RealSplits([items[0]], rest);
      RealAppend([], items[0]);
      assert [items[0]] + rest == items && [] + [items[0]] == [items[0]];
    }
  }

  lemma {:induction false} ContentsOfPrefix(p: seq<D.Message>, q: seq<D.Message>)
    requires p <= q
    ensures D.Contents(p) <= D.Contents(q)
  {
    if |p| < |q| {
      ContentsOfPrefix(p, q[..|q| - 1]);
    } else {
      assert p == q;
    }
  }

  /**
   Over any interleaving of the reader, the requests and a close, what a request reads is a prefix
   of what the node sent under its own id, and so are the chunks it passes on.
   */
  lemma RequestsReadTheirOwn(evs: seq<Event>, c: nat)
    requires c < |Run(State(map[], [], None, map[]), evs).channels|
    ensures var s := Run(State(map[], [], None, map[]), evs);
            var ch := s.channels[c];
            && Real(ch.consumed) <= Sent(s, ch.id)
            && D.Contents(D.Body(AllSeen(ch.consumed))) <= D.Contents(Sent(s, ch.id))
  {
    var s := Run(State(map[], [], None, map[]), evs);
    var ch := s.channels[c];
    RunKeepsInv(evs);
    assert ChannelOk(s, c);
    RealSplits(ch.consumed, ch.queue);
    BodyIsReal(ch.consumed);
    ContentsOfPrefix(D.Body(AllSeen(ch.consumed)), Sent(s, ch.id));
  }
}
