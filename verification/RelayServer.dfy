/**
 The relay's bidirectional stream handler as the driver of the session manager. A stream registers
 a session for the sender of its first envelope, forwards or interprets what it receives, and
 unregisters that node when it ends. Theorems are about every run of any number of streams.
*/
module RelayServer {
  import opened Common
  import opened Relay

  const RELAY_TARGET := "RELAY"

  /** A control command decoded from an envelope addressed to the relay itself. */
  datatype Control = SubscribeTo(channel: string) | UnsubscribeFrom(channel: string) | Ignored

  /** The decoder for control payloads; malformed or unknown commands decode to Ignored. */
  type Decoder = seq<bv8> -> Control

  /** What the stream reads: an envelope, or a command that does not carry one. */
  datatype Incoming = Skipped | Message(env: Envelope)

  function Controlled(s: State, node: NodeId, control: Control): State {
    match control
    case SubscribeTo(channel) => if IsChannel(channel) then DoSubscribe(s, node, channel) else s
    case UnsubscribeFrom(channel) => DoUnsubscribe(s, node, channel)
    case Ignored => s
  }

  /** One turn of the receive loop of the stream of `node`. */
  function Handled(s: State, decode: Decoder, node: NodeId, m: Incoming): State {
    if m.Skipped? || m.env.sender != node then s
    else if m.env.target == RELAY_TARGET then Controlled(s, node, decode(m.env.payload))
    else DoForward(s, m.env).0
  }

  /** Opening a stream: registration, then the first envelope if it carries a payload. */
  function Opened(s: State, first: Envelope): (State, Option<QueueId>) {
    if first.sender == "" then (s, None)
    else
      var (t, session) := DoRegister(s, first.sender);
      if session.None? then (s, None)
      else (if |first.payload| > 0 then DoForward(t, first).0 else t, session)
  }

  function HandledAll(s: State, decode: Decoder, node: NodeId, inbox: seq<Incoming>): State {
    if inbox == [] then s
    else Handled(HandledAll(s, decode, node, inbox[..|inbox| - 1]), decode, node, inbox[|inbox| - 1])
  }

  /** A whole stream with no other activity. */
  function Streamed(s: State, decode: Decoder, first: Envelope, inbox: seq<Incoming>): State {
    var (t, session) := Opened(s, first);
    if session.None? then t else DoUnregister(HandledAll(t, decode, first.sender, inbox), first.sender)
  }

  lemma OpenedInv(s: State, first: Envelope)
    requires Inv(s)
    ensures Inv(Opened(s, first).0)
  {
    RegisterInv(s, first.sender);
    ForwardInv(DoRegister(s, first.sender).0, first);
  }

  lemma HandledInv(s: State, decode: Decoder, node: NodeId, m: Incoming)
    requires Inv(s)
    ensures Inv(Handled(s, decode, node, m))
  {
    if m.Message? {
      ForwardInv(s, m.env);
    }
  }

  /** The log lines of forwarding print a node that is not connected, so its name must be long enough. */
  predicate Printable(env: Envelope) {
    IsChannel(env.target) || Loggable(env.target)
  }

  /** What the stream of `node` forwards or interprets; what it skips may carry any identifiers. */
  predicate PrintableInbox(node: NodeId, inbox: seq<Incoming>) {
    forall i :: 0 <= i < |inbox| && inbox[i].Message? && inbox[i].env.sender == node ==>
      inbox[i].env.target == RELAY_TARGET || Printable(inbox[i].env)
  }

  method HandleRelayCommand(sm: SessionManager, decode: Decoder, node: NodeId, env: Envelope)
    requires sm.Valid() && Loggable(node)
    modifies sm
    ensures sm.Valid() && sm.Contents() == Controlled(old(sm.Contents()), node, decode(env.payload))
  {
    match decode(env.payload)
    case SubscribeTo(channel) =>
      if |channel| > 0 && channel[0] == '#' {
        sm.SubscribeToChannel(node, channel);
      }
    case UnsubscribeFrom(channel) => sm.UnsubscribeFromChannel(node, channel);
    case Ignored =>
  }

  method ReceiveLoop(sm: SessionManager, decode: Decoder, node: NodeId, inbox: seq<Incoming>)
    requires sm.Valid() && Loggable(node) && PrintableInbox(node, inbox)
    modifies sm
    ensures sm.Valid() && sm.Contents() == HandledAll(old(sm.Contents()), decode, node, inbox)
  {
    for i := 0 to |inbox|
      invariant sm.Valid() && sm.Contents() == HandledAll(old(sm.Contents()), decode, node, inbox[..i])
    {
      assert inbox[..i + 1][..i] == inbox[..i];
      var m := inbox[i];
      if m.Message? && m.env.sender == node {
        if m.env.target == RELAY_TARGET {
          HandleRelayCommand(sm, decode, node, m.env);
        } else {
          var _ := sm.ForwardEnvelope(m.env);
        }
      }
    }
    assert inbox[..|inbox|] == inbox;
  }

  /** The stream handler run to its end: registration, receive loop, deferred unregistration. */
  method StreamMessages(sm: SessionManager, decode: Decoder, first: Envelope, inbox: seq<Incoming>)
      returns (ok: bool)
    requires sm.Valid()
    requires first.sender != "" && first.sender !in sm.blacklist ==>
               Loggable(first.sender) && (|first.payload| > 0 ==> Printable(first)) && PrintableInbox(first.sender, inbox)
    modifies sm
    ensures sm.Valid() && sm.Contents() == Streamed(old(sm.Contents()), decode, first, inbox)
    ensures ok <==> first.sender != "" && first.sender !in old(sm.blacklist)
    ensures ok ==> first.sender !in sm.sessions
  {
    if first.sender == "" {
      return false;
    }
    var node := first.sender;
    var session := sm.RegisterSession(node);
    if session.None? {
      return false;
    }
    if |first.payload| > 0 {
      var _ := sm.ForwardEnvelope(first);
    }
    ReceiveLoop(sm, decode, node, inbox);
    sm.UnregisterSession(node);
    return true;
  }

  // ---------------------------------------------------------------------------------------
  // Any number of streams
  // ---------------------------------------------------------------------------------------

  type StreamId = nat

  /** The manager's state and, for every open stream, the node it registered. */
  datatype System = System(relay: State, streams: map<StreamId, NodeId>)

  datatype Event =
    | Open(id: StreamId, first: Envelope)
    | Arrive(id: StreamId, m: Incoming)
    | End(id: StreamId)
    | Ban(n: NodeId)
    | Unban(n: NodeId)
    | SendOut(q: QueueId)

  function Next(s: System, decode: Decoder, e: Event): System {
    match e
    case Open(id, first) =>
      if id in s.streams then s
      else
        var (relay, session) := Opened(s.relay, first);
        s.(relay := relay, streams := if session.None? then s.streams else s.streams[id := first.sender])
    case Arrive(id, m) =>
      if id in s.streams then s.(relay := Handled(s.relay, decode, s.streams[id], m)) else s
    case End(id) =>
      if id in s.streams then System(DoUnregister(s.relay, s.streams[id]), s.streams - {id}) else s
    case Ban(n) => s.(relay := DoBlacklist(s.relay, n))
    case Unban(n) => s.(relay := DoUnblacklist(s.relay, n))
    case SendOut(q) => s.(relay := ReceiveQueue(s.relay, q))
  }

  function Trace(decode: Decoder, events: seq<Event>): System {
    if events == [] then System(INITIAL, map[])
    else Next(Trace(decode, events[..|events| - 1]), decode, events[|events| - 1])
  }

  ghost predicate ChannelsNamed(s: State) {
    forall c :: c in s.channels ==> IsChannel(c)
  }

  lemma NextInv(s: System, decode: Decoder, e: Event)
    requires Inv(s.relay)
    ensures Inv(Next(s, decode, e).relay)
  {
    match e
    case Open(id, first) => OpenedInv(s.relay, first);
    case Arrive(id, m) => if id in s.streams { HandledInv(s.relay, decode, s.streams[id], m); }
    case End(id) => if id in s.streams { UnregisterInv(s.relay, s.streams[id]); }
    case Ban(n) => BlacklistInv(s.relay, n);
    case Unban(n) =>
    case SendOut(q) => ReceiveInv(s.relay, q);
  }

  lemma OpenedChannels(s: State, first: Envelope)
    ensures Opened(s, first).0.channels == s.channels
  {
  }

  lemma HandledChannels(s: State, decode: Decoder, node: NodeId, m: Incoming)
    requires ChannelsNamed(s)
    ensures ChannelsNamed(Handled(s, decode, node, m))
  {
  }

  lemma NextChannels(s: System, decode: Decoder, e: Event)
    requires ChannelsNamed(s.relay)
    ensures ChannelsNamed(Next(s, decode, e).relay)
  {
    if e.Arrive? {
      if e.id in s.streams { HandledChannels(s.relay, decode, s.streams[e.id], e.m); }
    } else {
      if e.Open? { OpenedChannels(s.relay, e.first); }
      assert Next(s, decode, e).relay.channels == s.relay.channels;
    }
  }

  /** Every run of the streams keeps the manager's invariant, and only '#' names become channels. */
  lemma {:induction false} TraceInv(decode: Decoder, events: seq<Event>)
    ensures Inv(Trace(decode, events).relay) && ChannelsNamed(Trace(decode, events).relay)
  {
    if events != [] {
      TraceInv(decode, events[..|events| - 1]);
      NextInv(Trace(decode, events[..|events| - 1]), decode, events[|events| - 1]);
      NextChannels(Trace(decode, events[..|events| - 1]), decode, events[|events| - 1]);
    }
  }

  /** Queue `q` got one envelope, through an open stream of its sender, who is not blacklisted. */
  ghost predicate EnteredBySender(s: System, t: System, e: Event, q: QueueId, env: Envelope)
    requires q < |s.relay.queues| && q < |t.relay.queues|
  {
    && (e.Open? || e.Arrive?)
    && e == (if e.Open? then Open(e.id, env) else Arrive(e.id, Message(env)))
    && e.id in t.streams && t.streams[e.id] == env.sender
    && env.sender !in s.relay.blacklist
    && t.relay.queues[q].sent == s.relay.queues[q].sent + [env]
  }

  lemma SentByOpening(s: State, first: Envelope, q: QueueId)
    requires Inv(s) && q < |s.queues|
    ensures q < |Opened(s, first).0.queues|
    ensures Opened(s, first).0.queues[q].sent != s.queues[q].sent ==>
              && Opened(s, first).1.Some? && first.sender !in s.blacklist
              && Opened(s, first).0.queues[q].sent == s.queues[q].sent + [first]
  {
    var t := Apply(s, Register(first.sender));
    SentByOthers(s, Register(first.sender), q);
    RegisterInv(s, first.sender);
    SentByForward(t, first, q);
  }

  lemma SentByHandling(s: State, decode: Decoder, node: NodeId, m: Incoming, q: QueueId)
    requires SessionsInv(s) && q < |s.queues|
    ensures q < |Handled(s, decode, node, m).queues|
    ensures Handled(s, decode, node, m).queues[q].sent != s.queues[q].sent ==>
              && m.Message? && m.env.sender == node && node !in s.blacklist
              && Handled(s, decode, node, m).queues[q].sent == s.queues[q].sent + [m.env]
  {
    if m.Message? {
      SentStep(s, Forward(m.env), q);
    }
  }

  /**
   No spoofing, in every run: an envelope enters a queue only through an open stream registered for
   that envelope's own sender, and never while that sender is blacklisted.
  */
  lemma OnlyTheSenderSends(decode: Decoder, events: seq<Event>, e: Event, q: QueueId)
    requires q < |Trace(decode, events).relay.queues|
    ensures var s, t := Trace(decode, events), Next(Trace(decode, events), decode, e);
            && q < |t.relay.queues|
            && (t.relay.queues[q].sent != s.relay.queues[q].sent ==> exists env :: EnteredBySender(s, t, e, q, env))
  {
    TraceInv(decode, events);
    SentByEvent(Trace(decode, events), decode, e, q);
  }

  lemma SentByEvent(s: System, decode: Decoder, e: Event, q: QueueId)
    requires Inv(s.relay) && q < |s.relay.queues|
    ensures var t := Next(s, decode, e);
            && q < |t.relay.queues|
            && (t.relay.queues[q].sent != s.relay.queues[q].sent ==> exists env :: EnteredBySender(s, t, e, q, env))
  {
    if e.Open? {
      SentByOpen(s, decode, e, q);
    } else if e.Arrive? {
      SentByArrive(s, decode, e, q);
    } else {
      SentByOtherEvents(s, decode, e, q);
    }
  }

  lemma SentByOpen(s: System, decode: Decoder, e: Event, q: QueueId)
    requires Inv(s.relay) && q < |s.relay.queues| && e.Open?
    ensures var t := Next(s, decode, e);
            && q < |t.relay.queues|
            && (t.relay.queues[q].sent != s.relay.queues[q].sent ==> EnteredBySender(s, t, e, q, e.first))
  {
    SentByOpening(s.relay, e.first, q);
  }

  lemma SentByArrive(s: System, decode: Decoder, e: Event, q: QueueId)
    requires Inv(s.relay) && q < |s.relay.queues| && e.Arrive?
    ensures var t := Next(s, decode, e);
            && q < |t.relay.queues|
            && (t.relay.queues[q].sent != s.relay.queues[q].sent ==>
                  e.m.Message? && EnteredBySender(s, t, e, q, e.m.env))
  {
    if e.id in s.streams { SentByHandling(s.relay, decode, s.streams[e.id], e.m, q); }
  }

  lemma SentByOtherEvents(s: System, decode: Decoder, e: Event, q: QueueId)
    requires Inv(s.relay) && q < |s.relay.queues| && !e.Open? && !e.Arrive?
    ensures var t := Next(s, decode, e);
            q < |t.relay.queues| && t.relay.queues[q].sent == s.relay.queues[q].sent
  {
    if e.End? && e.id in s.streams { SentStep(s.relay, Unregister(s.streams[e.id]), q); }
    if e.Ban? { SentStep(s.relay, Blacklist(e.n), q); }
    if e.SendOut? { SentStep(s.relay, Receive(e.q), q); }
  }

  /**
   The deferred unregistration works by node, not by session: when any stream of a node ends, the
   node has no session, even if a newer stream of the same node had registered one.
  */
  lemma EndRemovesEverySessionOfTheNode(decode: Decoder, events: seq<Event>, old': StreamId, new': StreamId)
    requires var s := Trace(decode, events);
             old' != new' && old' in s.streams && new' in s.streams && s.streams[old'] == s.streams[new']
    ensures var s, t := Trace(decode, events), Next(Trace(decode, events), decode, End(old'));
            && new' in t.streams && t.streams[new'] !in t.relay.sessions
            && (t.streams[new'] in s.relay.sessions ==>
                  IsClosed(t.relay, s.relay.sessions[t.streams[new']]))
  {
    TraceInv(decode, events);
  }

  predicate HasQueue(s: State, node: NodeId, q: QueueId) {
    node in s.sessions && s.sessions[node] == q
  }

  /** The event opens or ends another stream of the node than `id`, or bans the node. */
  predicate Disturbs(s: System, e: Event, id: StreamId, node: NodeId) {
    || (e.Open? && e.id !in s.streams && e.first.sender == node && node != "" && node !in s.relay.blacklist)
    || (e.End? && e.id != id && e.id in s.streams && s.streams[e.id] == node)
    || (e.Ban? && e.n == node)
  }

  /** One event: the queue allocated for the node is still its session exactly if it was and the event does not disturb it. */
  lemma QueueKeptByEvent(s: System, decode: Decoder, e: Event, id: StreamId, node: NodeId, q: QueueId)
    requires q < |s.relay.queues| && e != End(id)
    ensures |Next(s, decode, e).relay.queues| >= |s.relay.queues|
    ensures HasQueue(Next(s, decode, e).relay, node, q) <==> HasQueue(s.relay, node, q) && !Disturbs(s, e, id, node)
  {
    if e.Open? {
      QueueKeptByOpening(s.relay, e.first, node, q);
    } else if e.Arrive? {
      if e.id in s.streams { QueueKeptByHandling(s.relay, decode, s.streams[e.id], e.m); }
    }
  }

  lemma QueueKeptByOpening(s: State, first: Envelope, node: NodeId, q: QueueId)
    requires q < |s.queues|
    ensures |Opened(s, first).0.queues| >= |s.queues|
    ensures HasQueue(Opened(s, first).0, node, q) <==>
            HasQueue(s, node, q) && !(first.sender == node && node != "" && node !in s.blacklist)
  {
    if first.sender != "" { OpenedShape(s, first); }
  }

  lemma OpenedShape(s: State, first: Envelope)
    requires first.sender != ""
    ensures Opened(s, first).0.sessions == DoRegister(s, first.sender).0.sessions
    ensures |Opened(s, first).0.queues| == |DoRegister(s, first.sender).0.queues|
    ensures Opened(s, first).1 == DoRegister(s, first.sender).1
  {
  }

  lemma QueueKeptByHandling(s: State, decode: Decoder, node: NodeId, m: Incoming)
    ensures Handled(s, decode, node, m).sessions == s.sessions
    ensures |Handled(s, decode, node, m).queues| == |s.queues|
  {
  }

  /** The stream `id` opened at step `k` of the run for `node` with queue `q`, and has not ended since. */
  ghost predicate OpenSince(decode: Decoder, events: seq<Event>, k: nat, id: StreamId, node: NodeId, q: QueueId)
    requires k < |events|
  {
    var s := Trace(decode, events[..k]);
    && events[k].Open? && events[k].id == id && id !in s.streams && events[k].first.sender == node
    && Opened(s.relay, events[k].first).1 == Some(q)
    && forall i :: k < i < |events| ==> events[i] != End(id)
  }

  ghost predicate Undisturbed(decode: Decoder, events: seq<Event>, k: nat, id: StreamId, node: NodeId) {
    forall i :: k < i < |events| ==> !Disturbs(Trace(decode, events[..i]), events[i], id, node)
  }

  lemma UndisturbedInit(decode: Decoder, events: seq<Event>, k: nat, id: StreamId, node: NodeId)
    requires k + 1 < |events|
    ensures var n := |events| - 1;
            Undisturbed(decode, events, k, id, node) <==>
            Undisturbed(decode, events[..n], k, id, node) && !Disturbs(Trace(decode, events[..n]), events[n], id, node)
  {
    var init := events[..|events| - 1];
    forall i | k < i < |init| ensures init[..i] == events[..i] && init[i] == events[i] { }
    if Undisturbed(decode, events, k, id, node) {
      forall i | k < i < |init| ensures !Disturbs(Trace(decode, init[..i]), init[i], id, node) {
        assert init[..i] == events[..i];
      }
    }
    if Undisturbed(decode, init, k, id, node) && !Disturbs(Trace(decode, init), events[|events| - 1], id, node) {
      forall i | k < i < |events| ensures !Disturbs(Trace(decode, events[..i]), events[i], id, node) {
        assert i < |init| ==> init[..i] == events[..i];
      }
    }
  }

  lemma OpenSinceInit(decode: Decoder, events: seq<Event>, k: nat, id: StreamId, node: NodeId, q: QueueId)
    requires k + 1 < |events| && OpenSince(decode, events, k, id, node, q)
    ensures OpenSince(decode, events[..|events| - 1], k, id, node, q)
  {
    assert events[..|events| - 1][..k] == events[..k];
  }

  lemma OpensWithQueue(s: System, decode: Decoder, id: StreamId, first: Envelope, q: QueueId)
    requires id !in s.streams && Opened(s.relay, first).1 == Some(q)
    ensures q < |Next(s, decode, Open(id, first)).relay.queues|
    ensures HasQueue(Next(s, decode, Open(id, first)).relay, first.sender, q)
  {
    OpenedShape(s.relay, first);
  }

  lemma TraceSnoc(decode: Decoder, events: seq<Event>)
    requires events != []
    ensures Trace(decode, events) == Next(Trace(decode, events[..|events| - 1]), decode, events[|events| - 1])
  {
  }

  /**
   What survives of an open stream, exactly: in every run, an open stream's queue is still its node's
   session if and only if, since the stream opened, no other stream of the node opened or ended and
   the node was not banned.
  */
  lemma {:induction false} SessionKeptExactly(decode: Decoder, events: seq<Event>, k: nat, id: StreamId, node: NodeId, q: QueueId)
    requires k < |events| && OpenSince(decode, events, k, id, node, q)
    ensures q < |Trace(decode, events).relay.queues|
    ensures HasQueue(Trace(decode, events).relay, node, q) <==> Undisturbed(decode, events, k, id, node)
    decreases |events|
  {
    var n := |events| - 1;
    var init, s := events[..n], Trace(decode, events[..n]);
    TraceSnoc(decode, events);
    if n == k {
      OpensWithQueue(s, decode, id, events[k].first, q);
    } else {
      OpenSinceInit(decode, events, k, id, node, q);
      SessionKeptExactly(decode, init, k, id, node, q);
      QueueKeptByEvent(s, decode, events[n], id, node, q);
      UndisturbedInit(decode, events, k, id, node);
    }
  }
}
