/**
 What the relay's streams achieve over a whole trace, said from the events alone: which streams are
 open, exactly which envelopes reach which queue, and which control commands subscribe whom.
*/
module RelayStreams {
  import opened Common
  import opened Relay
  import opened RelayServer
  import RelayHistory

  // ---------------------------------------------------------------------------------------
  // Open streams
  // ---------------------------------------------------------------------------------------

  /** The event opens stream `id` for node `n`: a fresh stream whose first envelope names an admitted sender. */
  predicate OpensFor(s: System, e: Event, id: StreamId, n: NodeId) {
    e.Open? && e.id == id && id !in s.streams && e.first.sender == n && n != "" && n !in s.relay.blacklist
  }

  predicate IsOpenFor(s: System, id: StreamId, n: NodeId) {
    id in s.streams && s.streams[id] == n
  }

  ghost predicate OpensAt(decode: Decoder, events: seq<Event>, k: int, id: StreamId, n: NodeId) {
    0 <= k < |events| && OpensFor(Trace(decode, events[..k]), events[k], id, n)
  }

  predicate EndsAt(events: seq<Event>, k: int, id: StreamId) {
    0 <= k < |events| && events[k] == End(id)
  }

  ghost predicate OpenBefore(decode: Decoder, events: seq<Event>, k: int, id: StreamId, n: NodeId) {
    0 <= k <= |events| && IsOpenFor(Trace(decode, events[..k]), id, n)
  }

  lemma TraceStep(decode: Decoder, events: seq<Event>, k: nat)
    requires k < |events|
    ensures Trace(decode, events[..k + 1]) == Next(Trace(decode, events[..k]), decode, events[k])
  {
    assert events[..k + 1][..k] == events[..k];
  }

  lemma OpenedStream(s: State, first: Envelope)
    ensures Opened(s, first).1.Some? <==> first.sender != "" && first.sender !in s.blacklist
  {
  }

  lemma OpenByEvent(s: System, decode: Decoder, e: Event, id: StreamId, n: NodeId)
    ensures IsOpenFor(Next(s, decode, e), id, n) <==> OpensFor(s, e, id, n) || (IsOpenFor(s, id, n) && e != End(id))
  {
    if e.Open? {
      OpenedStream(s.relay, e.first);
    }
  }

  /**
   In every trace a stream is open for a node if and only if some event opened it for that node and it
   has not ended since.
  */
  lemma OpenExactly(decode: Decoder, events: seq<Event>, id: StreamId, n: NodeId)
    ensures IsOpenFor(Trace(decode, events), id, n) <==>
            LastSet(k => OpensAt(decode, events, k, id, n), k => EndsAt(events, k, id), 0, |events|)
  {
    forall k: int | 0 <= k < |events|
      ensures OpenBefore(decode, events, k + 1, id, n) <==>
              OpensAt(decode, events, k, id, n) || (OpenBefore(decode, events, k, id, n) && !EndsAt(events, k, id))
    {
      TraceStep(decode, events, k);
      OpenByEvent(Trace(decode, events[..k]), decode, events[k], id, n);
    }
    SetAndNotCleared(k => OpenBefore(decode, events, k, id, n), k => OpensAt(decode, events, k, id, n),
                     k => EndsAt(events, k, id), 0, |events|);
    assert events[..|events|] == events;
  }

  // ---------------------------------------------------------------------------------------
  // Delivery
  // ---------------------------------------------------------------------------------------

  /** The event carries an envelope of the sender's own open stream, not meant for the relay itself. */
  predicate Carries(s: System, e: Event) {
    e.Arrive? && e.m.Message? && IsOpenFor(s, e.id, e.m.env.sender) && e.m.env.target != "RELAY"
  }

  /** The event opens a stream with an envelope that has a payload. */
  predicate OpensWith(s: System, e: Event) {
    e.Open? && OpensFor(s, e, e.id, e.first.sender) && |e.first.payload| > 0
  }

  /** What one event must add to the history of queue `q`. */
  ghost function Adds(s: System, e: Event, q: QueueId): seq<Envelope> {
    if Carries(s, e) && q in Targets(s.relay, e.m.env) then [e.m.env]
    else if OpensWith(s, e) && q in Targets(DoRegister(s.relay, e.first.sender).0, e.first) then [e.first]
    else []
  }

  ghost function Reaching(decode: Decoder, events: seq<Event>, q: QueueId): seq<Envelope> {
    if events == [] then []
    else
      var before := events[..|events| - 1];
      Reaching(decode, before, q) + Adds(Trace(decode, before), events[|events| - 1], q)
  }

  /** The history of a queue, none yet if the queue is not allocated. */
  function History(s: State, q: QueueId): seq<Envelope> {
    if q < |s.queues| then s.queues[q].sent else []
  }

  lemma HistoryByOp(s: State, op: Op, q: QueueId)
    requires SessionsInv(s)
    ensures History(Apply(s, op), q) == History(s, q) + if op.Forward? && q in Targets(s, op.env) then [op.env] else []
  {
    if q < |s.queues| { SentStep(s, op, q); } else { NewQueueStep(s, op, q); }
  }

  lemma OpenedIsForwarded(s: State, first: Envelope)
    requires first.sender != "" && first.sender !in s.blacklist
    ensures Opened(s, first).0 ==
            var t := DoRegister(s, first.sender).0; if |first.payload| > 0 then DoForward(t, first).0 else t
  {
  }

  lemma HistoryOfForward(t: State, env: Envelope, q: QueueId)
    requires SessionsInv(t)
    ensures History(DoForward(t, env).0, q) == History(t, q) + if q in Targets(t, env) then [env] else []
  {
    HistoryByOp(t, Forward(env), q);
  }

  lemma HistoryOfRegister(s: State, n: NodeId, q: QueueId)
    requires Inv(s)
    ensures SessionsInv(DoRegister(s, n).0) && History(DoRegister(s, n).0, q) == History(s, q)
  {
    RegisterInv(s, n);
    HistoryByOp(s, Register(n), q);
  }

  lemma HistoryFrom(t: State, v: State, first: Envelope, q: QueueId)
    requires SessionsInv(t) && v == if |first.payload| > 0 then DoForward(t, first).0 else t
    ensures History(v, q) == History(t, q) + if |first.payload| > 0 && q in Targets(t, first) then [first] else []
  {
    if |first.payload| > 0 { HistoryOfForward(t, first, q); }
  }

  lemma HistoryOfOpened(s: State, first: Envelope, q: QueueId)
    requires Inv(s) && first.sender != "" && first.sender !in s.blacklist
    ensures History(Opened(s, first).0, q) ==
            History(s, q) + if |first.payload| > 0 && q in Targets(DoRegister(s, first.sender).0, first) then [first] else []
  {
    OpenedIsForwarded(s, first);
    HistoryOfRegister(s, first.sender, q);
    HistoryFrom(DoRegister(s, first.sender).0, Opened(s, first).0, first, q);
  }

  lemma HistoryByOpening(s: System, decode: Decoder, e: Event, q: QueueId)
    requires Inv(s.relay) && e.Open?
    ensures History(Next(s, decode, e).relay, q) == History(s.relay, q) + Adds(s, e, q)
  {
    if OpensFor(s, e, e.id, e.first.sender) {
      HistoryOfOpened(s.relay, e.first, q);
    } else {
      OpenLeavesRelay(s, decode, e);
    }
  }

  lemma OpenLeavesRelay(s: System, decode: Decoder, e: Event)
    requires e.Open? && !OpensFor(s, e, e.id, e.first.sender)
    ensures Next(s, decode, e).relay == s.relay
  {
  }

  lemma HistoryByArrival(s: System, decode: Decoder, e: Event, q: QueueId)
    requires Inv(s.relay) && e.Arrive?
    ensures History(Next(s, decode, e).relay, q) == History(s.relay, q) + Adds(s, e, q)
  {
    if Carries(s, e) {
      HistoryByOp(s.relay, Forward(e.m.env), q);
      assert Next(s, decode, e).relay == Apply(s.relay, Forward(e.m.env));
    } else {
      ArrivalLeavesQueues(s, decode, e);
    }
  }

  lemma ArrivalLeavesQueues(s: System, decode: Decoder, e: Event)
    requires e.Arrive? && !Carries(s, e)
    ensures Next(s, decode, e).relay.queues == s.relay.queues
  {
  }

  lemma HistoryByOthers(s: System, decode: Decoder, e: Event, q: QueueId)
    requires Inv(s.relay) && !e.Open? && !e.Arrive?
    ensures History(Next(s, decode, e).relay, q) == History(s.relay, q)
  {
    if e.End? && e.id in s.streams { HistoryByOp(s.relay, Unregister(s.streams[e.id]), q); }
    if e.Ban? { HistoryByOp(s.relay, Blacklist(e.n), q); }
    if e.SendOut? { HistoryByOp(s.relay, Receive(e.q), q); }
  }

  /**
   In every trace a queue's history is exactly the sequence of envelopes that came through an open
   stream of their own sender, as an arrival not meant for the relay or as a first envelope with a
   payload, at moments when the queue was among the envelope's targets.
  */
  lemma {:induction false} StreamsDeliverExactly(decode: Decoder, events: seq<Event>, q: QueueId)
    ensures History(Trace(decode, events).relay, q) == Reaching(decode, events, q)
  {
    if events != [] {
      var before, e := events[..|events| - 1], events[|events| - 1];
      var s := Trace(decode, before);
      StreamsDeliverExactly(decode, before, q);
      TraceInv(decode, before);
      if e.Open? {
        HistoryByOpening(s, decode, e, q);
      } else if e.Arrive? {
        HistoryByArrival(s, decode, e, q);
      } else {
        HistoryByOthers(s, decode, e, q);
      }
    }
  }

  // ---------------------------------------------------------------------------------------
  // Control commands
  // ---------------------------------------------------------------------------------------

  /** The event carries a command of `n`'s own open stream to the relay itself, decoded as `control`. */
  predicate Commands(s: System, decode: Decoder, e: Event, n: NodeId, control: Control) {
    && e.Arrive? && e.m.Message? && e.m.env.sender == n && IsOpenFor(s, e.id, n)
    && e.m.env.target == "RELAY" && decode(e.m.env.payload) == control
  }

  ghost predicate CommandsAt(decode: Decoder, events: seq<Event>, k: int, n: NodeId, control: Control) {
    0 <= k < |events| && Commands(Trace(decode, events[..k]), decode, events[k], n, control)
  }

  ghost predicate SubscribedBefore(decode: Decoder, events: seq<Event>, k: int, n: NodeId, c: string) {
    0 <= k <= |events| && RelayHistory.Subscribed(Trace(decode, events[..k]).relay, n, c)
  }

  lemma SubscribedByCommand(s: System, decode: Decoder, e: Event, n: NodeId, c: string)
    requires c != "" && c[0] == '#'
    ensures RelayHistory.Subscribed(Next(s, decode, e).relay, n, c) <==>
            || Commands(s, decode, e, n, SubscribeTo(c))
            || (RelayHistory.Subscribed(s.relay, n, c) && !Commands(s, decode, e, n, UnsubscribeFrom(c)))
  {
    if e.Arrive? {
      SubscribedByArrival(s, decode, e, n, c);
    } else {
      if e.Open? { OpenedChannels(s.relay, e.first); }
      assert Next(s, decode, e).relay.channels == s.relay.channels;
    }
  }

  lemma SubscribedByArrival(s: System, decode: Decoder, e: Event, n: NodeId, c: string)
    requires e.Arrive? && c != "" && c[0] == '#'
    ensures RelayHistory.Subscribed(Next(s, decode, e).relay, n, c) <==>
            || Commands(s, decode, e, n, SubscribeTo(c))
            || (RelayHistory.Subscribed(s.relay, n, c) && !Commands(s, decode, e, n, UnsubscribeFrom(c)))
  {
  }

  /**
   In every trace a node is subscribed to a channel if and only if a subscribe command for it came
   through an open stream of the node and no later unsubscribe command did. Names that do not start
   with '#' never have subscribers.
  */
  lemma CommandsSubscribeExactly(decode: Decoder, events: seq<Event>, n: NodeId, c: string)
    ensures RelayHistory.Subscribed(Trace(decode, events).relay, n, c) <==>
            c != "" && c[0] == '#' && CommandedLast(decode, events, n, c)
  {
    if c == "" || c[0] != '#' {
      TraceInv(decode, events);
      assert !IsChannel(c);
    } else {
      ChannelCommands(decode, events, n, c);
      assert events[..|events|] == events;
    }
  }

  lemma SubscribedStep(decode: Decoder, events: seq<Event>, k: nat, n: NodeId, c: string)
    requires k < |events| && c != "" && c[0] == '#'
    ensures SubscribedBefore(decode, events, k + 1, n, c) <==>
            || CommandsAt(decode, events, k, n, SubscribeTo(c))
            || (SubscribedBefore(decode, events, k, n, c) && !CommandsAt(decode, events, k, n, UnsubscribeFrom(c)))
  {
    TraceStep(decode, events, k);
    SubscribedByCommand(Trace(decode, events[..k]), decode, events[k], n, c);
  }

  /** Some command subscribed `n` to the channel, and no later one unsubscribed it. */
  ghost predicate CommandedLast(decode: Decoder, events: seq<Event>, n: NodeId, c: string) {
    LastSet(k => CommandsAt(decode, events, k, n, SubscribeTo(c)),
            k => CommandsAt(decode, events, k, n, UnsubscribeFrom(c)), 0, |events|)
  }

  lemma ChannelCommands(decode: Decoder, events: seq<Event>, n: NodeId, c: string)
    requires c != "" && c[0] == '#'
    ensures SubscribedBefore(decode, events, |events|, n, c) <==> CommandedLast(decode, events, n, c)
  {
    forall k: int | 0 <= k < |events|
      ensures SubscribedBefore(decode, events, k + 1, n, c) <==>
              || CommandsAt(decode, events, k, n, SubscribeTo(c))
              || (SubscribedBefore(decode, events, k, n, c) && !CommandsAt(decode, events, k, n, UnsubscribeFrom(c)))
    {
      SubscribedStep(decode, events, k, n, c);
    }
    assert !SubscribedBefore(decode, events, 0, n, c);
    SetAndNotCleared(k => SubscribedBefore(decode, events, k, n, c), k => CommandsAt(decode, events, k, n, SubscribeTo(c)),
                     k => CommandsAt(decode, events, k, n, UnsubscribeFrom(c)), 0, |events|);
  }

  // ---------------------------------------------------------------------------------------
  // One stream is a piece of a trace
  // ---------------------------------------------------------------------------------------

  function Continue(s: System, decode: Decoder, events: seq<Event>): System {
    if events == [] then s else Next(Continue(s, decode, events[..|events| - 1]), decode, events[|events| - 1])
  }

  function Arrivals(id: StreamId, inbox: seq<Incoming>): seq<Event> {
    if inbox == [] then [] else Arrivals(id, inbox[..|inbox| - 1]) + [Arrive(id, inbox[|inbox| - 1])]
  }

  lemma ContinueSnoc(s: System, decode: Decoder, events: seq<Event>, e: Event)
    ensures Continue(s, decode, events + [e]) == Next(Continue(s, decode, events), decode, e)
  {
    assert (events + [e])[..|events|] == events;
  }

  lemma {:induction false} ArrivalsAreTurns(s: System, decode: Decoder, id: StreamId, inbox: seq<Incoming>)
    requires id in s.streams
    ensures Continue(s, decode, Arrivals(id, inbox)) == s.(relay := HandledAll(s.relay, decode, s.streams[id], inbox))
  {
    if inbox != [] {
      var before := inbox[..|inbox| - 1];
      ArrivalsAreTurns(s, decode, id, before);
      ContinueSnoc(s, decode, Arrivals(id, before), Arrive(id, inbox[|inbox| - 1]));
    }
  }

  /** The stream method leaves what the events of one stream leave: its opening, its arrivals and its end. */
  lemma StreamIsEvents(s: System, decode: Decoder, id: StreamId, first: Envelope, inbox: seq<Incoming>)
    requires id !in s.streams
    ensures var started := Next(s, decode, Open(id, first));
            Streamed(s.relay, decode, first, inbox) ==
            if OpensFor(s, Open(id, first), id, first.sender)
            then Next(Continue(started, decode, Arrivals(id, inbox)), decode, End(id)).relay else s.relay
  {
    var started := Next(s, decode, Open(id, first));
    OpenedStream(s.relay, first);
    if id in started.streams {
      ArrivalsAreTurns(started, decode, id, inbox);
    }
  }
}
