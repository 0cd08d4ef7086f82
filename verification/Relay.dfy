/**
 The relay's session manager: sessions with bounded send queues, a blacklist, channel
 subscriptions and two counters. Every public operation is given first as a function on the
 manager's state; class SessionManager updates its fields in place and is proved to compute
 those functions. The theorems are about every run of whole operations. Module
 RelayInterleaving refines the same operations into their individual atomic steps.
*/
module Relay {
  import opened Common

  type NodeId = string
  type QueueId = nat

  const QUEUE_CAPACITY := 100

  datatype Envelope = Envelope(messageId: string, sender: NodeId, target: string, payload: seq<bv8>)

  /**
   A session's send queue. `buf` is what the channel holds and `closes` counts the times it was
   closed. `sent` and `taken` are history: all envelopes ever enqueued and ever received.
  */
  datatype Queue = Queue(buf: seq<Envelope>, closes: nat, sent: seq<Envelope>, taken: seq<Envelope>)

  /**
   The manager's state. Queues are allocated once and named by their position, so a stream can
   still hold a queue that left `sessions`. `replaced` is history: how often a registration
   found an earlier session. The two flags record the run-time panics a Go channel can raise.
  */
  datatype State = State(
    sessions: map<NodeId, QueueId>,
    blacklist: set<NodeId>,
    channels: map<string, set<NodeId>>,
    queues: seq<Queue>,
    activeConnections: int,
    messagesRelayed: int,
    replaced: nat,
    doubleClose: bool,
    sendOnClosed: bool)

  datatype ForwardResult = Forwarded | NodeBlacklisted | TargetNotConnected | BufferFull | SendPanic

  const EMPTY_QUEUE := Queue([], 0, [], [])
  const INITIAL := State(map[], {}, map[], [], 0, 0, 0, false, false)

  // ---------------------------------------------------------------------------------------
  // Queue primitives
  // ---------------------------------------------------------------------------------------

  function Push(q: Queue, env: Envelope): Queue {
    q.(buf := q.buf + [env], sent := q.sent + [env])
  }

  predicate HasRoom(s: State, q: QueueId) {
    q < |s.queues| && |s.queues[q].buf| < QUEUE_CAPACITY
  }

  predicate IsClosed(s: State, q: QueueId) {
    q < |s.queues| && s.queues[q].closes > 0
  }

  /** close(ch): a second close panics. */
  function CloseQueue(s: State, q: QueueId): State {
    if q < |s.queues| then
      s.(queues := s.queues[q := s.queues[q].(closes := s.queues[q].closes + 1)],
         doubleClose := s.doubleClose || s.queues[q].closes > 0)
    else s
  }

  /** select { case ch <- env: default: }: panics when closed, drops when full. */
  function SendQueue(s: State, q: QueueId, env: Envelope): State {
    if IsClosed(s, q) then s.(sendOnClosed := true)
    else if HasRoom(s, q) then s.(queues := s.queues[q := Push(s.queues[q], env)])
    else s
  }

  /** The sender goroutine takes the oldest waiting envelope, if there is one. */
  function ReceiveQueue(s: State, q: QueueId): State {
    if q < |s.queues| && s.queues[q].buf != [] then
      var before := s.queues[q];
      s.(queues := s.queues[q := before.(buf := before.buf[1..], taken := before.taken + [before.buf[0]])])
    else s
  }

  // ---------------------------------------------------------------------------------------
  // Operations
  // ---------------------------------------------------------------------------------------

  function DoUnregister(s: State, n: NodeId): State {
    if n in s.sessions then
      var t := CloseQueue(s, s.sessions[n]);
      t.(sessions := s.sessions - {n}, activeConnections := s.activeConnections - 1)
    else s
  }

  function DoRegister(s: State, n: NodeId): (State, Option<QueueId>) {
    if n in s.blacklist then (s, None)
    else
      var t := if n in s.sessions then CloseQueue(s, s.sessions[n]).(replaced := s.replaced + 1) else s;
      (t.(sessions := s.sessions[n := |s.queues|],
          queues := t.queues + [EMPTY_QUEUE],
          activeConnections := s.activeConnections + 1),
       Some(|s.queues|))
  }

  function DoSubscribe(s: State, n: NodeId, channel: string): State {
    var subscribers := if channel in s.channels then s.channels[channel] else {};
    s.(channels := s.channels[channel := subscribers + {n}])
  }

  function DoUnsubscribe(s: State, n: NodeId, channel: string): State {
    if channel in s.channels then s.(channels := s.channels[channel := s.channels[channel] - {n}]) else s
  }

  function DoBlacklist(s: State, n: NodeId): State {
    DoUnregister(s.(blacklist := s.blacklist + {n}), n)
  }

  function DoUnblacklist(s: State, n: NodeId): State {
    s.(blacklist := s.blacklist - {n})
  }

  predicate IsChannel(target: string) {
    |target| > 0 && target[0] == '#'
  }

  /** The nodes a broadcast reaches: live, non-full subscribers other than the sender. */
  function Recipients(s: State, env: Envelope): (r: set<NodeId>)
    ensures r <= s.sessions.Keys
  {
    if env.target in s.channels then
      set n | n in s.channels[env.target] && n != env.sender && n in s.sessions && HasRoom(s, s.sessions[n])
    else {}
  }

  /** One copy of `env` added to every queue in `hit`, nothing else changed. */
  function DeliverTo(queues: seq<Queue>, hit: set<QueueId>, env: Envelope): (r: seq<Queue>)
    ensures |r| == |queues|
    ensures forall i :: 0 <= i < |r| ==> r[i] == if i in hit then Push(queues[i], env) else queues[i]
  {
    seq(|queues|, i requires 0 <= i < |queues| => if i in hit then Push(queues[i], env) else queues[i])
  }

  function DoBroadcast(s: State, env: Envelope): State {
    var hit := Image(s.sessions, Recipients(s, env));
    s.(queues := DeliverTo(s.queues, hit, env), messagesRelayed := s.messagesRelayed + |Recipients(s, env)|)
  }

  function DoForward(s: State, env: Envelope): (State, ForwardResult) {
    if env.sender in s.blacklist then (s, NodeBlacklisted)
    else if IsChannel(env.target) then (DoBroadcast(s, env), Forwarded)
    else if env.target !in s.sessions then (s, TargetNotConnected)
    else
      var q := s.sessions[env.target];
      var t := SendQueue(s, q, env);
      if IsClosed(s, q) then (t, SendPanic)
      else if HasRoom(s, q) then (t.(messagesRelayed := s.messagesRelayed + 1), Forwarded)
      else (t, BufferFull)
  }

  // ---------------------------------------------------------------------------------------
  // Counting enqueued envelopes
  // ---------------------------------------------------------------------------------------

  function TotalSent(queues: seq<Queue>): nat {
    if queues == [] then 0 else TotalSent(queues[..|queues| - 1]) + |queues[|queues| - 1].sent|
  }

  lemma {:induction false} TotalSentUpdate(queues: seq<Queue>, i: nat, q: Queue)
    requires i < |queues|
    ensures TotalSent(queues[i := q]) == TotalSent(queues) - |queues[i].sent| + |q.sent|
  {
    var last := |queues| - 1;
    if i == last {
      assert queues[i := q][..last] == queues[..last];
    } else {
      TotalSentUpdate(queues[..last], i, q);
      assert queues[i := q][..last] == queues[..last][i := q];
    }
  }

  lemma TotalSentAppend(queues: seq<Queue>, q: Queue)
    ensures TotalSent(queues + [q]) == TotalSent(queues) + |q.sent|
  {
    assert (queues + [q])[..|queues|] == queues;
  }

  lemma DeliverToOne(queues: seq<Queue>, hit: set<QueueId>, q: QueueId, env: Envelope)
    requires q < |queues| && q !in hit
    ensures DeliverTo(queues, hit + {q}, env) == DeliverTo(queues, hit, env)[q := Push(queues[q], env)]
  {
  }

  /** Delivering to a set of queues adds exactly one envelope per queue. */
  lemma {:induction false} TotalSentDeliver(queues: seq<Queue>, hit: set<QueueId>, env: Envelope)
    requires forall q :: q in hit ==> q < |queues|
    ensures TotalSent(DeliverTo(queues, hit, env)) == TotalSent(queues) + |hit|
    decreases hit
  {
    if hit == {} {
      assert DeliverTo(queues, hit, env) == queues;
    } else {
      var q :| q in hit;
      var rest := hit - {q};
      TotalSentDeliver(queues, rest, env);
      DeliverToOne(queues, rest, q, env);
      assert hit == rest + {q};
      TotalSentUpdate(DeliverTo(queues, rest, env), q, Push(queues[q], env));
    }
  }

  // ---------------------------------------------------------------------------------------
  // Invariant of whole operations
  // ---------------------------------------------------------------------------------------

  ghost predicate QueueInv(q: Queue) {
    |q.buf| <= QUEUE_CAPACITY && q.closes <= 1
  }

  ghost predicate SessionsInv(s: State) {
    && Injective(s.sessions)
    && forall n :: n in s.sessions ==> s.sessions[n] < |s.queues| && s.queues[s.sessions[n]].closes == 0
  }

  ghost predicate CountersInv(s: State) {
    && s.activeConnections == |s.sessions| + s.replaced
    && s.messagesRelayed == TotalSent(s.queues)
  }

  ghost predicate Inv(s: State) {
    && (forall i :: 0 <= i < |s.queues| ==> QueueInv(s.queues[i]))
    && SessionsInv(s)
    && CountersInv(s)
    && s.sessions.Keys !! s.blacklist
    && !s.doubleClose
    && !s.sendOnClosed
  }

  lemma CloseKeepsTotal(s: State, q: QueueId)
    ensures TotalSent(CloseQueue(s, q).queues) == TotalSent(s.queues)
  {
    if q < |s.queues| {
      TotalSentUpdate(s.queues, q, s.queues[q].(closes := s.queues[q].closes + 1));
    }
  }

  lemma UnregisterInv(s: State, n: NodeId)
    requires Inv(s)
    ensures Inv(DoUnregister(s, n)) && n !in DoUnregister(s, n).sessions
  {
    if n in s.sessions {
      CloseKeepsTotal(s, s.sessions[n]);
      MapRemoveSize(s.sessions, n);
    }
  }

  lemma BlacklistIsUnregister(s: State, n: NodeId)
    ensures DoBlacklist(s, n) == DoUnregister(s, n).(blacklist := s.blacklist + {n})
  {
  }

  lemma BlacklistInv(s: State, n: NodeId)
    requires Inv(s)
    ensures Inv(DoBlacklist(s, n)) && n !in DoBlacklist(s, n).sessions
  {
    UnregisterInv(s, n);
    BlacklistIsUnregister(s, n);
  }

  lemma RegisterInv(s: State, n: NodeId)
    requires Inv(s)
    ensures Inv(DoRegister(s, n).0)
  {
    if n !in s.blacklist {
      var t := DoRegister(s, n).0;
      MapStoreSize(s.sessions, n, |s.queues|);
      if n in s.sessions {
        CloseKeepsTotal(s, s.sessions[n]);
        TotalSentAppend(CloseQueue(s, s.sessions[n]).queues, EMPTY_QUEUE);
      } else {
        TotalSentAppend(s.queues, EMPTY_QUEUE);
      }
    }
  }

  lemma BroadcastInv(s: State, env: Envelope)
    requires Inv(s)
    ensures Inv(DoBroadcast(s, env))
  {
    var hit := Image(s.sessions, Recipients(s, env));
    ImageSize(s.sessions, Recipients(s, env));
    TotalSentDeliver(s.queues, hit, env);
    var t := DoBroadcast(s, env);
    forall i | 0 <= i < |t.queues| ensures QueueInv(t.queues[i]) {
      assert QueueInv(s.queues[i]);
    }
  }

  lemma ForwardInv(s: State, env: Envelope)
    requires Inv(s)
    ensures Inv(DoForward(s, env).0)
    ensures DoForward(s, env).1 != SendPanic
  {
    if env.sender in s.blacklist || env.target !in s.sessions {
      BroadcastInv(s, env);
    } else if IsChannel(env.target) {
      BroadcastInv(s, env);
    } else {
      var q := s.sessions[env.target];
      if HasRoom(s, q) {
        TotalSentUpdate(s.queues, q, Push(s.queues[q], env));
      }
    }
  }

  lemma ReceiveInv(s: State, q: QueueId)
    requires Inv(s)
    ensures Inv(ReceiveQueue(s, q))
  {
    if q < |s.queues| && s.queues[q].buf != [] {
      var after := ReceiveQueue(s, q).queues[q];
      assert QueueInv(s.queues[q]);
      assert QueueInv(after);
      TotalSentUpdate(s.queues, q, after);
    }
  }

  // ---------------------------------------------------------------------------------------
  // Runs of whole operations
  // ---------------------------------------------------------------------------------------

  datatype Op =
    | Register(n: NodeId)
    | Unregister(n: NodeId)
    | Subscribe(n: NodeId, channel: string)
    | Unsubscribe(n: NodeId, channel: string)
    | Forward(env: Envelope)
    | Blacklist(n: NodeId)
    | Unblacklist(n: NodeId)
    | Receive(q: QueueId)

  function Apply(s: State, op: Op): State {
    match op
    case Register(n) => DoRegister(s, n).0
    case Unregister(n) => DoUnregister(s, n)
    case Subscribe(n, channel) => DoSubscribe(s, n, channel)
    case Unsubscribe(n, channel) => DoUnsubscribe(s, n, channel)
    case Forward(env) => DoForward(s, env).0
    case Blacklist(n) => DoBlacklist(s, n)
    case Unblacklist(n) => DoUnblacklist(s, n)
    case Receive(q) => ReceiveQueue(s, q)
  }

  function Run(ops: seq<Op>): State {
    if ops == [] then INITIAL else Apply(Run(ops[..|ops| - 1]), ops[|ops| - 1])
  }

  lemma ApplyInv(s: State, op: Op)
    requires Inv(s)
    ensures Inv(Apply(s, op))
  {
    match op
    case Register(n) => RegisterInv(s, n);
    case Unregister(n) => UnregisterInv(s, n);
    case Subscribe(n, channel) =>
    case Unsubscribe(n, channel) =>
    case Forward(env) => ForwardInv(s, env);
    case Blacklist(n) => BlacklistInv(s, n);
    case Unblacklist(n) =>
    case Receive(q) => ReceiveInv(s, q);
  }

  lemma {:induction false} RunInv(ops: seq<Op>)
    ensures Inv(Run(ops))
  {
    if ops != [] {
      RunInv(ops[..|ops| - 1]);
      ApplyInv(Run(ops[..|ops| - 1]), ops[|ops| - 1]);
    }
  }

  /** The queues an envelope must reach, said without reference to how forwarding works. */
  function Targets(s: State, env: Envelope): set<QueueId> {
    if env.sender in s.blacklist then {}
    else if IsChannel(env.target) then Image(s.sessions, Recipients(s, env))
    else if env.target in s.sessions && HasRoom(s, s.sessions[env.target]) then {s.sessions[env.target]}
    else {}
  }

  /** What a run delivered to queue `q`, in forwarding order. */
  function Delivered(ops: seq<Op>, q: QueueId): seq<Envelope> {
    if ops == [] then []
    else
      var before, op := ops[..|ops| - 1], ops[|ops| - 1];
      Delivered(before, q) + if op.Forward? && q in Targets(Run(before), op.env) then [op.env] else []
  }

  /** How many deliveries a run made in all. */
  function DeliveryCount(ops: seq<Op>): nat {
    if ops == [] then 0
    else
      var before, op := ops[..|ops| - 1], ops[|ops| - 1];
      DeliveryCount(before) + if op.Forward? then |Targets(Run(before), op.env)| else 0
  }

  /** How many registrations of a run displaced a live session. */
  function Replacements(ops: seq<Op>): nat {
    if ops == [] then 0
    else
      var before, op := ops[..|ops| - 1], ops[|ops| - 1];
      Replacements(before) + if op.Register? && op.n in Run(before).sessions then 1 else 0
  }

  lemma SentByForward(s: State, env: Envelope, q: QueueId)
    requires SessionsInv(s) && q < |s.queues|
    ensures |DoForward(s, env).0.queues| == |s.queues|
    ensures DoForward(s, env).0.queues[q].sent == s.queues[q].sent + if q in Targets(s, env) then [env] else []
  {
  }

  lemma SentByOthers(s: State, op: Op, q: QueueId)
    requires q < |s.queues| && !op.Forward?
    ensures |Apply(s, op).queues| >= |s.queues| && Apply(s, op).queues[q].sent == s.queues[q].sent
  {
  }

  /** One operation appends `env` to exactly the target queues' histories, and only when it forwards `env`. */
  lemma SentStep(s: State, op: Op, q: QueueId)
    requires SessionsInv(s) && q < |s.queues|
    ensures |Apply(s, op).queues| >= |s.queues|
    ensures Apply(s, op).queues[q].sent ==
            s.queues[q].sent + if op.Forward? && q in Targets(s, op.env) then [op.env] else []
  {
    if op.Forward? {
      SentByForward(s, op.env, q);
    } else {
      SentByOthers(s, op, q);
    }
  }

  lemma RelayedStep(s: State, op: Op)
    requires SessionsInv(s)
    ensures Apply(s, op).messagesRelayed ==
            s.messagesRelayed + if op.Forward? then |Targets(s, op.env)| else 0
  {
    if op.Forward? {
      ImageSize(s.sessions, Recipients(s, op.env));
    }
  }

  lemma {:induction false} RelayedIsDeliveryCount(ops: seq<Op>)
    ensures Run(ops).messagesRelayed == DeliveryCount(ops)
  {
    if ops != [] {
      var before, op := ops[..|ops| - 1], ops[|ops| - 1];
      RelayedIsDeliveryCount(before);
      RunInv(before);
      RelayedStep(Run(before), op);
    }
  }

  lemma NewQueueStep(s: State, op: Op, q: QueueId)
    requires SessionsInv(s) && |s.queues| <= q
    ensures q < |Apply(s, op).queues| ==> Apply(s, op).queues[q].sent == []
    ensures op.Forward? ==> q !in Targets(s, op.env)
  {
  }

  lemma {:induction false} SentIsDelivered(ops: seq<Op>, q: QueueId)
    ensures q >= |Run(ops).queues| ==> Delivered(ops, q) == []
    ensures q < |Run(ops).queues| ==> Run(ops).queues[q].sent == Delivered(ops, q)
  {
    if ops != [] {
      var before, op := ops[..|ops| - 1], ops[|ops| - 1];
      SentIsDelivered(before, q);
      RunInv(before);
      if q < |Run(before).queues| {
        SentStep(Run(before), op, q);
      } else {
        NewQueueStep(Run(before), op, q);
      }
    }
  }

  ghost predicate Fifo(q: Queue) {
    q.sent == q.taken + q.buf
  }

  lemma FifoForward(s: State, env: Envelope, q: QueueId)
    requires q < |s.queues| ==> Fifo(s.queues[q])
    ensures q < |DoForward(s, env).0.queues| ==> Fifo(DoForward(s, env).0.queues[q])
  {
  }

  lemma FifoOthers(s: State, op: Op, q: QueueId)
    requires !op.Forward? && (q < |s.queues| ==> Fifo(s.queues[q]))
    ensures q < |Apply(s, op).queues| ==> Fifo(Apply(s, op).queues[q])
  {
  }

  lemma FifoStep(s: State, op: Op, q: QueueId)
    requires q < |s.queues| ==> Fifo(s.queues[q])
    ensures q < |Apply(s, op).queues| ==> Fifo(Apply(s, op).queues[q])
  {
    if op.Forward? {
      FifoForward(s, op.env, q);
    } else {
      FifoOthers(s, op, q);
    }
  }

  /** What was received followed by what waits is what was enqueued. */
  lemma {:induction false} RunFifo(ops: seq<Op>, q: QueueId)
    ensures q < |Run(ops).queues| ==> Fifo(Run(ops).queues[q])
  {
    if ops != [] {
      RunFifo(ops[..|ops| - 1], q);
      FifoStep(Run(ops[..|ops| - 1]), ops[|ops| - 1], q);
    }
  }

  /**
   Conservation and order: in every run a queue's history is what was forwarded to it, in order;
   the waiting envelopes are the part not yet received; and messagesRelayed is the number of
   deliveries, which is the number of envelopes ever enqueued.
  */
  lemma RelayConservation(ops: seq<Op>, q: QueueId)
    ensures Run(ops).messagesRelayed == DeliveryCount(ops) == TotalSent(Run(ops).queues)
    ensures q < |Run(ops).queues| ==>
              var queue := Run(ops).queues[q];
              && Delivered(ops, q) == queue.taken + queue.buf
              && |queue.buf| <= QUEUE_CAPACITY
  {
    RunInv(ops);
    RelayedIsDeliveryCount(ops);
    SentIsDelivered(ops, q);
    RunFifo(ops, q);
    assert q < |Run(ops).queues| ==> QueueInv(Run(ops).queues[q]) && Fifo(Run(ops).queues[q]);
  }

  lemma {:induction false} ReplacedIsReplacements(ops: seq<Op>)
    ensures Run(ops).replaced == Replacements(ops)
  {
    if ops != [] {
      var before, op := ops[..|ops| - 1], ops[|ops| - 1];
      ReplacedIsReplacements(before);
      RunInv(before);
      ReplacedStep(Run(before), op);
    }
  }

  lemma ReplacedStep(s: State, op: Op)
    requires s.sessions.Keys !! s.blacklist
    ensures Apply(s, op).replaced == s.replaced + if op.Register? && op.n in s.sessions then 1 else 0
  {
  }

  /**
   State safety in every run of whole operations: no blacklisted node has a session, live
   sessions have distinct open queues, no queue is closed twice or sent to after closing, and
   activeConnections exceeds the live sessions by exactly the number of replacements.
  */
  lemma RelaySafety(ops: seq<Op>)
    ensures var s := Run(ops);
            && s.sessions.Keys !! s.blacklist
            && s.activeConnections == |s.sessions| + Replacements(ops)
            && !s.doubleClose && !s.sendOnClosed
            && (forall n, m :: n in s.sessions && m in s.sessions && n != m ==> s.sessions[n] != s.sessions[m])
            && (forall n :: n in s.sessions ==> !IsClosed(s, s.sessions[n]))
  {
    RunInv(ops);
    ReplacedIsReplacements(ops);
  }

  /** An envelope is enqueued only by forwarding it, and never while its sender is blacklisted. */
  lemma EnqueueOnlyFromAllowedSender(ops: seq<Op>, op: Op, q: QueueId)
    requires q < |Run(ops).queues|
    requires |Apply(Run(ops), op).queues| > q ==> Apply(Run(ops), op).queues[q].sent != Run(ops).queues[q].sent
    ensures op.Forward? && op.env.sender !in Run(ops).blacklist
    ensures Apply(Run(ops), op).queues[q].sent == Run(ops).queues[q].sent + [op.env]
  {
    RunInv(ops);
    SentStep(Run(ops), op, q);
  }

  /** What a subscriber's queue, or another session's, must be after a broadcast of `env`. */
  ghost predicate OneCopy(s: State, env: Envelope, n: NodeId, before: Queue, after: Queue) {
    after == if env.target in s.channels && n in s.channels[env.target] && n != env.sender && |before.buf| < QUEUE_CAPACITY
             then before.(buf := before.buf + [env], sent := before.sent + [env])
             else before
  }

  ghost predicate ExactBroadcast(s: State, t: State, env: Envelope) {
    && t == s.(queues := t.queues, messagesRelayed := s.messagesRelayed + |Recipients(s, env)|)
    && |t.queues| == |s.queues|
    && (forall n :: n in s.sessions ==>
          s.sessions[n] < |s.queues| && OneCopy(s, env, n, s.queues[s.sessions[n]], t.queues[s.sessions[n]]))
    && (forall q :: 0 <= q < |s.queues| && q !in s.sessions.Values ==> t.queues[q] == s.queues[q])
  }

  lemma BroadcastIsExact(s: State, env: Envelope)
    requires SessionsInv(s)
    ensures ExactBroadcast(s, DoBroadcast(s, env), env)
  {
    var hit := Image(s.sessions, Recipients(s, env));
    forall n | n in s.sessions ensures s.sessions[n] in hit <==> n in Recipients(s, env) {
      if s.sessions[n] in hit {
        var m :| m in Recipients(s, env) && s.sessions[m] == s.sessions[n];
      }
    }
  }

  lemma ForwardIsExact(s: State, env: Envelope)
    requires SessionsInv(s) && IsChannel(env.target) && env.sender !in s.blacklist
    ensures ExactBroadcast(s, Apply(s, Forward(env)), env)
  {
    BroadcastIsExact(s, env);
    assert Apply(s, Forward(env)) == DoBroadcast(s, env);
  }

  /**
   A broadcast in any reachable state: each live subscriber other than the sender whose queue has
   room gets exactly one more copy, every other queue is unchanged, and the relayed counter grows
   by the number of copies.
  */
  lemma BroadcastExact(ops: seq<Op>, env: Envelope)
    requires IsChannel(env.target) && env.sender !in Run(ops).blacklist
    ensures ExactBroadcast(Run(ops), Apply(Run(ops), Forward(env)), env)
  {
    RunInv(ops);
    ForwardIsExact(Run(ops), env);
  }

  /** The queues part-way through a broadcast that still has the subscribers `todo` to visit. */
  ghost function Progress(s: State, env: Envelope, todo: set<NodeId>): seq<Queue> {
    DeliverTo(s.queues, Image(s.sessions, Recipients(s, env) - todo), env)
  }

  lemma ProgressEnds(s: State, env: Envelope)
    requires env.target in s.channels
    ensures Progress(s, env, s.channels[env.target]) == s.queues
    ensures Recipients(s, env) - s.channels[env.target] == {}
    ensures Progress(s, env, {}) == DoBroadcast(s, env).queues
    ensures Recipients(s, env) - {} == Recipients(s, env)
  {
  }

  /** Whether a visit to subscriber `n` finds a session with room. */
  predicate Reaches(sessions: map<NodeId, QueueId>, queues: seq<Queue>, env: Envelope, n: NodeId) {
    && n != env.sender && n in sessions
    && sessions[n] < |queues| && |queues[sessions[n]].buf| < QUEUE_CAPACITY
  }

  /** The queues after a visit to subscriber `n`. */
  function VisitQueues(sessions: map<NodeId, QueueId>, queues: seq<Queue>, env: Envelope, n: NodeId): seq<Queue> {
    if Reaches(sessions, queues, env, n) then queues[sessions[n] := Push(queues[sessions[n]], env)] else queues
  }

  /** Visiting one more subscriber: its queue is still untouched, and the visit completes its delivery. */
  lemma BroadcastVisit(s: State, env: Envelope, todo: set<NodeId>, n: NodeId)
    requires SessionsInv(s) && env.target in s.channels && n in todo && todo <= s.channels[env.target]
    ensures |Progress(s, env, todo)| == |s.queues|
    ensures n in s.sessions ==> Progress(s, env, todo)[s.sessions[n]] == s.queues[s.sessions[n]]
    ensures VisitQueues(s.sessions, Progress(s, env, todo), env, n) == Progress(s, env, todo - {n})
    ensures |Recipients(s, env) - (todo - {n})| ==
            |Recipients(s, env) - todo| + if Reaches(s.sessions, Progress(s, env, todo), env, n) then 1 else 0
  {
    var all := Recipients(s, env);
    var done := all - todo;
    if n in s.sessions {
      assert s.sessions[n] !in Image(s.sessions, done);
    }
    if n != env.sender && n in s.sessions && HasRoom(s, s.sessions[n]) {
      assert all - (todo - {n}) == done + {n};
      assert Image(s.sessions, done + {n}) == Image(s.sessions, done) + {s.sessions[n]};
      DeliverToOne(s.queues, Image(s.sessions, done), s.sessions[n], env);
    } else {
      assert all - (todo - {n}) == done;
    }
  }

  // ---------------------------------------------------------------------------------------
  // The session manager itself
  // ---------------------------------------------------------------------------------------

  /** Log lines print the first eight characters of an identifier, so it must have that many. */
  predicate Loggable(id: string) {
    |id| >= 8
  }

  /** The identifiers that the log line of the path a forwarded envelope takes will print. */
  predicate ForwardLoggable(s: State, env: Envelope) {
    if env.sender in s.blacklist then Loggable(env.sender)
    else if IsChannel(env.target) then true
    else
      && Loggable(env.target)
      && (env.target in s.sessions && HasRoom(s, s.sessions[env.target]) ==> Loggable(env.sender))
  }

  lemma StoreAfterRemove(m: map<NodeId, QueueId>, n: NodeId, q: QueueId)
    ensures (m - {n})[n := q] == m[n := q]
  {
  }

  class SessionManager {
    var sessions: map<NodeId, QueueId>
    var blacklist: set<NodeId>
    var channels: map<string, set<NodeId>>
    var queues: seq<Queue>
    var activeConnections: int
    var messagesRelayed: int
    ghost var replaced: nat

    ghost function Contents(): State
      reads this
    {
      State(sessions, blacklist, channels, queues, activeConnections, messagesRelayed, replaced, false, false)
    }

    ghost predicate Valid()
      reads this
    {
      Inv(Contents())
    }

    constructor ()
      ensures Valid() && Contents() == INITIAL
    {
      sessions, blacklist, channels, queues := map[], {}, map[], [];
      activeConnections, messagesRelayed, replaced := 0, 0, 0;
    }

    /** close(session.SendChan); the caller must know that the queue is open. */
    method Close(q: QueueId)
      requires q < |queues| && queues[q].closes == 0
      modifies this`queues
      ensures queues == old(queues)[q := old(queues)[q].(closes := 1)]
    {
      queues := queues[q := queues[q].(closes := 1)];
    }

    method RegisterSession(nodeID: NodeId) returns (r: Option<QueueId>)
      requires Valid() && (nodeID !in blacklist ==> Loggable(nodeID))
      modifies this
      ensures Valid()
      ensures (Contents(), r) == DoRegister(old(Contents()), nodeID)
    {
      ghost var before := Contents();
      if nodeID in blacklist {
        return None;
      }
      var session := |queues|;
      assert nodeID in sessions ==> sessions[nodeID] < |queues| && queues[sessions[nodeID]].closes == 0;
      if nodeID in sessions {
        var previous := sessions[nodeID];
        sessions := sessions - {nodeID};
        Close(previous);
        replaced := replaced + 1;
      }
      queues := queues + [EMPTY_QUEUE];
      sessions := sessions[nodeID := session];
      activeConnections := activeConnections + 1;
      StoreAfterRemove(before.sessions, nodeID, session);
      assert Contents() == DoRegister(before, nodeID).0;
      RegisterInv(before, nodeID);
      return Some(session);
    }

    method UnregisterSession(nodeID: NodeId)
      requires SessionsInv(Contents())
      modifies this
      ensures Contents() == DoUnregister(old(Contents()), nodeID)
      ensures old(Valid()) ==> Valid()
    {
      ghost var before := Contents();
      if nodeID in sessions {
        var session := sessions[nodeID];
        sessions := sessions - {nodeID};
        Close(session);
        activeConnections := activeConnections - 1;
      }
      if Inv(before) {
        UnregisterInv(before, nodeID);
      }
    }

    method SubscribeToChannel(nodeID: NodeId, channelID: string)
      requires Valid() && Loggable(nodeID)
      modifies this`channels
      ensures Valid() && Contents() == DoSubscribe(old(Contents()), nodeID, channelID)
    {
      if channelID !in channels {
        channels := channels[channelID := {}];
      }
      channels := channels[channelID := channels[channelID] + {nodeID}];
    }

    method UnsubscribeFromChannel(nodeID: NodeId, channelID: string)
      requires Valid() && (channelID in channels ==> Loggable(nodeID))
      modifies this`channels
      ensures Valid() && Contents() == DoUnsubscribe(old(Contents()), nodeID, channelID)
    {
      if channelID in channels {
        channels := channels[channelID := channels[channelID] - {nodeID}];
      }
    }

    /** The Range loop: visits the subscribers one by one, in whatever order the map yields them. */
    method VisitSubscribers(env: Envelope) returns (count: nat)
      requires SessionsInv(Contents()) && env.target in channels
      modifies this`queues
      ensures queues == DoBroadcast(old(Contents()), env).queues
      ensures count == |Recipients(old(Contents()), env)|
    {
      ghost var before := Contents();
      var todo := channels[env.target];
      count := 0;
      ProgressEnds(before, env);
      while todo != {}
        invariant todo <= before.channels[env.target]
        invariant queues == Progress(before, env, todo)
        invariant count == |Recipients(before, env) - todo|
        decreases todo
      {
        var target :| target in todo;
        BroadcastVisit(before, env, todo, target);
        ghost var was := queues;
        todo := todo - {target};
        if target != env.sender && target in sessions {
          var session := sessions[target];
          if |queues[session].buf| < QUEUE_CAPACITY {
            queues := queues[session := Push(queues[session], env)];
            count := count + 1;
          }
        }
        assert queues == VisitQueues(before.sessions, was, env, target);
      }
    }

    method BroadcastEnvelope(env: Envelope)
      requires Valid()
      modifies this`queues, this`messagesRelayed
      ensures Valid() && Contents() == DoBroadcast(old(Contents()), env)
    {
      ghost var before := Contents();
      if env.target in channels {
        var count := VisitSubscribers(env);
        messagesRelayed := messagesRelayed + count;
      } else {
        assert DeliverTo(queues, {}, env) == queues;
      }
      BroadcastInv(before, env);
    }

    method SendToSession(session: QueueId, env: Envelope) returns (r: ForwardResult)
      requires session < |queues| && queues[session].closes == 0
      modifies this`queues, this`messagesRelayed
      ensures queues == SendQueue(old(Contents()), session, env).queues
      ensures HasRoom(old(Contents()), session) ==> r == Forwarded && messagesRelayed == old(messagesRelayed) + 1
      ensures !HasRoom(old(Contents()), session) ==> r == BufferFull && messagesRelayed == old(messagesRelayed)
    {
      if |queues[session].buf| < QUEUE_CAPACITY {
        queues := queues[session := Push(queues[session], env)];
        messagesRelayed := messagesRelayed + 1;
        return Forwarded;
      }
      return BufferFull;
    }

    method ForwardEnvelope(env: Envelope) returns (r: ForwardResult)
      requires Valid() && ForwardLoggable(Contents(), env)
      modifies this`queues, this`messagesRelayed
      ensures Valid()
      ensures (Contents(), r) == DoForward(old(Contents()), env)
    {
      ForwardInv(Contents(), env);
      if env.sender in blacklist {
        return NodeBlacklisted;
      }
      if |env.target| > 0 && env.target[0] == '#' {
        BroadcastEnvelope(env);
        return Forwarded;
      }
      if env.target !in sessions {
        return TargetNotConnected;
      }
      r := SendToSession(sessions[env.target], env);
    }

    method AddToBlacklist(nodeID: NodeId)
      requires Valid() && Loggable(nodeID)
      modifies this
      ensures Valid() && Contents() == DoBlacklist(old(Contents()), nodeID)
    {
      BlacklistInv(Contents(), nodeID);
      blacklist := blacklist + {nodeID};
      UnregisterSession(nodeID);
    }

    method RemoveFromBlacklist(nodeID: NodeId)
      requires Valid() && Loggable(nodeID)
      modifies this`blacklist
      ensures Valid() && Contents() == DoUnblacklist(old(Contents()), nodeID)
    {
      blacklist := blacklist - {nodeID};
    }

    /** Every connected node exactly once, in whatever order the map yields them. */
    method GetConnectedNodeIDs() returns (ids: seq<NodeId>)
      ensures forall n :: n in ids <==> n in sessions
      ensures forall i, j :: 0 <= i < j < |ids| ==> ids[i] != ids[j]
      ensures |ids| == |sessions|
    {
      ids := [];
      var todo := sessions.Keys;
      while todo != {}
        invariant todo <= sessions.Keys
        invariant forall n :: n in ids <==> n in sessions && n !in todo
        invariant forall i, j :: 0 <= i < j < |ids| ==> ids[i] != ids[j]
        invariant |ids| == |sessions| - |todo|
        decreases todo
      {
        var n :| n in todo;
        ids, todo := ids + [n], todo - {n};
      }
    }
  }
}
