/**
 What a run of whole operations leaves behind, said from the operations of the run alone: who is
 subscribed, blacklisted and connected, which queues are closed, what forwarding answers and what a
 receiver gets.
*/
module RelayHistory {
  import opened Common
  import opened Relay

  // ---------------------------------------------------------------------------------------
  // Subscriptions
  // ---------------------------------------------------------------------------------------

  predicate Subscribed(s: State, n: NodeId, c: string) {
    c in s.channels && n in s.channels[c]
  }

  predicate DoesAt(ops: seq<Op>, k: int, op: Op) {
    0 <= k < |ops| && ops[k] == op
  }

  /** Some step of the run is `op`, and no later step is `undo`. */
  ghost predicate DoneLast(ops: seq<Op>, op: Op, undo: Op) {
    LastSet(k => DoesAt(ops, k, op), k => DoesAt(ops, k, undo), 0, |ops|)
  }

  predicate SubscribedBefore(ops: seq<Op>, k: int, n: NodeId, c: string) {
    0 <= k <= |ops| && Subscribed(Run(ops[..k]), n, c)
  }

  lemma RunStep(ops: seq<Op>, k: nat)
    requires k < |ops|
    ensures Run(ops[..k + 1]) == Apply(Run(ops[..k]), ops[k])
  {
    assert ops[..k + 1][..k] == ops[..k];
  }

  lemma SubscribedByStep(s: State, op: Op, n: NodeId, c: string)
    ensures Subscribed(Apply(s, op), n, c) <==> op == Subscribe(n, c) || (Subscribed(s, n, c) && op != Unsubscribe(n, c))
  {
    if !op.Subscribe? && !op.Unsubscribe? {
      assert Apply(s, op).channels == s.channels;
    }
  }

  /**
   In every run a node is subscribed to a channel if and only if some operation subscribed it and no
   later one unsubscribed it; subscriptions outlive sessions and bans.
  */
  lemma SubscribedExactly(ops: seq<Op>, n: NodeId, c: string)
    ensures Subscribed(Run(ops), n, c) <==> DoneLast(ops, Subscribe(n, c), Unsubscribe(n, c))
  {
    var add, remove := Subscribe(n, c), Unsubscribe(n, c);
    forall k: int | 0 <= k < |ops|
      ensures SubscribedBefore(ops, k + 1, n, c) <==>
              DoesAt(ops, k, add) || (SubscribedBefore(ops, k, n, c) && !DoesAt(ops, k, remove))
    {
      RunStep(ops, k);
      SubscribedByStep(Run(ops[..k]), ops[k], n, c);
    }
    SetAndNotCleared(k => SubscribedBefore(ops, k, n, c), k => DoesAt(ops, k, add), k => DoesAt(ops, k, remove), 0, |ops|);
    assert ops[..|ops|] == ops;
  }

  // ---------------------------------------------------------------------------------------
  // The blacklist and the sessions
  // ---------------------------------------------------------------------------------------

  predicate ListedBefore(ops: seq<Op>, k: int, n: NodeId) {
    0 <= k <= |ops| && n in Run(ops[..k]).blacklist
  }

  lemma ListedByStep(s: State, op: Op, n: NodeId)
    ensures n in Apply(s, op).blacklist <==> op == Blacklist(n) || (n in s.blacklist && op != Unblacklist(n))
  {
    if !op.Blacklist? && !op.Unblacklist? {
      assert Apply(s, op).blacklist == s.blacklist;
    }
  }

  /** In every run a node is blacklisted if and only if some operation blacklisted it and no later one lifted that. */
  lemma BlacklistedExactly(ops: seq<Op>, n: NodeId)
    ensures n in Run(ops).blacklist <==> DoneLast(ops, Blacklist(n), Unblacklist(n))
  {
    var add, remove := Blacklist(n), Unblacklist(n);
    forall k: int | 0 <= k < |ops|
      ensures ListedBefore(ops, k + 1, n) <==> DoesAt(ops, k, add) || (ListedBefore(ops, k, n) && !DoesAt(ops, k, remove))
    {
      RunStep(ops, k);
      ListedByStep(Run(ops[..k]), ops[k], n);
    }
    SetAndNotCleared(k => ListedBefore(ops, k, n), k => DoesAt(ops, k, add), k => DoesAt(ops, k, remove), 0, |ops|);
    assert ops[..|ops|] == ops;
  }

  /** Step `k` registers `n`, who is not blacklisted by the steps before. */
  ghost predicate AdmitsAt(ops: seq<Op>, k: int, n: NodeId) {
    DoesAt(ops, k, Register(n)) && !DoneLast(ops[..k], Blacklist(n), Unblacklist(n))
  }

  /** Step `k` unregisters or blacklists `n`. */
  predicate DropsAt(ops: seq<Op>, k: int, n: NodeId) {
    DoesAt(ops, k, Unregister(n)) || DoesAt(ops, k, Blacklist(n))
  }

  predicate ConnectedBefore(ops: seq<Op>, k: int, n: NodeId) {
    0 <= k <= |ops| && n in Run(ops[..k]).sessions
  }

  lemma ConnectedByStep(s: State, op: Op, n: NodeId)
    ensures n in Apply(s, op).sessions <==>
            (op == Register(n) && n !in s.blacklist) || (n in s.sessions && op != Unregister(n) && op != Blacklist(n))
  {
    if !op.Register? && !op.Unregister? && !op.Blacklist? {
      assert Apply(s, op).sessions == s.sessions;
    }
  }

  /**
   In every run a node has a session if and only if some operation registered it while it was not
   blacklisted and no later one unregistered or blacklisted it.
  */
  lemma ConnectedExactly(ops: seq<Op>, n: NodeId)
    ensures n in Run(ops).sessions <==> LastSet(k => AdmitsAt(ops, k, n), k => DropsAt(ops, k, n), 0, |ops|)
  {
    forall k: int | 0 <= k < |ops|
      ensures ConnectedBefore(ops, k + 1, n) <==> AdmitsAt(ops, k, n) || (ConnectedBefore(ops, k, n) && !DropsAt(ops, k, n))
    {
      RunStep(ops, k);
      BlacklistedExactly(ops[..k], n);
      ConnectedByStep(Run(ops[..k]), ops[k], n);
    }
    SetAndNotCleared(k => ConnectedBefore(ops, k, n), k => AdmitsAt(ops, k, n), k => DropsAt(ops, k, n), 0, |ops|);
    assert ops[..|ops|] == ops;
  }

  // ---------------------------------------------------------------------------------------
  // Queues
  // ---------------------------------------------------------------------------------------

  ghost predicate ClosedUnlessLive(s: State) {
    forall q :: 0 <= q < |s.queues| && s.queues[q].closes == 0 ==> q in s.sessions.Values
  }

  lemma ClosedByRegister(s: State, n: NodeId)
    requires SessionsInv(s) && ClosedUnlessLive(s)
    ensures ClosedUnlessLive(DoRegister(s, n).0)
  {
    var t := DoRegister(s, n).0;
    forall q | 0 <= q < |t.queues| && t.queues[q].closes == 0 ensures q in t.sessions.Values {
      if q < |s.queues| {
        var m :| m in s.sessions && s.sessions[m] == q;
        assert t.sessions[m] == q;
      } else if n !in s.blacklist {
        assert t.sessions[n] == q;
      }
    }
  }

  lemma ClosedByUnregister(s: State, n: NodeId)
    requires SessionsInv(s) && ClosedUnlessLive(s)
    ensures ClosedUnlessLive(DoUnregister(s, n))
  {
    var t := DoUnregister(s, n);
    forall q | 0 <= q < |t.queues| && t.queues[q].closes == 0 ensures q in t.sessions.Values {
      var m :| m in s.sessions && s.sessions[m] == q;
      assert t.sessions[m] == q;
    }
  }

  /** The later state has the same sessions and has closed no queue. */
  ghost predicate NothingClosed(s: State, t: State) {
    && t.sessions == s.sessions && |t.queues| == |s.queues|
    && forall q :: 0 <= q < |t.queues| ==> t.queues[q].closes == s.queues[q].closes
  }

  lemma BroadcastClosesNothing(s: State, env: Envelope)
    ensures NothingClosed(s, DoBroadcast(s, env))
  {
  }

  lemma ForwardClosesNothing(s: State, env: Envelope)
    ensures NothingClosed(s, DoForward(s, env).0)
  {
    BroadcastClosesNothing(s, env);
  }

  lemma OthersCloseNothing(s: State, op: Op)
    requires !op.Register? && !op.Unregister? && !op.Blacklist? && !op.Forward?
    ensures NothingClosed(s, Apply(s, op))
  {
  }

  lemma StillClosedUnlessLive(s: State, t: State)
    requires ClosedUnlessLive(s) && NothingClosed(s, t)
    ensures ClosedUnlessLive(t)
  {
  }

  lemma {:induction false} ClosedRun(ops: seq<Op>)
    ensures ClosedUnlessLive(Run(ops))
  {
    if ops != [] {
      var s, op := Run(ops[..|ops| - 1]), ops[|ops| - 1];
      ClosedRun(ops[..|ops| - 1]);
      RunInv(ops[..|ops| - 1]);
      if op.Register? {
        ClosedByRegister(s, op.n);
      } else if op.Unregister? {
        ClosedByUnregister(s, op.n);
      } else if op.Blacklist? {
        ClosedByUnregister(s.(blacklist := s.blacklist + {op.n}), op.n);
      } else {
        if op.Forward? { ForwardClosesNothing(s, op.env); } else { OthersCloseNothing(s, op); }
        StillClosedUnlessLive(s, Apply(s, op));
      }
    }
  }

  /** In every run of whole operations a queue is closed if and only if it is nobody's session. */
  lemma ClosedExactly(ops: seq<Op>, q: QueueId)
    requires q < |Run(ops).queues|
    ensures IsClosed(Run(ops), q) <==> q !in Run(ops).sessions.Values
  {
    RunInv(ops);
    ClosedRun(ops);
  }

  // ---------------------------------------------------------------------------------------
  // Forwarding and receiving
  // ---------------------------------------------------------------------------------------

  /** The queue of the envelope's target holds 100 envelopes. */
  predicate TargetFull(s: State, env: Envelope)
    requires SessionsInv(s) && env.target in s.sessions
  {
    |s.queues[s.sessions[env.target]].buf| >= 100
  }

  /** The answer `r` and the new state `t` are what the guards say, `banned` telling whether the sender is blacklisted. */
  ghost predicate AnsweredBy(s: State, env: Envelope, banned: bool, t: State, r: ForwardResult)
    requires SessionsInv(s)
  {
    var broadcast := env.target != "" && env.target[0] == '#';
    && (r == NodeBlacklisted <==> banned)
    && (r == TargetNotConnected <==> !banned && !broadcast && env.target !in s.sessions)
    && (r == BufferFull <==> !banned && !broadcast && env.target in s.sessions && TargetFull(s, env))
    && (r == Forwarded <==> !banned && (broadcast || (env.target in s.sessions && !TargetFull(s, env))))
    && (r != Forwarded ==> t == s)
    && t == s.(queues := t.queues, messagesRelayed := t.messagesRelayed)
  }

  lemma ForwardAnswersIn(s: State, env: Envelope)
    requires SessionsInv(s)
    ensures AnsweredBy(s, env, env.sender in s.blacklist, DoForward(s, env).0, DoForward(s, env).1)
  {
    if env.target in s.sessions {
      assert s.queues[s.sessions[env.target]].closes == 0;
    }
  }

  /**
   What forwarding answers in any reachable state, guard by guard, and that it changes nothing unless
   it answers that it forwarded.
  */
  lemma ForwardAnswers(ops: seq<Op>, env: Envelope)
    ensures SessionsInv(Run(ops))
    ensures AnsweredBy(Run(ops), env, DoneLast(ops, Blacklist(env.sender), Unblacklist(env.sender)),
                       DoForward(Run(ops), env).0, DoForward(Run(ops), env).1)
  {
    RunInv(ops);
    BlacklistedExactly(ops, env.sender);
    ForwardAnswersIn(Run(ops), env);
  }

  /** The queue `after` is `before` with the oldest of `delivered` that was not received yet now received. */
  ghost predicate TookOldest(before: Queue, after: Queue, delivered: seq<Envelope>) {
    && |before.taken| <= |delivered|
    && after.taken == (if |before.taken| < |delivered| then before.taken + [delivered[|before.taken|]] else before.taken)
    && after.sent == before.sent && after.closes == before.closes
  }

  /** A receive from `q`: a receiver gets the oldest of `delivered` not received yet, and other queues stay. */
  ghost predicate ReceivesOldest(s: State, t: State, q: QueueId, delivered: seq<Envelope>)
    requires q < |s.queues|
  {
    && |t.queues| == |s.queues| && TookOldest(s.queues[q], t.queues[q], delivered)
    && forall p :: 0 <= p < |s.queues| && p != q ==> t.queues[p] == s.queues[p]
  }

  lemma ReceiveTakes(s: State, q: QueueId, delivered: seq<Envelope>)
    requires q < |s.queues| && delivered == s.queues[q].taken + s.queues[q].buf
    ensures ReceivesOldest(s, Apply(s, Receive(q)), q, delivered)
  {
  }

  /** A receiver gets the oldest delivery that was not received yet, if there is one; other queues stay. */
  lemma ReceiveTakesOldest(ops: seq<Op>, q: QueueId)
    requires q < |Run(ops).queues|
    ensures ReceivesOldest(Run(ops), Apply(Run(ops), Receive(q)), q, Delivered(ops, q))
  {
    var s, delivered := Run(ops), Delivered(ops, q);
    RelayConservation(ops, q);
    ReceiveTakes(s, q, delivered);
  }
}
