/**
 Which events a stream's channel delivers, in which order, and which it loses, over any sequence of
 operations of the stream manager. A channel's account is kept with a single number: how many more
 events were sent to it than its receivers asked for.
*/
module StreamEvents {
  import opened Common
  import opened StreamManager

  // ---------------------------------------------------------------------------------------
  // Who is registered with which channel
  // ---------------------------------------------------------------------------------------

  /** How many registrations a run made; each allocates the next channel. */
  function Registrations(ops: seq<Op>): nat {
    if ops == [] then 0 else Registrations(ops[..|ops| - 1]) + if ops[|ops| - 1].Register? then 1 else 0
  }

  predicate Owns(s: FlatState, n: NodeId, c: ChanId) {
    n in s.streams && s.streams[n] == c
  }

  /** Step `k` registers `n` with channel `c`. */
  predicate RegistersAt(ops: seq<Op>, k: int, n: NodeId, c: ChanId) {
    0 <= k < |ops| && ops[k] == Register(n) && Registrations(ops[..k]) == c
  }

  /** Step `k` unregisters `n` or registers it anew. */
  predicate ReleasesAt(ops: seq<Op>, k: int, n: NodeId) {
    0 <= k < |ops| && (ops[k] == Unregister(n) || ops[k] == Register(n))
  }

  predicate OwnsBefore(ops: seq<Op>, capacity: nat, k: int, n: NodeId, c: ChanId) {
    0 <= k <= |ops| && Owns(RunFlat(ops[..k], capacity), n, c)
  }

  lemma {:induction false} ChannelsAllocated(ops: seq<Op>, capacity: nat)
    ensures |RunFlat(ops, capacity).chans| == Registrations(ops)
  {
    if ops != [] {
      ChannelsAllocated(ops[..|ops| - 1], capacity);
    }
  }

  lemma FlatStep(ops: seq<Op>, capacity: nat, k: nat)
    requires k < |ops|
    ensures RunFlat(ops[..k + 1], capacity) == StepFlat(RunFlat(ops[..k], capacity), ops[k], capacity)
  {
    assert ops[..k + 1][..k] == ops[..k];
  }

  lemma OwnsByStep(s: FlatState, op: Op, capacity: nat, n: NodeId, c: ChanId)
    ensures Owns(StepFlat(s, op, capacity), n, c) <==>
            (op == Register(n) && |s.chans| == c) || (Owns(s, n, c) && op != Unregister(n) && op != Register(n))
  {
  }

  /** A node is registered with a channel if and only if that channel was made by its last registration, not undone since. */
  lemma OwnsExactly(ops: seq<Op>, capacity: nat, n: NodeId, c: ChanId)
    ensures Owns(RunFlat(ops, capacity), n, c) <==>
            LastSet(k => RegistersAt(ops, k, n, c), k => ReleasesAt(ops, k, n), 0, |ops|)
  {
    forall k: int | 0 <= k < |ops|
      ensures OwnsBefore(ops, capacity, k + 1, n, c) <==>
              RegistersAt(ops, k, n, c) || (OwnsBefore(ops, capacity, k, n, c) && !ReleasesAt(ops, k, n))
    {
      FlatStep(ops, capacity, k);
      ChannelsAllocated(ops[..k], capacity);
      OwnsByStep(RunFlat(ops[..k], capacity), ops[k], capacity, n, c);
    }
    SetAndNotCleared(k => OwnsBefore(ops, capacity, k, n, c), k => RegistersAt(ops, k, n, c), k => ReleasesAt(ops, k, n), 0, |ops|);
    assert ops[..|ops|] == ops;
  }

  // ---------------------------------------------------------------------------------------
  // The account of a channel
  // ---------------------------------------------------------------------------------------

  /**
   `kept` are the events that were not lost; `balance` is how many of them were not asked for yet, or,
   below zero, how many receivers wait.
  */
  datatype Account = Account(kept: seq<GlobalEvent>, balance: int, open: bool)

  /** What an operation does to a channel's account; `made`, `registered` and `released` say how it touches the channel. */
  function AccountAfter(a: Option<Account>, op: Op, c: ChanId, made: bool, registered: bool, released: bool, capacity: nat): Option<Account> {
    match a
    case None => if op.Register? && made then Some(Account([], 0, true)) else None
    case Some(x) =>
      match op
      case Register(_) => a
      case Unregister(_) => if released then Some(Account(x.kept, Max(x.balance, 0), false)) else a
      case Broadcast(e, _) =>
        if registered && x.balance < capacity then Some(x.(kept := x.kept + [e], balance := x.balance + 1)) else a
      case Take(c') => if c' == c && (x.open || x.balance > 0) then Some(x.(balance := x.balance - 1)) else a
  }

  ghost predicate Registered(s: FlatState, c: ChanId) {
    exists n :: Owns(s, n, c)
  }

  ghost predicate Released(s: FlatState, op: Op, c: ChanId) {
    op.Unregister? && Owns(s, op.n, c)
  }

  ghost function AccountOf(ops: seq<Op>, capacity: nat, c: ChanId): Option<Account> {
    if ops == [] then None
    else
      var before, op := ops[..|ops| - 1], ops[|ops| - 1];
      var s := RunFlat(before, capacity);
      AccountAfter(AccountOf(before, capacity, c), op, c, Registrations(before) == c, Registered(s, c), Released(s, op, c), capacity)
  }

  /** The channel is as its account says. */
  ghost predicate Balanced(chans: seq<Chan>, c: ChanId, a: Option<Account>) {
    match a
    case None => c >= |chans|
    case Some(x) =>
      && c < |chans|
      && chans[c].taken + chans[c].buf == x.kept
      && |chans[c].buf| - chans[c].waiting == x.balance && (chans[c].buf == [] || chans[c].waiting == 0)
      && chans[c].closed == !x.open
  }

  lemma BalancedBroadcast(s: FlatState, e: GlobalEvent, capacity: nat, c: ChanId, a: Option<Account>)
    requires Balanced(s.chans, c, a)
    ensures Balanced(PublishTo(s.chans, s.streams.Values, e, capacity), c,
                     AccountAfter(a, Broadcast(e, []), c, false, Registered(s, c), false, capacity))
  {
    assert c in s.streams.Values <==> Registered(s, c) by {
      if Registered(s, c) {
        var n :| Owns(s, n, c);
      }
      if c in s.streams.Values {
        var n :| n in s.streams && s.streams[n] == c;
        assert Owns(s, n, c);
      }
    }
    if c < |s.chans| { BalancedOffer(s.chans[c], e, capacity); }
  }

  lemma BalancedOffer(ch: Chan, e: GlobalEvent, capacity: nat)
    requires ch.buf == [] || ch.waiting == 0
    ensures var after := Offer(ch, e, capacity);
            && (after.buf == [] || after.waiting == 0) && after.closed == ch.closed
            && after.taken + after.buf == ch.taken + ch.buf + (if |ch.buf| - ch.waiting < capacity then [e] else [])
            && |after.buf| - after.waiting == |ch.buf| - ch.waiting + (if |ch.buf| - ch.waiting < capacity then 1 else 0)
  {
  }

  lemma BalancedTake(chans: seq<Chan>, c': ChanId, c: ChanId, a: Option<Account>, capacity: nat)
    requires Balanced(chans, c, a)
    ensures Balanced(TakeFrom(chans, c'), c, AccountAfter(a, Take(c'), c, false, false, false, capacity))
  {
    if c < |chans| && chans[c].buf != [] {
      assert chans[c].taken + chans[c].buf == chans[c].taken + [chans[c].buf[0]] + chans[c].buf[1..];
    }
  }

  lemma BalancedUnregister(s: FlatState, n: NodeId, c: ChanId, a: Option<Account>, capacity: nat)
    requires Balanced(s.chans, c, a)
    ensures Balanced(StepFlat(s, Unregister(n), capacity).chans, c,
                     AccountAfter(a, Unregister(n), c, false, false, Released(s, Unregister(n), c), capacity))
  {
  }

  lemma BalancedStep(s: FlatState, op: Op, capacity: nat, c: ChanId, a: Option<Account>)
    requires Balanced(s.chans, c, a)
    ensures Balanced(StepFlat(s, op, capacity).chans, c,
                     AccountAfter(a, op, c, |s.chans| == c, Registered(s, c), Released(s, op, c), capacity))
  {
    if op.Broadcast? {
      BalancedBroadcast(s, op.e, capacity, c, a);
    } else if op.Take? {
      BalancedTake(s.chans, op.c, c, a, capacity);
    } else if op.Unregister? {
      BalancedUnregister(s, op.n, c, a, capacity);
    }
  }

  lemma {:induction false} BalancedRun(ops: seq<Op>, capacity: nat, c: ChanId)
    ensures Balanced(RunFlat(ops, capacity).chans, c, AccountOf(ops, capacity, c))
  {
    if ops != [] {
      var before := ops[..|ops| - 1];
      BalancedRun(before, capacity, c);
      ChannelsAllocated(before, capacity);
      BalancedStep(RunFlat(before, capacity), ops[|ops| - 1], capacity, c, AccountOf(before, capacity, c));
    }
  }

  /** What the account says of the channel, spelled out. */
  ghost predicate Settled(chans: seq<Chan>, c: ChanId, a: Option<Account>) {
    && c < |chans| && a.Some?
    && chans[c].taken + chans[c].buf == a.value.kept
    && |chans[c].buf| == Max(a.value.balance, 0) && chans[c].waiting == Max(-a.value.balance, 0)
    && chans[c].closed == !a.value.open
  }

  lemma BalancedSettles(chans: seq<Chan>, c: ChanId, a: Option<Account>)
    requires Balanced(chans, c, a) && c < |chans|
    ensures Settled(chans, c, a)
  {
  }

  lemma ShardedChannels(ops: seq<Op>, capacity: nat)
    requires Orders(ops)
    ensures RunSharded(ops, capacity).chans == RunFlat(ops, capacity).chans
  {
    ShardedRefinesFlat(ops, capacity);
    assert Abstract(RunSharded(ops, capacity)).chans == RunSharded(ops, capacity).chans;
  }

  /**
   Order and loss, exactly: in every run, with any shard order per broadcast, what a channel's
   receivers got followed by what it holds is the sequence of events broadcast while it was registered
   and its balance was below the capacity. An event is lost exactly when the balance had reached the
   capacity, so never while a receiver waits, and receivers get the oldest events first.
  */
  lemma EventsExactly(ops: seq<Op>, capacity: nat, c: ChanId)
    requires Orders(ops) && c < Registrations(ops)
    ensures Settled(RunSharded(ops, capacity).chans, c, AccountOf(ops, capacity, c))
  {
    ShardedChannels(ops, capacity);
    ChannelsAllocated(ops, capacity);
    BalancedRun(ops, capacity, c);
    BalancedSettles(RunFlat(ops, capacity).chans, c, AccountOf(ops, capacity, c));
  }
}
