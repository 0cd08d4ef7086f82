/**
 The core server's event streams, spread over 256 shards by a hash of the node identifier. The
 class keeps an array of shard maps and updates it in place; everything is compared with one flat
 map from nodes to event channels.
*/
module StreamManager {
  import opened Common

  const NUM_SHARDS := 256

  /** A node identifier, as the bytes that are hashed. */
  type NodeId = seq<bv8>
  type ChanId = nat
  type Shard = map<NodeId, ChanId>

  datatype GlobalEvent = GlobalEvent(eventId: string, payload: seq<bv8>)

  /**
   An event channel. Channels are allocated once and named by their position. `waiting` counts the
   receivers that wait on the empty channel and `taken` is history: the events received so far.
  */
  datatype Chan = Chan(buf: seq<GlobalEvent>, waiting: nat, taken: seq<GlobalEvent>, closed: bool)

  /** A non-blocking send: to a waiting receiver, else into the buffer if it has room, else dropped. */
  function Offer(c: Chan, e: GlobalEvent, capacity: nat): Chan {
    if c.waiting > 0 then c.(waiting := c.waiting - 1, taken := c.taken + [e])
    else if |c.buf| < capacity then c.(buf := c.buf + [e])
    else c
  }

  /** 32-bit FNV-1a. */
  function Fnv1a(bytes: seq<bv8>): bv32 {
    if bytes == [] then 0x811c_9dc5
    else (Fnv1a(bytes[..|bytes| - 1]) ^ (bytes[|bytes| - 1] as bv32)) * 0x0100_0193
  }

  function ShardIndex(id: NodeId): (i: nat)
    ensures i < NUM_SHARDS
  {
    (Fnv1a(id) as int) % NUM_SHARDS
  }

  // ---------------------------------------------------------------------------------------
  // Shards against the flat map
  // ---------------------------------------------------------------------------------------

  /** Each node is only ever in the shard its hash selects. */
  ghost predicate Placed(shards: seq<Shard>) {
    forall i, n :: 0 <= i < |shards| && n in shards[i] ==> ShardIndex(n) == i
  }

  /** The single map the shards stand for. */
  function Flat(shards: seq<Shard>): Shard {
    if shards == [] then map[] else Flat(shards[..|shards| - 1]) + shards[|shards| - 1]
  }

  function TotalSize(shards: seq<Shard>): nat {
    if shards == [] then 0 else TotalSize(shards[..|shards| - 1]) + |shards[|shards| - 1]|
  }

  /** Looking a node up in the flat map is looking it up in its own shard. */
  lemma {:induction false} FlatLookup(shards: seq<Shard>, n: NodeId)
    requires Placed(shards)
    ensures n in Flat(shards) <==> ShardIndex(n) < |shards| && n in shards[ShardIndex(n)]
    ensures n in Flat(shards) ==> Flat(shards)[n] == shards[ShardIndex(n)][n]
  {
    if shards != [] {
      FlatLookup(shards[..|shards| - 1], n);
    }
  }

  /** The shard sizes add up to the size of the flat map. */
  lemma {:induction false} FlatSize(shards: seq<Shard>)
    requires Placed(shards)
    ensures |Flat(shards)| == TotalSize(shards)
  {
    if shards != [] {
      var init, last := shards[..|shards| - 1], shards[|shards| - 1];
      FlatSize(init);
      forall n | n in last ensures n !in Flat(init) {
        FlatLookup(init, n);
      }
      DisjointUnionSize(Flat(init), last);
    }
  }

  lemma DisjointUnionSize(a: Shard, b: Shard)
    requires forall n :: n in b ==> n !in a
    ensures |a + b| == |a| + |b|
  {
    assert (a + b).Keys == a.Keys + b.Keys && a.Keys !! b.Keys;
    assert |(a + b).Keys| == |a.Keys| + |b.Keys|;
  }

  function RegisterIn(shards: seq<Shard>, n: NodeId, c: ChanId): seq<Shard>
    requires |shards| == NUM_SHARDS
  {
    var shard: Shard := shards[ShardIndex(n)][n := c];
    shards[ShardIndex(n) := shard]
  }

  function UnregisterIn(shards: seq<Shard>, n: NodeId): seq<Shard>
    requires |shards| == NUM_SHARDS
  {
    shards[ShardIndex(n) := shards[ShardIndex(n)] - {n}]
  }

  /** Registering in the node's shard is storing in the flat map. */
  lemma FlatRegister(shards: seq<Shard>, n: NodeId, c: ChanId)
    requires |shards| == NUM_SHARDS && Placed(shards)
    ensures Placed(RegisterIn(shards, n, c))
    ensures Flat(RegisterIn(shards, n, c)) == Flat(shards)[n := c]
  {
    var after, goal := RegisterIn(shards, n, c), Flat(shards)[n := c];
    assert Placed(after);
    forall m ensures m in Flat(after) <==> m in goal
      ensures m in Flat(after) ==> Flat(after)[m] == goal[m]
    {
      FlatLookup(shards, m);
      FlatLookup(after, m);
    }
    assert Flat(after) == goal;
  }

  /** Unregistering from the node's shard is deleting from the flat map. */
  lemma FlatUnregister(shards: seq<Shard>, n: NodeId)
    requires |shards| == NUM_SHARDS && Placed(shards)
    ensures Placed(UnregisterIn(shards, n))
    ensures Flat(UnregisterIn(shards, n)) == Flat(shards) - {n}
  {
    var after := UnregisterIn(shards, n);
    assert Placed(after);
    forall m ensures m in Flat(after) <==> m in Flat(shards) - {n}
      ensures m in Flat(after) ==> Flat(after)[m] == (Flat(shards) - {n})[m]
    {
      FlatLookup(shards, m);
      FlatLookup(after, m);
    }
  }

  // ---------------------------------------------------------------------------------------
  // Publishing
  // ---------------------------------------------------------------------------------------

  /** One non-blocking send of `e` to every channel in `hit`. */
  function PublishTo(chans: seq<Chan>, hit: set<ChanId>, e: GlobalEvent, capacity: nat): (r: seq<Chan>)
    ensures |r| == |chans|
    ensures forall c :: 0 <= c < |r| ==>
              r[c] == if c in hit then Offer(chans[c], e, capacity) else chans[c]
  {
    seq(|chans|, c requires 0 <= c < |chans| => if c in hit then Offer(chans[c], e, capacity) else chans[c])
  }

  lemma PublishTwo(chans: seq<Chan>, a: set<ChanId>, b: set<ChanId>, e: GlobalEvent, capacity: nat)
    requires a !! b
    ensures PublishTo(PublishTo(chans, a, e, capacity), b, e, capacity) == PublishTo(chans, a + b, e, capacity)
  {
  }

  /** One more channel: a single send to it completes the larger publication. */
  lemma PublishOne(chans: seq<Chan>, hit: set<ChanId>, c: ChanId, e: GlobalEvent, capacity: nat)
    requires c < |chans| && c !in hit
    ensures PublishTo(chans, hit, e, capacity)[c] == chans[c]
    ensures PublishTo(chans, hit + {c}, e, capacity) ==
            PublishTo(chans, hit, e, capacity)[c := Offer(chans[c], e, capacity)]
  {
  }

  lemma PublishNone(chans: seq<Chan>, e: GlobalEvent, capacity: nat)
    ensures PublishTo(chans, {}, e, capacity) == chans
  {
  }

  /** The channels registered in the given shards. */
  function Members(shards: seq<Shard>, which: set<nat>): set<ChanId> {
    set i, n | i in which && i < |shards| && n in shards[i] :: shards[i][n]
  }

  /** No channel is registered twice. */
  ghost predicate OneOwner(shards: seq<Shard>) {
    forall i, n, j, m ::
      0 <= i < |shards| && n in shards[i] && 0 <= j < |shards| && m in shards[j] && shards[i][n] == shards[j][m]
      ==> i == j && n == m
  }

  /** Shard by shard in the given order, as the per-shard goroutines finish. */
  function PublishShards(chans: seq<Chan>, shards: seq<Shard>, order: seq<nat>, e: GlobalEvent, capacity: nat): seq<Chan>
    requires forall k :: 0 <= k < |order| ==> order[k] < |shards|
  {
    if order == [] then chans
    else PublishTo(PublishShards(chans, shards, order[..|order| - 1], e, capacity),
                   shards[order[|order| - 1]].Values, e, capacity)
  }

  lemma MembersExtend(shards: seq<Shard>, which: set<nat>, i: nat)
    requires OneOwner(shards) && i < |shards| && i !in which
    ensures Members(shards, which + {i}) == Members(shards, which) + shards[i].Values
    ensures Members(shards, which) !! shards[i].Values
  {
  }

  lemma PublishNowhere(chans: seq<Chan>, shards: seq<Shard>, e: GlobalEvent, capacity: nat)
    ensures PublishTo(chans, Members(shards, {}), e, capacity) == chans
  {
    PublishNone(chans, e, capacity);
  }

  lemma PublishOneMore(chans: seq<Chan>, shards: seq<Shard>, which: set<nat>, i: nat, e: GlobalEvent, capacity: nat)
    requires OneOwner(shards) && i < |shards| && i !in which
    ensures PublishTo(PublishTo(chans, Members(shards, which), e, capacity), shards[i].Values, e, capacity) ==
            PublishTo(chans, Members(shards, which + {i}), e, capacity)
  {
    MembersExtend(shards, which, i);
    PublishTwo(chans, Members(shards, which), shards[i].Values, e, capacity);
  }

  lemma {:induction false} PublishShardsUnion(chans: seq<Chan>, shards: seq<Shard>, order: seq<nat>, e: GlobalEvent, capacity: nat)
    requires OneOwner(shards) && forall k :: 0 <= k < |order| ==> order[k] < |shards|
    requires Distinct(order)
    ensures PublishShards(chans, shards, order, e, capacity) ==
            PublishTo(chans, Members(shards, Elements(order)), e, capacity)
  {
    if order == [] {
      assert Members(shards, Elements(order)) == {};
      PublishNone(chans, e, capacity);
    } else {
      var init, last := order[..|order| - 1], order[|order| - 1];
      PublishShardsUnion(chans, shards, init, e, capacity);
      ElementsInit(order);
      PublishOneMore(chans, shards, Elements(init), last, e, capacity);
    }
  }

  lemma FlatMembers(shards: seq<Shard>, which: set<nat>)
    requires Placed(shards) && forall i :: 0 <= i < |shards| ==> i in which
    ensures Members(shards, which) == Flat(shards).Values
  {
    forall c ensures c in Members(shards, which) <==> c in Flat(shards).Values {
      if c in Members(shards, which) {
        var i, n :| i in which && i < |shards| && n in shards[i] && shards[i][n] == c;
        FlatLookup(shards, n);
      }
      if c in Flat(shards).Values {
        var n :| n in Flat(shards) && Flat(shards)[n] == c;
        FlatLookup(shards, n);
      }
    }
  }

  /** An order in which the shards can finish: each of them exactly once. */
  ghost predicate IsOrder(order: seq<nat>) {
    && (forall k :: 0 <= k < |order| ==> order[k] < NUM_SHARDS)
    && (forall i: nat :: i < NUM_SHARDS ==> i in order)
    && Distinct(order)
  }

  /** For every order of the shards, a broadcast is the flat broadcast. */
  lemma BroadcastAnyOrder(chans: seq<Chan>, shards: seq<Shard>, order: seq<nat>, e: GlobalEvent, capacity: nat)
    requires |shards| == NUM_SHARDS && Placed(shards) && OneOwner(shards) && IsOrder(order)
    ensures PublishShards(chans, shards, order, e, capacity) == PublishTo(chans, Flat(shards).Values, e, capacity)
  {
    PublishShardsUnion(chans, shards, order, e, capacity);
    FlatMembers(shards, Elements(order));
  }

  // ---------------------------------------------------------------------------------------
  // Any sequence of operations
  // ---------------------------------------------------------------------------------------

  datatype Op =
    | Register(n: NodeId)
    | Unregister(n: NodeId)
    | Broadcast(e: GlobalEvent, order: seq<nat>)
    | Take(c: ChanId)

  datatype Sharded = Sharded(shards: seq<Shard>, chans: seq<Chan>)
  datatype FlatState = FlatState(streams: Shard, chans: seq<Chan>)

  const EMPTY_CHAN := Chan([], 0, [], false)

  /** close(ch) also releases the waiting receivers. */
  function CloseChan(chans: seq<Chan>, c: ChanId): seq<Chan> {
    if c < |chans| then chans[c := chans[c].(closed := true, waiting := 0)] else chans
  }

  /** A receiver takes the oldest event, or waits for one on an open channel. */
  function Receive(c: Chan): Chan {
    if c.buf != [] then c.(buf := c.buf[1..], taken := c.taken + [c.buf[0]])
    else if c.closed then c
    else c.(waiting := c.waiting + 1)
  }

  function TakeFrom(chans: seq<Chan>, c: ChanId): seq<Chan> {
    if c < |chans| then chans[c := Receive(chans[c])] else chans
  }

  function InitialSharded(): Sharded {
    Sharded(seq(NUM_SHARDS, _ => map[]), [])
  }

  function StepSharded(s: Sharded, op: Op, capacity: nat): (r: Sharded)
    requires |s.shards| == NUM_SHARDS && (op.Broadcast? ==> IsOrder(op.order))
    ensures |r.shards| == NUM_SHARDS
  {
    match op
    case Register(n) => Sharded(RegisterIn(s.shards, n, |s.chans|), s.chans + [EMPTY_CHAN])
    case Unregister(n) =>
      var shard := s.shards[ShardIndex(n)];
      if n in shard then Sharded(UnregisterIn(s.shards, n), CloseChan(s.chans, shard[n])) else s
    case Broadcast(e, order) => s.(chans := PublishShards(s.chans, s.shards, order, e, capacity))
    case Take(c) => s.(chans := TakeFrom(s.chans, c))
  }

  function StepFlat(s: FlatState, op: Op, capacity: nat): FlatState {
    match op
    case Register(n) => FlatState(s.streams[n := |s.chans|], s.chans + [EMPTY_CHAN])
    case Unregister(n) =>
      if n in s.streams then FlatState(s.streams - {n}, CloseChan(s.chans, s.streams[n])) else s
    case Broadcast(e, _) => s.(chans := PublishTo(s.chans, s.streams.Values, e, capacity))
    case Take(c) => s.(chans := TakeFrom(s.chans, c))
  }

  ghost predicate Orders(ops: seq<Op>) {
    forall i :: 0 <= i < |ops| && ops[i].Broadcast? ==> IsOrder(ops[i].order)
  }

  function RunSharded(ops: seq<Op>, capacity: nat): (r: Sharded)
    requires Orders(ops)
    ensures |r.shards| == NUM_SHARDS
  {
    if ops == [] then InitialSharded()
    else StepSharded(RunSharded(ops[..|ops| - 1], capacity), ops[|ops| - 1], capacity)
  }

  function RunFlat(ops: seq<Op>, capacity: nat): FlatState {
    if ops == [] then FlatState(map[], [])
    else StepFlat(RunFlat(ops[..|ops| - 1], capacity), ops[|ops| - 1], capacity)
  }

  /** Registered channels exist and are open. */
  ghost predicate Allocated(shards: seq<Shard>, chans: seq<Chan>) {
    forall i, n :: 0 <= i < |shards| && n in shards[i] ==> shards[i][n] < |chans| && !chans[shards[i][n]].closed
  }

  ghost predicate ShardedInv(s: Sharded) {
    |s.shards| == NUM_SHARDS && Placed(s.shards) && OneOwner(s.shards) && Allocated(s.shards, s.chans)
  }

  function Abstract(s: Sharded): FlatState {
    FlatState(Flat(s.shards), s.chans)
  }

  /** What a shard holds after a registration: the new entry, and the old entries of other nodes. */
  lemma RegisteredEntry(shards: seq<Shard>, n: NodeId, c: ChanId, i: nat, m: NodeId)
    requires |shards| == NUM_SHARDS && i < NUM_SHARDS && m in RegisterIn(shards, n, c)[i]
    ensures (i == ShardIndex(n) && m == n) || m in shards[i]
    ensures RegisterIn(shards, n, c)[i][m] == if i == ShardIndex(n) && m == n then c else shards[i][m]
  {
  }

  lemma RegisterOneOwner(shards: seq<Shard>, chans: seq<Chan>, n: NodeId)
    requires |shards| == NUM_SHARDS && OneOwner(shards) && Allocated(shards, chans)
    ensures OneOwner(RegisterIn(shards, n, |chans|))
  {
    var after := RegisterIn(shards, n, |chans|);
    forall i, m, j, l |
      0 <= i < |after| && m in after[i] && 0 <= j < |after| && l in after[j] && after[i][m] == after[j][l]
      ensures i == j && m == l
    {
      RegisteredEntry(shards, n, |chans|, i, m);
      RegisteredEntry(shards, n, |chans|, j, l);
    }
  }

  lemma RegisterAllocated(shards: seq<Shard>, chans: seq<Chan>, n: NodeId)
    requires |shards| == NUM_SHARDS && Allocated(shards, chans)
    ensures Allocated(RegisterIn(shards, n, |chans|), chans + [EMPTY_CHAN])
  {
    var after := RegisterIn(shards, n, |chans|);
    forall i, m | 0 <= i < |after| && m in after[i]
      ensures after[i][m] < |chans| + 1 && !(chans + [EMPTY_CHAN])[after[i][m]].closed
    {
      RegisteredEntry(shards, n, |chans|, i, m);
    }
  }

  lemma RegisterKeeps(shards: seq<Shard>, chans: seq<Chan>, n: NodeId)
    requires ShardedInv(Sharded(shards, chans))
    ensures ShardedInv(Sharded(RegisterIn(shards, n, |chans|), chans + [EMPTY_CHAN]))
  {
    RegisterOneOwner(shards, chans, n);
    RegisterAllocated(shards, chans, n);
    FlatRegister(shards, n, |chans|);
  }

  lemma UnregisterKeeps(shards: seq<Shard>, chans: seq<Chan>, n: NodeId)
    requires ShardedInv(Sharded(shards, chans)) && n in shards[ShardIndex(n)]
    ensures ShardedInv(Sharded(UnregisterIn(shards, n), CloseChan(chans, shards[ShardIndex(n)][n])))
  {
    FlatUnregister(shards, n);
  }

  lemma UnregisterRefines(s: Sharded, n: NodeId, capacity: nat)
    requires ShardedInv(s)
    ensures ShardedInv(StepSharded(s, Unregister(n), capacity))
    ensures Abstract(StepSharded(s, Unregister(n), capacity)) == StepFlat(Abstract(s), Unregister(n), capacity)
  {
    FlatLookup(s.shards, n);
    if n in s.shards[ShardIndex(n)] {
      UnregisterKeeps(s.shards, s.chans, n);
      FlatUnregister(s.shards, n);
    }
  }

  lemma BroadcastKeeps(s: Sharded, e: GlobalEvent, order: seq<nat>, capacity: nat)
    requires ShardedInv(s) && IsOrder(order)
    ensures ShardedInv(StepSharded(s, Broadcast(e, order), capacity))
  {
    BroadcastAnyOrder(s.chans, s.shards, order, e, capacity);
  }

  /** One operation on the shards is the same operation on the flat map. */
  lemma StepRefines(s: Sharded, op: Op, capacity: nat)
    requires ShardedInv(s) && (op.Broadcast? ==> IsOrder(op.order))
    ensures ShardedInv(StepSharded(s, op, capacity))
    ensures Abstract(StepSharded(s, op, capacity)) == StepFlat(Abstract(s), op, capacity)
  {
    match op
    case Register(n) =>
      RegisterKeeps(s.shards, s.chans, n);
      FlatRegister(s.shards, n, |s.chans|);
    case Unregister(n) => UnregisterRefines(s, n, capacity);
    case Broadcast(e, order) =>
      BroadcastKeeps(s, e, order, capacity);
      BroadcastAnyOrder(s.chans, s.shards, order, e, capacity);
    case Take(c) =>
  }

  /**
   Sharding is invisible: after any sequence of operations, and for every order in which the shards
   of each broadcast finish, the shards stand for the map a single-map manager would hold, the
   channels hold the same events, membership and the sum of shard sizes agree with that map, and
   every node is in its own shard only.
  */
  lemma {:induction false} ShardedRefinesFlat(ops: seq<Op>, capacity: nat)
    requires Orders(ops)
    ensures ShardedInv(RunSharded(ops, capacity))
    ensures Abstract(RunSharded(ops, capacity)) == RunFlat(ops, capacity)
    ensures TotalSize(RunSharded(ops, capacity).shards) == |RunFlat(ops, capacity).streams|
    ensures forall n: NodeId ::
              n in RunSharded(ops, capacity).shards[ShardIndex(n)] <==> n in RunFlat(ops, capacity).streams
  {
    if ops == [] {
      InitialFlat(InitialSharded().shards);
    } else {
      ShardedRefinesFlat(ops[..|ops| - 1], capacity);
      StepRefines(RunSharded(ops[..|ops| - 1], capacity), ops[|ops| - 1], capacity);
    }
    var s := RunSharded(ops, capacity);
    FlatSize(s.shards);
    forall n: NodeId ensures n in s.shards[ShardIndex(n)] <==> n in Flat(s.shards) {
      FlatLookup(s.shards, n);
    }
  }

  lemma {:induction false} InitialFlat(shards: seq<Shard>)
    requires forall i :: 0 <= i < |shards| ==> shards[i] == map[]
    ensures Flat(shards) == map[]
  {
    if shards != [] {
      InitialFlat(shards[..|shards| - 1]);
    }
  }

  /** The next stream's channel is open and was not sent to yet. */
  lemma NextChannel(shards: seq<Shard>, chans: seq<Chan>, i: nat, n: NodeId, todo: set<NodeId>, hit: set<ChanId>)
    requires ShardedInv(Sharded(shards, chans)) && i < NUM_SHARDS && n in todo && todo <= shards[i].Keys
    requires hit == set m | m in shards[i] && m !in todo :: shards[i][m]
    ensures shards[i][n] < |chans| && !chans[shards[i][n]].closed && shards[i][n] !in hit
    ensures hit + {shards[i][n]} == set m | m in shards[i] && m !in todo - {n} :: shards[i][m]
  {
  }

  lemma PublishKeeps(shards: seq<Shard>, chans: seq<Chan>, hit: set<ChanId>, e: GlobalEvent, capacity: nat)
    requires ShardedInv(Sharded(shards, chans))
    ensures ShardedInv(Sharded(shards, PublishTo(chans, hit, e, capacity)))
  {
  }

  // ---------------------------------------------------------------------------------------
  // The stream manager itself
  // ---------------------------------------------------------------------------------------

  class StreamManager {
    const shards: array<Shard>
    const bufferSize: nat
    var chans: seq<Chan>

    ghost predicate Valid()
      reads this, shards
    {
      ShardedInv(Sharded(shards[..], chans))
    }

    /** The one map and its channels that the manager stands for. */
    ghost function Contents(): FlatState
      reads this, shards
    {
      FlatState(Flat(shards[..]), chans)
    }

    constructor (bufferSize: nat)
      ensures Valid() && fresh(shards) && this.bufferSize == bufferSize
      ensures Contents() == FlatState(map[], [])
    {
      this.bufferSize := bufferSize;
      shards := new Shard[NUM_SHARDS](_ => map[]);
      chans := [];
      new;
      InitialFlat(shards[..]);
    }

    method RegisterStream(nodeID: NodeId) returns (c: ChanId)
      requires Valid()
      modifies this, shards
      ensures Valid()
      ensures Contents() == StepFlat(old(Contents()), Register(nodeID), bufferSize)
      ensures c == |old(chans)|
    {
      RegisterKeeps(shards[..], chans, nodeID);
      FlatRegister(shards[..], nodeID, |chans|);
      c := |chans|;
      chans := chans + [EMPTY_CHAN];
      var i := ShardIndex(nodeID);
      shards[i] := shards[i][nodeID := c];
      assert shards[..] == RegisterIn(old(shards[..]), nodeID, c);
    }

    method UnregisterStream(nodeID: NodeId)
      requires Valid()
      modifies this, shards
      ensures Valid()
      ensures Contents() == StepFlat(old(Contents()), Unregister(nodeID), bufferSize)
    {
      FlatLookup(shards[..], nodeID);
      var i := ShardIndex(nodeID);
      if nodeID in shards[i] {
        UnregisterKeeps(shards[..], chans, nodeID);
        FlatUnregister(shards[..], nodeID);
        var c := shards[i][nodeID];
        assert !chans[c].closed;
        chans := chans[c := chans[c].(closed := true, waiting := 0)];
        shards[i] := shards[i] - {nodeID};
        assert shards[..] == UnregisterIn(old(shards[..]), nodeID);
      }
    }

    /** The loop of one shard's goroutine: its streams in whatever order the map yields them. */
    method PublishShard(i: nat, e: GlobalEvent)
      requires Valid() && i < NUM_SHARDS
      modifies this`chans
      ensures Valid() && chans == PublishTo(old(chans), shards[i].Values, e, bufferSize)
    {
      ghost var before, all := chans, shards[..];
      var shard := shards[i];
      var todo := shard.Keys;
      ghost var hit: set<ChanId> := {};
      PublishNone(chans, e, bufferSize);
      while todo != {}
        invariant todo <= shard.Keys
        invariant hit == set n | n in shard && n !in todo :: shard[n]
        invariant chans == PublishTo(before, hit, e, bufferSize)
        decreases todo
      {
        var n :| n in todo;
        var c := shard[n];
        NextChannel(all, before, i, n, todo, hit);
        PublishOne(before, hit, c, e, bufferSize);
        ghost var was := chans;
        if chans[c].waiting > 0 {
          chans := chans[c := chans[c].(waiting := chans[c].waiting - 1, taken := chans[c].taken + [e])];
        } else if |chans[c].buf| < bufferSize {
          chans := chans[c := chans[c].(buf := chans[c].buf + [e])];
        }
        assert chans == was[c := Offer(was[c], e, bufferSize)];
        todo, hit := todo - {n}, hit + {c};
      }
      assert hit == shard.Values;
      PublishKeeps(all, before, hit, e, bufferSize);
      assert shards[..] == all;
    }

    /** All shards, in whatever order their goroutines finish. */
    method BroadcastEvent(e: GlobalEvent)
      requires Valid()
      modifies this`chans
      ensures Valid()
      ensures chans == PublishTo(old(chans), Flat(shards[..]).Values, e, bufferSize)
    {
      ghost var before, all := chans, shards[..];
      var todo := Below(NUM_SHARDS);
      ghost var done: set<nat> := {};
      PublishNowhere(chans, all, e, bufferSize);
      while todo != {}
        invariant Valid() && shards[..] == all && done !! todo
        invariant forall i :: 0 <= i < NUM_SHARDS <==> i in done || i in todo
        invariant chans == PublishTo(before, Members(all, done), e, bufferSize)
        decreases todo
      {
        var i :| i in todo;
        PublishOneMore(before, all, done, i, e, bufferSize);
        PublishShard(i, e);
        todo, done := todo - {i}, done + {i};
      }
      FlatMembers(all, done);
    }

    method Count() returns (total: nat)
      requires Valid()
      ensures total == |Contents().streams|
    {
      FlatSize(shards[..]);
      total := 0;
      for i := 0 to NUM_SHARDS
        invariant total == TotalSize(shards[..i])
      {
        assert shards[..i + 1][..i] == shards[..i];
        total := total + |shards[i]|;
      }
      assert shards[..NUM_SHARDS] == shards[..];
    }

    method Has(nodeID: NodeId) returns (exists': bool)
      requires Valid()
      ensures exists' <==> nodeID in Contents().streams
    {
      FlatLookup(shards[..], nodeID);
      exists' := nodeID in shards[ShardIndex(nodeID)];
    }
  }
}
