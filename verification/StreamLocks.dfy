/**
 The stream manager under any interleaving of its threads. Taking and releasing a shard's
 read-write lock, storing, closing, deleting, and each send of a broadcast are separate steps; a
 thread that cannot take a lock stays where it is. Broadcast and BroadcastAsync both start one
 thread per shard.
*/
module StreamLocks {
  import opened Common
  import opened StreamManager

  type ThreadId = nat

  /** Where a thread stands; each constructor's fields are its local variables. */
  datatype Pc =
    | Done
    // Register
    | RegMake(n: NodeId)
    | RegLock(n: NodeId, c: ChanId)
    | RegPut(n: NodeId, c: ChanId)
    // Unregister
    | UnLock(n: NodeId)
    | UnCheck(n: NodeId)
    | UnClose(n: NodeId)
    | UnDelete(n: NodeId)
    // the deferred write unlock of both
    | WriteUnlock(n: NodeId)
    // one shard of a broadcast
    | BcLock(e: GlobalEvent, i: nat)
    | BcSend(e: GlobalEvent, i: nat, todo: set<NodeId>)
    // Has and one shard of Count
    | ReadLock(i: nat)
    | ReadUnlock(i: nat)

  predicate IsEntry(pc: Pc) {
    pc.RegMake? || pc.UnLock? || (pc.BcLock? && pc.i < NUM_SHARDS) || (pc.ReadLock? && pc.i < NUM_SHARDS)
  }

  datatype Lock = Lock(writer: Option<ThreadId>, readers: set<ThreadId>)

  /** History: what became of a channel. */
  datatype Owner =
    | Making(t: ThreadId)             // made by a registration that has not stored it yet
    | Stream(n: NodeId)               // registered and open
    | Closing(t: ThreadId, n: NodeId) // closed, about to be deleted by the same critical section
    | Closed                          // closed and deleted
    | Orphan                          // overwritten by a later registration, never closed

  datatype World = World(
    shards: seq<Shard>, chans: seq<Chan>, locks: seq<Lock>, threads: seq<Pc>, owner: seq<Owner>,
    capacity: nat, fault: bool)

  function Start(capacity: nat): World {
    World(seq(NUM_SHARDS, _ => map[]), [], seq(NUM_SHARDS, _ => Lock(None, {})), [], [], capacity, false)
  }

  datatype Action = Spawn(pc: Pc) | Step(t: ThreadId, pick: NodeId) | Take(c: ChanId)

  predicate Shaped(w: World) {
    |w.shards| == NUM_SHARDS && |w.locks| == NUM_SHARDS
  }

  function Goto(w: World, t: ThreadId, pc: Pc): World
    requires t < |w.threads|
  {
    w.(threads := w.threads[t := pc])
  }

  function WriteLocked(w: World, t: ThreadId, i: nat, pc: Pc): World
    requires Shaped(w) && t < |w.threads| && i < NUM_SHARDS
  {
    if w.locks[i].writer.None? && w.locks[i].readers == {} then
      Goto(w, t, pc).(locks := w.locks[i := Lock(Some(t), {})])
    else w
  }

  function ReadLocked(w: World, t: ThreadId, i: nat, pc: Pc): World
    requires Shaped(w) && t < |w.threads| && i < NUM_SHARDS
  {
    if w.locks[i].writer.None? then
      Goto(w, t, pc).(locks := w.locks[i := Lock(None, w.locks[i].readers + {t})])
    else w
  }

  function WriteReleased(w: World, t: ThreadId, i: nat): World
    requires Shaped(w) && t < |w.threads| && i < NUM_SHARDS
  {
    Goto(w, t, Done).(locks := w.locks[i := Lock(None, w.locks[i].readers)])
  }

  function ReadReleased(w: World, t: ThreadId, i: nat): World
    requires Shaped(w) && t < |w.threads| && i < NUM_SHARDS
  {
    Goto(w, t, Done).(locks := w.locks[i := Lock(w.locks[i].writer, w.locks[i].readers - {t})])
  }

  function SetOwner(w: World, c: ChanId, o: Owner): World {
    if c < |w.owner| then w.(owner := w.owner[c := o]) else w
  }

  /** The critical section of Register: an existing stream's channel is dropped, not closed. */
  function Put(w: World, t: ThreadId, n: NodeId, c: ChanId): World
    requires Shaped(w) && t < |w.threads|
  {
    var shard := w.shards[ShardIndex(n)];
    var v := if n in shard then SetOwner(w, shard[n], Orphan) else w;
    Goto(SetOwner(v, c, Stream(n)), t, WriteUnlock(n)).(shards := RegisterIn(w.shards, n, c))
  }

  /** close(ch): faults on a closed channel. */
  function Close(w: World, t: ThreadId, n: NodeId): World
    requires Shaped(w) && t < |w.threads|
  {
    var shard := w.shards[ShardIndex(n)];
    if n in shard && shard[n] < |w.chans| then
      SetOwner(Goto(w, t, UnDelete(n)), shard[n], Closing(t, n))
        .(chans := CloseChan(w.chans, shard[n]), fault := w.fault || w.chans[shard[n]].closed)
    else Goto(w, t, UnDelete(n))
  }

  function Delete(w: World, t: ThreadId, n: NodeId): World
    requires Shaped(w) && t < |w.threads|
  {
    var shard := w.shards[ShardIndex(n)];
    var v := if n in shard then SetOwner(w, shard[n], Closed) else w;
    Goto(v, t, WriteUnlock(n)).(shards := UnregisterIn(w.shards, n))
  }

  /** A non-blocking send to the stream of `n` in shard `i`: faults on a closed channel. */
  function Send(w: World, t: ThreadId, e: GlobalEvent, i: nat, todo: set<NodeId>, n: NodeId): World
    requires Shaped(w) && t < |w.threads| && i < NUM_SHARDS
  {
    var v := Goto(w, t, BcSend(e, i, todo - {n}));
    if n !in w.shards[i] || w.shards[i][n] >= |w.chans| then v
    else
      var c := w.shards[i][n];
      if w.chans[c].closed then v.(fault := true)
      else v.(chans := PublishTo(w.chans, {c}, e, w.capacity))
  }

  function StepThread(w: World, t: ThreadId, pick: NodeId): (v: World)
    requires Shaped(w) && t < |w.threads|
    ensures Shaped(v) && |v.threads| == |w.threads|
  {
    match w.threads[t]
    case Done => w
    case RegMake(n) => Goto(w, t, RegLock(n, |w.chans|)).(chans := w.chans + [EMPTY_CHAN], owner := w.owner + [Making(t)])
    case RegLock(n, c) => WriteLocked(w, t, ShardIndex(n), RegPut(n, c))
    case RegPut(n, c) => Put(w, t, n, c)
    case UnLock(n) => WriteLocked(w, t, ShardIndex(n), UnCheck(n))
    case UnCheck(n) => Goto(w, t, if n in w.shards[ShardIndex(n)] then UnClose(n) else WriteUnlock(n))
    case UnClose(n) => Close(w, t, n)
    case UnDelete(n) => Delete(w, t, n)
    case WriteUnlock(n) => WriteReleased(w, t, ShardIndex(n))
    case BcLock(e, i) => if i < NUM_SHARDS then ReadLocked(w, t, i, BcSend(e, i, w.shards[i].Keys)) else w
    case BcSend(e, i, todo) =>
      if i >= NUM_SHARDS then w
      else if todo == {} then ReadReleased(w, t, i)
      else if pick in todo then Send(w, t, e, i, todo, pick)
      else w
    case ReadLock(i) => if i < NUM_SHARDS then ReadLocked(w, t, i, ReadUnlock(i)) else w
    case ReadUnlock(i) => if i < NUM_SHARDS then ReadReleased(w, t, i) else w
  }

  function Act(w: World, a: Action): (v: World)
    requires Shaped(w)
    ensures Shaped(v)
  {
    match a
    case Spawn(pc) => if IsEntry(pc) then w.(threads := w.threads + [pc]) else w
    case Step(t, pick) => if t < |w.threads| && !w.fault then StepThread(w, t, pick) else w
    case Take(c) => w.(chans := TakeFrom(w.chans, c))
  }

  function Exec(capacity: nat, acts: seq<Action>): (w: World)
    ensures Shaped(w)
  {
    if acts == [] then Start(capacity) else Act(Exec(capacity, acts[..|acts| - 1]), acts[|acts| - 1])
  }

  // ---------------------------------------------------------------------------------------
  // Locks
  // ---------------------------------------------------------------------------------------

  predicate HoldsWrite(pc: Pc, i: nat) {
    (pc.RegPut? || pc.UnCheck? || pc.UnClose? || pc.UnDelete? || pc.WriteUnlock?) && ShardIndex(pc.n) == i
  }

  predicate HoldsRead(pc: Pc, i: nat) {
    (pc.BcSend? || pc.ReadUnlock?) && pc.i == i
  }

  ghost predicate LockInv(w: World, t: ThreadId)
    requires Shaped(w) && t < |w.threads|
  {
    forall i: nat :: i < NUM_SHARDS ==>
      && (HoldsWrite(w.threads[t], i) ==> w.locks[i].writer == Some(t))
      && (HoldsRead(w.threads[t], i) ==> t in w.locks[i].readers)
  }

  ghost predicate LocksInv(w: World)
    requires Shaped(w)
  {
    && (forall i :: 0 <= i < NUM_SHARDS && w.locks[i].writer.Some? ==> w.locks[i].readers == {})
    && (forall t :: 0 <= t < |w.threads| ==> LockInv(w, t))
  }

  /** A step that leaves the locks alone and holds no more than before. */
  lemma LocksFrame(w: World, v: World, t: ThreadId, pc: Pc)
    requires Shaped(w) && Shaped(v) && LocksInv(w) && t < |w.threads|
    requires v.locks == w.locks && v.threads == w.threads[t := pc]
    requires forall i: nat :: (HoldsWrite(pc, i) ==> HoldsWrite(w.threads[t], i))
                           && (HoldsRead(pc, i) ==> HoldsRead(w.threads[t], i))
    ensures LocksInv(v)
  {
    forall u | 0 <= u < |v.threads| ensures LockInv(v, u) {
      assert LockInv(w, u) && LockInv(w, t);
    }
  }

  lemma LocksWrite(w: World, t: ThreadId, i: nat, pc: Pc)
    requires Shaped(w) && LocksInv(w) && t < |w.threads| && i < NUM_SHARDS
    requires forall j: nat :: !HoldsRead(pc, j) && (HoldsWrite(pc, j) ==> j == i)
    ensures LocksInv(WriteLocked(w, t, i, pc))
  {
    var v := WriteLocked(w, t, i, pc);
    forall u | 0 <= u < |v.threads| ensures LockInv(v, u) { assert LockInv(w, u); }
  }

  lemma LocksRead(w: World, t: ThreadId, i: nat, pc: Pc)
    requires Shaped(w) && LocksInv(w) && t < |w.threads| && i < NUM_SHARDS
    requires forall j: nat :: !HoldsWrite(pc, j) && (HoldsRead(pc, j) ==> j == i)
    ensures LocksInv(ReadLocked(w, t, i, pc))
  {
    var v := ReadLocked(w, t, i, pc);
    forall u | 0 <= u < |v.threads| ensures LockInv(v, u) { assert LockInv(w, u); }
  }

  lemma LocksRelease(w: World, t: ThreadId, i: nat)
    requires Shaped(w) && LocksInv(w) && t < |w.threads| && i < NUM_SHARDS
    ensures HoldsWrite(w.threads[t], i) ==> LocksInv(WriteReleased(w, t, i))
    ensures HoldsRead(w.threads[t], i) ==> LocksInv(ReadReleased(w, t, i))
  {
    assert LockInv(w, t);
    var v, r := WriteReleased(w, t, i), ReadReleased(w, t, i);
    if HoldsWrite(w.threads[t], i) {
      forall u | 0 <= u < |v.threads| ensures LockInv(v, u) { assert LockInv(w, u); }
    }
    if HoldsRead(w.threads[t], i) {
      forall u | 0 <= u < |r.threads| ensures LockInv(r, u) { assert LockInv(w, u); }
    }
  }

  lemma LocksWriterStep(w: World, t: ThreadId, pick: NodeId)
    requires Shaped(w) && LocksInv(w) && t < |w.threads|
    requires !w.threads[t].BcLock? && !w.threads[t].BcSend? && !w.threads[t].ReadLock? && !w.threads[t].ReadUnlock?
    ensures LocksInv(StepThread(w, t, pick))
  {
    var v, pc := StepThread(w, t, pick), w.threads[t];
    if pc.RegLock? {
      LocksWrite(w, t, ShardIndex(pc.n), RegPut(pc.n, pc.c));
    } else if pc.UnLock? {
      LocksWrite(w, t, ShardIndex(pc.n), UnCheck(pc.n));
    } else if pc.WriteUnlock? {
      LocksRelease(w, t, ShardIndex(pc.n));
    } else if !pc.Done? {
      LocksFrame(w, v, t, v.threads[t]);
    }
  }

  /** A step touches at most its own lock entry, and only as the lock allows. */
  lemma LocksStep(w: World, t: ThreadId, pick: NodeId)
    requires Shaped(w) && LocksInv(w) && t < |w.threads|
    ensures LocksInv(StepThread(w, t, pick))
  {
    var v, pc := StepThread(w, t, pick), w.threads[t];
    if pc.BcLock? {
      if pc.i < NUM_SHARDS { LocksRead(w, t, pc.i, BcSend(pc.e, pc.i, w.shards[pc.i].Keys)); }
    } else if pc.BcSend? {
      if pc.i < NUM_SHARDS {
        if pc.todo == {} { LocksRelease(w, t, pc.i); }
        else if pick in pc.todo { LocksFrame(w, v, t, v.threads[t]); }
      }
    } else if pc.ReadLock? {
      if pc.i < NUM_SHARDS { LocksRead(w, t, pc.i, ReadUnlock(pc.i)); }
    } else if pc.ReadUnlock? {
      if pc.i < NUM_SHARDS { LocksRelease(w, t, pc.i); }
    } else {
      LocksWriterStep(w, t, pick);
    }
  }

  lemma {:induction false} LocksExec(capacity: nat, acts: seq<Action>)
    ensures LocksInv(Exec(capacity, acts))
  {
    if acts != [] {
      var w, a := Exec(capacity, acts[..|acts| - 1]), acts[|acts| - 1];
      LocksExec(capacity, acts[..|acts| - 1]);
      if a.Step? {
        if a.t < |w.threads| { LocksStep(w, a.t, a.pick); }
      } else {
        var v := Act(w, a);
        forall u | 0 <= u < |v.threads| ensures LockInv(v, u) {
          if u < |w.threads| { assert LockInv(w, u); }
        }
      }
    }
  }

  /** In every interleaving a shard's writer excludes every other thread from the shard. */
  lemma WriterExcludesAll(capacity: nat, acts: seq<Action>, i: nat, t: ThreadId, u: ThreadId)
    requires i < NUM_SHARDS && t < |Exec(capacity, acts).threads| && u < |Exec(capacity, acts).threads| && t != u
    requires HoldsWrite(Exec(capacity, acts).threads[t], i)
    ensures !HoldsWrite(Exec(capacity, acts).threads[u], i) && !HoldsRead(Exec(capacity, acts).threads[u], i)
  {
    LocksExec(capacity, acts);
    assert LockInv(Exec(capacity, acts), t) && LockInv(Exec(capacity, acts), u);
  }

  // ---------------------------------------------------------------------------------------
  // Channels
  // ---------------------------------------------------------------------------------------

  /** What a thread relies on about its own channel or its shard. */
  ghost predicate ThreadInv(w: World, t: ThreadId)
    requires Shaped(w) && t < |w.threads|
  {
    match w.threads[t]
    case RegLock(n, c) => c < |w.owner| && w.owner[c] == Making(t)
    case RegPut(n, c) => c < |w.owner| && w.owner[c] == Making(t)
    case UnClose(n) => n in w.shards[ShardIndex(n)]
    case UnDelete(n) =>
      && n in w.shards[ShardIndex(n)]
      && w.shards[ShardIndex(n)][n] < |w.owner| && w.owner[w.shards[ShardIndex(n)][n]] == Closing(t, n)
    case BcSend(e, i, todo) => i < NUM_SHARDS && todo <= w.shards[i].Keys
    case _ => true
  }

  ghost predicate RegisteredInv(w: World, i: nat, n: NodeId)
    requires Shaped(w) && i < NUM_SHARDS && n in w.shards[i]
  {
    var c := w.shards[i][n];
    && ShardIndex(n) == i
    && c < |w.owner|
    && (w.owner[c] == Stream(n) || (w.owner[c].Closing? && w.owner[c].n == n))
  }

  ghost predicate OwnerInv(w: World, c: ChanId)
    requires Shaped(w) && c < |w.owner| == |w.chans|
  {
    var o := w.owner[c];
    && (w.chans[c].closed <==> o.Closing? || o.Closed?)
    && (o.Closing? ==> o.t < |w.threads| && w.threads[o.t] == UnDelete(o.n))
    && (o.Closing? || o.Stream? ==> o.n in w.shards[ShardIndex(o.n)] && w.shards[ShardIndex(o.n)][o.n] == c)
  }

  ghost predicate ChanInv(w: World)
    requires Shaped(w)
  {
    && |w.owner| == |w.chans|
    && !w.fault
    && (forall t :: 0 <= t < |w.threads| ==> ThreadInv(w, t))
    && (forall i, n :: 0 <= i < NUM_SHARDS && n in w.shards[i] ==> RegisteredInv(w, i, n))
    && (forall c :: 0 <= c < |w.owner| ==> OwnerInv(w, c))
  }

  /** Steps that change neither shards, owners nor closings, and rely on no more than before. */
  lemma ChanFrame(w: World, v: World, t: ThreadId, pc: Pc)
    requires Shaped(w) && Shaped(v) && ChanInv(w) && t < |w.threads| && v.threads == w.threads[t := pc]
    requires v.shards == w.shards && v.owner == w.owner && !v.fault && |v.chans| == |w.chans|
    requires forall c :: 0 <= c < |w.chans| ==> v.chans[c].closed == w.chans[c].closed
    requires !w.threads[t].UnDelete? && ThreadInv(v, t)
    ensures ChanInv(v)
  {
    forall u | 0 <= u < |v.threads| ensures ThreadInv(v, u) { assert ThreadInv(w, u); }
    forall i, n | 0 <= i < NUM_SHARDS && n in v.shards[i] ensures RegisteredInv(v, i, n) { assert RegisteredInv(w, i, n); }
    forall c | 0 <= c < |v.owner| ensures OwnerInv(v, c) { assert OwnerInv(w, c); }
  }

  lemma ChanMake(w: World, t: ThreadId, n: NodeId, pick: NodeId)
    requires Shaped(w) && ChanInv(w) && t < |w.threads| && w.threads[t] == RegMake(n)
    ensures ChanInv(StepThread(w, t, pick))
  {
    var v := StepThread(w, t, pick);
    forall u | 0 <= u < |v.threads| ensures ThreadInv(v, u) { assert ThreadInv(w, u); }
    forall i, n | 0 <= i < NUM_SHARDS && n in v.shards[i] ensures RegisteredInv(v, i, n) { assert RegisteredInv(w, i, n); }
    forall c | 0 <= c < |v.owner| ensures OwnerInv(v, c) {
      if c < |w.owner| { assert OwnerInv(w, c); }
    }
  }

  /** The channel that a thread inside the shard's write section sees is open, unless it closed it itself. */
  lemma WriterSeesOpen(w: World, t: ThreadId, n: NodeId)
    requires Shaped(w) && LocksInv(w) && ChanInv(w) && t < |w.threads|
    requires HoldsWrite(w.threads[t], ShardIndex(n)) && w.threads[t] != UnDelete(n)
    requires n in w.shards[ShardIndex(n)]
    ensures w.shards[ShardIndex(n)][n] < |w.chans| && w.owner[w.shards[ShardIndex(n)][n]] == Stream(n)
    ensures !w.chans[w.shards[ShardIndex(n)][n]].closed
  {
    var c := w.shards[ShardIndex(n)][n];
    assert RegisteredInv(w, ShardIndex(n), n) && OwnerInv(w, c);
    if w.owner[c].Closing? {
      assert LockInv(w, t) && LockInv(w, w.owner[c].t);
      assert HoldsWrite(w.threads[w.owner[c].t], ShardIndex(n));
    }
  }

  /** The same for a reader: nobody can be closing. */
  lemma ReaderSeesOpen(w: World, t: ThreadId, i: nat, n: NodeId)
    requires Shaped(w) && LocksInv(w) && ChanInv(w) && t < |w.threads| && i < NUM_SHARDS
    requires HoldsRead(w.threads[t], i) && n in w.shards[i]
    ensures w.shards[i][n] < |w.chans| && !w.chans[w.shards[i][n]].closed
  {
    var c := w.shards[i][n];
    assert RegisteredInv(w, i, n) && OwnerInv(w, c);
    if w.owner[c].Closing? {
      assert LockInv(w, t) && LockInv(w, w.owner[c].t);
      assert HoldsWrite(w.threads[w.owner[c].t], i);
    }
  }

  lemma ChanPut(w: World, t: ThreadId, n: NodeId, c: ChanId)
    requires Shaped(w) && LocksInv(w) && ChanInv(w) && t < |w.threads| && w.threads[t] == RegPut(n, c)
    ensures ChanInv(Put(w, t, n, c))
  {
    var v, i := Put(w, t, n, c), ShardIndex(n);
    assert ThreadInv(w, t) && LockInv(w, t);
    if n in w.shards[i] { WriterSeesOpen(w, t, n); }
    forall u | 0 <= u < |v.threads| ensures ThreadInv(v, u) {
      assert ThreadInv(w, u) && LockInv(w, u);
      NotInside(w, t, u, i);
    }
    forall j, m | 0 <= j < NUM_SHARDS && m in v.shards[j] ensures RegisteredInv(v, j, m) {
      if m != n || j != i { assert RegisteredInv(w, j, m); }
    }
    forall d | 0 <= d < |v.owner| ensures OwnerInv(v, d) { assert OwnerInv(w, d); }
  }

  /** No other thread is inside a shard whose write lock one holds. */
  lemma NotInside(w: World, t: ThreadId, u: ThreadId, i: nat)
    requires Shaped(w) && LocksInv(w) && t < |w.threads| && u < |w.threads| && i < NUM_SHARDS
    requires HoldsWrite(w.threads[t], i)
    ensures u == t || (!HoldsWrite(w.threads[u], i) && !HoldsRead(w.threads[u], i))
  {
    assert LockInv(w, t) && LockInv(w, u);
  }

  lemma ChanClose(w: World, t: ThreadId, n: NodeId)
    requires Shaped(w) && LocksInv(w) && ChanInv(w) && t < |w.threads| && w.threads[t] == UnClose(n)
    ensures ChanInv(Close(w, t, n))
  {
    var v, i := Close(w, t, n), ShardIndex(n);
    assert ThreadInv(w, t);
    WriterSeesOpen(w, t, n);
    forall u | 0 <= u < |v.threads| ensures ThreadInv(v, u) {
      assert ThreadInv(w, u);
      NotInside(w, t, u, i);
    }
    forall j, m | 0 <= j < NUM_SHARDS && m in v.shards[j] ensures RegisteredInv(v, j, m) { assert RegisteredInv(w, j, m); }
    forall d | 0 <= d < |v.owner| ensures OwnerInv(v, d) { assert OwnerInv(w, d); }
  }

  lemma ChanDelete(w: World, t: ThreadId, n: NodeId)
    requires Shaped(w) && LocksInv(w) && ChanInv(w) && t < |w.threads| && w.threads[t] == UnDelete(n)
    ensures ChanInv(Delete(w, t, n))
  {
    var v, i := Delete(w, t, n), ShardIndex(n);
    assert ThreadInv(w, t);
    forall u | 0 <= u < |v.threads| ensures ThreadInv(v, u) {
      assert ThreadInv(w, u);
      NotInside(w, t, u, i);
    }
    forall j, m | 0 <= j < NUM_SHARDS && m in v.shards[j] ensures RegisteredInv(v, j, m) { assert RegisteredInv(w, j, m); }
    forall d | 0 <= d < |v.owner| ensures OwnerInv(v, d) { assert OwnerInv(w, d); }
  }

  /** Steps that only move the thread and its locks. */
  lemma ChanMove(w: World, t: ThreadId, pick: NodeId)
    requires Shaped(w) && ChanInv(w) && t < |w.threads|
    requires var pc := w.threads[t];
             !pc.RegMake? && !pc.RegPut? && !pc.UnClose? && !pc.UnDelete? && !pc.BcSend?
    ensures ChanInv(StepThread(w, t, pick))
  {
    var v := StepThread(w, t, pick);
    assert ThreadInv(w, t);
    if v != w { ChanFrame(w, v, t, v.threads[t]); }
  }

  lemma ChanSend(w: World, t: ThreadId, pick: NodeId)
    requires Shaped(w) && LocksInv(w) && ChanInv(w) && t < |w.threads| && w.threads[t].BcSend?
    ensures ChanInv(StepThread(w, t, pick))
  {
    var v, pc := StepThread(w, t, pick), w.threads[t];
    assert ThreadInv(w, t);
    if pick in pc.todo { ReaderSeesOpen(w, t, pc.i, pick); }
    if v != w { ChanFrame(w, v, t, v.threads[t]); }
  }

  lemma ChanStep(w: World, t: ThreadId, pick: NodeId)
    requires Shaped(w) && LocksInv(w) && ChanInv(w) && t < |w.threads|
    ensures ChanInv(StepThread(w, t, pick))
  {
    var pc := w.threads[t];
    if pc.RegMake? {
      ChanMake(w, t, pc.n, pick);
    } else if pc.RegPut? {
      ChanPut(w, t, pc.n, pc.c);
    } else if pc.UnClose? {
      ChanClose(w, t, pc.n);
    } else if pc.UnDelete? {
      ChanDelete(w, t, pc.n);
    } else if pc.BcSend? {
      ChanSend(w, t, pick);
    } else {
      ChanMove(w, t, pick);
    }
  }

  lemma ChanAct(w: World, a: Action)
    requires Shaped(w) && LocksInv(w) && ChanInv(w)
    ensures ChanInv(Act(w, a))
  {
    if a.Step? {
      if a.t < |w.threads| { ChanStep(w, a.t, a.pick); }
    } else {
      var v := Act(w, a);
      forall u | 0 <= u < |v.threads| ensures ThreadInv(v, u) {
        if u < |w.threads| { assert ThreadInv(w, u); }
      }
      forall i, n | 0 <= i < NUM_SHARDS && n in v.shards[i] ensures RegisteredInv(v, i, n) { assert RegisteredInv(w, i, n); }
      forall c | 0 <= c < |v.owner| ensures OwnerInv(v, c) { assert OwnerInv(w, c); }
    }
  }

  lemma {:induction false} ChanExec(capacity: nat, acts: seq<Action>)
    ensures ChanInv(Exec(capacity, acts))
  {
    if acts != [] {
      ChanExec(capacity, acts[..|acts| - 1]);
      LocksExec(capacity, acts[..|acts| - 1]);
      ChanAct(Exec(capacity, acts[..|acts| - 1]), acts[|acts| - 1]);
    }
  }

  /** The stream's channel is open, or the shard's writer has just closed it and deletes it next. */
  ghost predicate OpenOrBeingDeleted(w: World, i: nat, n: NodeId)
    requires Shaped(w) && i < NUM_SHARDS && n in w.shards[i]
  {
    && w.shards[i][n] < |w.chans|
    && (w.chans[w.shards[i][n]].closed ==>
          exists t :: 0 <= t < |w.threads| && w.threads[t] == UnDelete(n) && w.locks[i].writer == Some(t))
  }

  /**
   In every interleaving no event is sent on a closed channel and no channel is closed twice. The
   registered channels are pairwise distinct, each in its node's shard, and open except for the one
   that a writer inside that shard has just closed and is about to delete.
  */
  lemma ChannelDiscipline(capacity: nat, acts: seq<Action>)
    ensures var w := Exec(capacity, acts);
            && !w.fault
            && Placed(w.shards) && OneOwner(w.shards)
            && (forall i, n :: 0 <= i < NUM_SHARDS && n in w.shards[i] ==> OpenOrBeingDeleted(w, i, n))
  {
    var w := Exec(capacity, acts);
    ChanExec(capacity, acts);
    LocksExec(capacity, acts);
    DistinctChannels(w);
    forall i, n | 0 <= i < NUM_SHARDS && n in w.shards[i] ensures OpenOrBeingDeleted(w, i, n) {
      var c := w.shards[i][n];
      assert RegisteredInv(w, i, n) && OwnerInv(w, c);
      if w.chans[c].closed {
        assert LockInv(w, w.owner[c].t) && HoldsWrite(w.threads[w.owner[c].t], i);
      }
    }
  }

  lemma DistinctChannels(w: World)
    requires Shaped(w) && ChanInv(w)
    ensures Placed(w.shards) && OneOwner(w.shards)
  {
    forall i, n, j, m |
      0 <= i < NUM_SHARDS && n in w.shards[i] && 0 <= j < NUM_SHARDS && m in w.shards[j] && w.shards[i][n] == w.shards[j][m]
      ensures i == j && n == m
    {
      assert RegisteredInv(w, i, n) && RegisteredInv(w, j, m);
    }
    forall i, n | 0 <= i < NUM_SHARDS && n in w.shards[i] ensures ShardIndex(n) == i {
      assert RegisteredInv(w, i, n);
    }
  }

  ghost predicate Retired(w: World, c: ChanId) {
    && c < |w.chans| && w.chans[c].closed
    && forall i, n :: 0 <= i < |w.shards| && n in w.shards[i] ==> w.shards[i][n] != c
  }

  lemma RetiredStep(w: World, a: Action, c: ChanId)
    requires Shaped(w) && ChanInv(w) && Retired(w, c)
    ensures Retired(Act(w, a), c)
  {
    assert OwnerInv(w, c);
    if a.Step? && a.t < |w.threads| { assert ThreadInv(w, a.t); }
  }

  /** A channel that was closed and deleted never returns to the shards and never reopens. */
  lemma {:induction false} RetiredForever(capacity: nat, acts: seq<Action>, more: seq<Action>, c: ChanId)
    requires Retired(Exec(capacity, acts), c)
    ensures Retired(Exec(capacity, acts + more), c)
  {
    if more == [] {
      assert acts + more == acts;
    } else {
      var init := more[..|more| - 1];
      RetiredForever(capacity, acts, init, c);
      assert (acts + more)[..|acts + more| - 1] == acts + init;
      ChanExec(capacity, acts + init);
      RetiredStep(Exec(capacity, acts + init), more[|more| - 1], c);
    }
  }

  // ---------------------------------------------------------------------------------------
  // The flat map in every interleaving
  // ---------------------------------------------------------------------------------------

  /** What a thread's next step does to the one map that the shards stand for. */
  function FlatAfter(flat: Shard, pc: Pc): Shard {
    match pc
    case RegPut(n, c) => flat[n := c]
    case UnDelete(n) => flat - {n}
    case _ => flat
  }

  lemma ShardsStay(w: World, t: ThreadId, pick: NodeId)
    requires Shaped(w) && t < |w.threads| && !w.threads[t].RegPut? && !w.threads[t].UnDelete?
    ensures StepThread(w, t, pick).shards == w.shards
  {
  }

  /**
   In every interleaving the shards stand for one map that changes only in the critical sections of a
   registration and an unregistration, there as by one store or one delete; every other step, and
   every step of a broadcast, leaves it alone.
  */
  lemma FlatChangesAtOnce(capacity: nat, acts: seq<Action>, a: Action)
    ensures var w, v := Exec(capacity, acts), Act(Exec(capacity, acts), a);
            Flat(v.shards) == if a.Step? && a.t < |w.threads| then FlatAfter(Flat(w.shards), w.threads[a.t])
                              else Flat(w.shards)
  {
    var w := Exec(capacity, acts);
    ChannelDiscipline(capacity, acts);
    if a.Step? && a.t < |w.threads| {
      var pc := w.threads[a.t];
      if pc.RegPut? {
        FlatRegister(w.shards, pc.n, pc.c);
      } else if pc.UnDelete? {
        FlatUnregister(w.shards, pc.n);
      } else {
        ShardsStay(w, a.t, a.pick);
      }
    }
  }

  /** The stores and deletes of a run, in the order in which they took effect, on a single map. */
  function FlatRun(capacity: nat, acts: seq<Action>): Shard {
    if acts == [] then map[]
    else
      var before, a := acts[..|acts| - 1], acts[|acts| - 1];
      var w := Exec(capacity, before);
      if a.Step? && a.t < |w.threads| then FlatAfter(FlatRun(capacity, before), w.threads[a.t])
      else FlatRun(capacity, before)
  }

  /**
   Refinement under concurrency: after every interleaving the shards stand for the map that a single
   map would hold after the same stores and deletes, one at a time, and agree with it on membership
   and size.
  */
  lemma {:induction false} InterleavingsRefineFlat(capacity: nat, acts: seq<Action>)
    ensures var w := Exec(capacity, acts);
            && Flat(w.shards) == FlatRun(capacity, acts)
            && TotalSize(w.shards) == |FlatRun(capacity, acts)|
            && forall n: NodeId :: n in w.shards[ShardIndex(n)] <==> n in FlatRun(capacity, acts)
  {
    if acts == [] {
      InitialFlat(Start(capacity).shards);
    } else {
      InterleavingsRefineFlat(capacity, acts[..|acts| - 1]);
      FlatChangesAtOnce(capacity, acts[..|acts| - 1], acts[|acts| - 1]);
    }
    AgreesWithFlat(capacity, acts);
  }

  lemma AgreesWithFlat(capacity: nat, acts: seq<Action>)
    ensures var w := Exec(capacity, acts);
            && TotalSize(w.shards) == |Flat(w.shards)|
            && forall n: NodeId :: n in w.shards[ShardIndex(n)] <==> n in Flat(w.shards)
  {
    var w := Exec(capacity, acts);
    ChannelDiscipline(capacity, acts);
    FlatSize(w.shards);
    forall n: NodeId ensures n in w.shards[ShardIndex(n)] <==> n in Flat(w.shards) { FlatLookup(w.shards, n); }
  }

  // ---------------------------------------------------------------------------------------
  // A thread left alone computes the whole operation
  // ---------------------------------------------------------------------------------------

  /** The thread takes one step per pick, with nobody else running. */
  function Steps(w: World, t: ThreadId, picks: seq<NodeId>): (v: World)
    requires Shaped(w) && t < |w.threads|
    ensures Shaped(v) && |v.threads| == |w.threads|
    decreases |picks|
  {
    if picks == [] then w else Steps(StepThread(w, t, picks[0]), t, picks[1..])
  }

  /** The channels of the given streams of a shard. */
  function ChannelsOf(shard: Shard, nodes: set<NodeId>): set<ChanId> {
    set n | n in nodes && n in shard :: shard[n]
  }

  ghost predicate OpenShard(w: World, i: nat)
    requires Shaped(w) && i < NUM_SHARDS
  {
    && (forall n :: n in w.shards[i] ==> w.shards[i][n] < |w.chans| && !w.chans[w.shards[i][n]].closed)
    && (forall n, m :: n in w.shards[i] && m in w.shards[i] && w.shards[i][n] == w.shards[i][m] ==> n == m)
  }

  lemma SendOne(w: World, t: ThreadId, e: GlobalEvent, i: nat, todo: set<NodeId>, n: NodeId)
    requires Shaped(w) && t < |w.threads| && i < NUM_SHARDS && w.threads[t] == BcSend(e, i, todo)
    requires OpenShard(w, i) && todo <= w.shards[i].Keys && n in todo
    ensures var v := StepThread(w, t, n);
            && v == Goto(w, t, BcSend(e, i, todo - {n})).(chans := PublishTo(w.chans, {w.shards[i][n]}, e, w.capacity))
            && OpenShard(v, i)
  {
  }

  lemma ChannelsSplit(shard: Shard, todo: set<NodeId>, n: NodeId)
    requires n in todo && todo <= shard.Keys
    requires forall m :: m in shard && shard[m] == shard[n] ==> m == n
    ensures ChannelsOf(shard, todo) == {shard[n]} + ChannelsOf(shard, todo - {n})
    ensures {shard[n]} !! ChannelsOf(shard, todo - {n})
  {
  }

  lemma {:induction false} SendAll(w: World, t: ThreadId, e: GlobalEvent, i: nat, todo: set<NodeId>, order: seq<NodeId>)
    requires Shaped(w) && t < |w.threads| && i < NUM_SHARDS && w.threads[t] == BcSend(e, i, todo)
    requires OpenShard(w, i) && todo <= w.shards[i].Keys && Distinct(order) && Elements(order) == todo
    ensures Steps(w, t, order) ==
            Goto(w, t, BcSend(e, i, {})).(chans := PublishTo(w.chans, ChannelsOf(w.shards[i], todo), e, w.capacity))
    decreases |order|
  {
    if order == [] {
      assert todo == {} && ChannelsOf(w.shards[i], todo) == {};
      PublishNone(w.chans, e, w.capacity);
    } else {
      var n := order[0];
      ElementsTail(order);
      assert Elements(order[1..]) == todo - {n};
      SendOne(w, t, e, i, todo, n);
      SendAll(StepThread(w, t, n), t, e, i, todo - {n}, order[1..]);
      ChannelsSplit(w.shards[i], todo, n);
      PublishTwo(w.chans, {w.shards[i][n]}, ChannelsOf(w.shards[i], todo - {n}), e, w.capacity);
    }
  }

  lemma NoWriterNoClosing(capacity: nat, acts: seq<Action>, i: nat)
    requires i < NUM_SHARDS && Exec(capacity, acts).locks[i].writer.None?
    ensures OpenShard(Exec(capacity, acts), i)
  {
    ChannelDiscipline(capacity, acts);
    forall n | n in Exec(capacity, acts).shards[i]
      ensures Exec(capacity, acts).shards[i][n] < |Exec(capacity, acts).chans|
      ensures !Exec(capacity, acts).chans[Exec(capacity, acts).shards[i][n]].closed
    {
      assert OpenOrBeingDeleted(Exec(capacity, acts), i, n);
    }
  }

  /** A broadcasting thread that can take the lock has sent, when done, to every stream of the shard, in any order. */
  lemma ShardBroadcastAlone(capacity: nat, acts: seq<Action>, t: ThreadId, e: GlobalEvent, i: nat, order: seq<NodeId>)
    requires t < |Exec(capacity, acts).threads| && Exec(capacity, acts).threads[t] == BcLock(e, i) && i < NUM_SHARDS
    requires Exec(capacity, acts).locks[i].writer.None? && t !in Exec(capacity, acts).locks[i].readers
    requires Distinct(order) && Elements(order) == Exec(capacity, acts).shards[i].Keys
    ensures var w := Exec(capacity, acts);
            var v := StepThread(Steps(StepThread(w, t, []), t, order), t, []);
            v == Goto(w, t, Done).(chans := PublishTo(w.chans, w.shards[i].Values, e, w.capacity))
  {
    var w := Exec(capacity, acts);
    var w1 := StepThread(w, t, []);
    NoWriterNoClosing(capacity, acts, i);
    LockedToSend(w, t, e, i);
    SendAll(w1, t, e, i, w.shards[i].Keys, order);
    assert ChannelsOf(w.shards[i], w.shards[i].Keys) == w.shards[i].Values;
    Unlocks(w, Steps(w1, t, order), t, e, i);
  }

  lemma LockedToSend(w: World, t: ThreadId, e: GlobalEvent, i: nat)
    requires Shaped(w) && t < |w.threads| && w.threads[t] == BcLock(e, i) && i < NUM_SHARDS
    requires w.locks[i].writer.None? && OpenShard(w, i)
    ensures var v := StepThread(w, t, []);
            && v == Goto(w, t, BcSend(e, i, w.shards[i].Keys)).(locks := w.locks[i := Lock(None, w.locks[i].readers + {t})])
            && OpenShard(v, i)
  {
  }

  lemma Unlocks(w: World, v: World, t: ThreadId, e: GlobalEvent, i: nat)
    requires Shaped(w) && Shaped(v) && t < |w.threads| == |v.threads| && i < NUM_SHARDS
    requires w.locks[i].writer.None? && t !in w.locks[i].readers
    requires v.locks == w.locks[i := Lock(None, w.locks[i].readers + {t})] && v.threads == w.threads[t := BcSend(e, i, {})]
    ensures StepThread(v, t, []) == v.(threads := w.threads[t := Done], locks := w.locks)
  {
    assert w.locks[i].readers + {t} - {t} == w.locks[i].readers;
    assert w.locks[i := Lock(None, w.locks[i].readers)] == w.locks;
  }

  predicate Free(w: World, i: nat)
    requires Shaped(w) && i < NUM_SHARDS
  {
    w.locks[i] == Lock(None, {})
  }

  /** A registration that finds its shard's lock free stores a fresh channel, in four steps. */
  lemma RegisterAlone(w: World, t: ThreadId, n: NodeId)
    requires Shaped(w) && t < |w.threads| && w.threads[t] == RegMake(n) && Free(w, ShardIndex(n))
    ensures var v := Steps(w, t, [[], [], [], []]);
            && v.threads == w.threads[t := Done] && v.locks == w.locks && v.fault == w.fault
            && v.shards == RegisterIn(w.shards, n, |w.chans|) && v.chans == w.chans + [EMPTY_CHAN]
  {
    var i := ShardIndex(n);
    var w1 := StepThread(w, t, []);
    assert w1.threads[t] == RegLock(n, |w.chans|);
    var w2 := StepThread(w1, t, []);
    assert w2.threads[t] == RegPut(n, |w.chans|) && w2.locks == w.locks[i := Lock(Some(t), {})];
    var w3 := StepThread(w2, t, []);
    assert w3.threads[t] == WriteUnlock(n) && w3.locks == w2.locks;
    var w4 := StepThread(w3, t, []);
    assert w4.locks == w.locks;
    FourSteps(w, t);
  }

  lemma FourSteps(w: World, t: ThreadId)
    requires Shaped(w) && t < |w.threads|
    ensures Steps(w, t, [[], [], [], []]) ==
            StepThread(StepThread(StepThread(StepThread(w, t, []), t, []), t, []), t, [])
  {
    var p: seq<NodeId> := [[], [], [], []];
    assert p[1..] == [[], [], []] && p[1..][1..] == [[], []] && p[1..][1..][1..] == [[]] && p[1..][1..][1..][1..] == [];
  }

  /** What unregistering does to shards and channels, if the node has a stream. */
  function Unregistered(w: World, n: NodeId): (seq<Shard>, seq<Chan>)
    requires Shaped(w)
  {
    var shard := w.shards[ShardIndex(n)];
    if n in shard then (UnregisterIn(w.shards, n), CloseChan(w.chans, shard[n])) else (w.shards, w.chans)
  }

  /** An unregistration that finds its shard's lock free closes and deletes the node's channel, if there is one. */
  lemma UnregisterAlone(w: World, t: ThreadId, n: NodeId)
    requires Shaped(w) && t < |w.threads| && w.threads[t] == UnLock(n) && Free(w, ShardIndex(n))
    requires n in w.shards[ShardIndex(n)] ==>
               w.shards[ShardIndex(n)][n] < |w.chans| && !w.chans[w.shards[ShardIndex(n)][n]].closed
    ensures var picks := if n in w.shards[ShardIndex(n)] then [[], [], [], [], []] else [[], [], []];
            var v := Steps(w, t, picks);
            && v.threads == w.threads[t := Done] && v.locks == w.locks && v.fault == w.fault
            && (v.shards, v.chans) == Unregistered(w, n)
  {
    var i := ShardIndex(n);
    var w1 := StepThread(w, t, []);
    assert w1.threads[t] == UnCheck(n) && w1.locks == w.locks[i := Lock(Some(t), {})];
    var w2 := StepThread(w1, t, []);
    if n in w.shards[i] {
      assert w2.threads[t] == UnClose(n);
      CloseThenDelete(w2, t, n);
      var p: seq<NodeId> := [[], [], [], [], []];
      assert p[1..] == [[], [], [], []] && p[1..][1..] == [[], [], []];
      assert w2.locks[i := Lock(None, {})] == w.locks;
    } else {
      assert w2.threads[t] == WriteUnlock(n);
      var p: seq<NodeId> := [[], [], []];
      assert p[1..] == [[], []] && p[1..][1..] == [[]] && p[1..][1..][1..] == [];
      assert w2.locks[i := Lock(None, {})] == w.locks;
    }
  }

  lemma CloseThenDelete(w: World, t: ThreadId, n: NodeId)
    requires Shaped(w) && t < |w.threads| && w.threads[t] == UnClose(n) && w.locks[ShardIndex(n)].readers == {}
    requires n in w.shards[ShardIndex(n)]
    requires w.shards[ShardIndex(n)][n] < |w.chans| && !w.chans[w.shards[ShardIndex(n)][n]].closed
    ensures var v := Steps(w, t, [[], [], []]);
            && v.threads == w.threads[t := Done] && v.locks == w.locks[ShardIndex(n) := Lock(None, {})] && v.fault == w.fault
            && v.shards == UnregisterIn(w.shards, n) && v.chans == CloseChan(w.chans, w.shards[ShardIndex(n)][n])
  {
    var w1 := StepThread(w, t, []);
    assert w1.threads[t] == UnDelete(n);
    var w2 := StepThread(w1, t, []);
    assert w2.threads[t] == WriteUnlock(n);
    var p: seq<NodeId> := [[], [], []];
    assert p[1..] == [[], []] && p[1..][1..] == [[]] && p[1..][1..][1..] == [];
  }
}
