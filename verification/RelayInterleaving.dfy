/**
 The session manager's operations broken into their atomic steps and run by any number of
 threads in any order. Each sync.Map operation, close, non-blocking send and counter update is
 one step; allocating a queue is local and happens with the preceding check. A panic stops the
 process, so no step follows one.
*/
module RelayInterleaving {
  import opened Common
  import opened Relay
  import RelayHistory

  type ThreadId = nat

  /** Where a thread stands; the fields are its local variables. */
  datatype Pc =
    | Done
    // RegisterSession
    | RegCheck(n: NodeId)
    | RegTake(n: NodeId, fresh': QueueId)
    | RegClose(n: NodeId, fresh': QueueId, previous: QueueId)
    | RegStore(n: NodeId, fresh': QueueId)
    | RegCount
    // AddToBlacklist, then UnregisterSession
    | BanStore(n: NodeId)
    | UnTake(n: NodeId)
    | UnClose(removed: QueueId)
    | UnCount
    // RemoveFromBlacklist
    | UnbanDelete(n: NodeId)
    // SubscribeToChannel, UnsubscribeFromChannel
    | SubCreate(n: NodeId, channel: string)
    | SubAdd(n: NodeId, channel: string)
    | UnsubLoad(n: NodeId, channel: string)
    | UnsubDelete(n: NodeId, channel: string)
    // ForwardEnvelope
    | FwCheck(env: Envelope)
    | FwLoad(env: Envelope)
    | FwSend(env: Envelope, handle: QueueId)
    | FwCount
    // broadcastEnvelope
    | BcLoad(env: Envelope)
    | BcNext(env: Envelope, seen: set<NodeId>, count: nat)
    | BcFind(env: Envelope, n: NodeId, seen: set<NodeId>, count: nat)
    | BcSend(env: Envelope, handle: QueueId, seen: set<NodeId>, count: nat)
    | BcCount(count: nat)

  predicate IsEntry(pc: Pc) {
    pc.RegCheck? || pc.BanStore? || pc.UnTake? || pc.UnbanDelete? || pc.SubCreate? || pc.UnsubLoad? || pc.FwCheck?
  }

  /** History: who is responsible for closing a queue. */
  datatype Owner = Thread(t: ThreadId) | Session(n: NodeId) | Lost | Closed

  /**
   The shared state, the threads, and history: the owner of every queue and the number of
   sessions overwritten by a store that another registration made in between.
  */
  datatype World = World(sh: State, threads: seq<Pc>, owner: seq<Owner>, lost: nat)

  const START := World(INITIAL, [], [], 0)

  /** What the environment decides during a step: which subscriber Range yields next, or that it ends. */
  datatype Choice = Auto | Visit(n: NodeId) | Finish

  datatype Action = Spawn(pc: Pc) | Step(t: ThreadId, choice: Choice) | Take(q: QueueId)

  function Move(w: World, t: ThreadId, sh: State, pc: Pc): World
    requires t < |w.threads|
  {
    w.(sh := sh, threads := w.threads[t := pc])
  }

  function SetOwner(w: World, q: QueueId, o: Owner): World {
    if q < |w.owner| then w.(owner := w.owner[q := o]) else w
  }

  function StepRegister(w: World, t: ThreadId): World
    requires t < |w.threads|
  {
    var sh := w.sh;
    match w.threads[t]
    case RegCheck(n) =>
      if n in sh.blacklist then Move(w, t, sh, Done)
      else Move(w, t, sh.(queues := sh.queues + [EMPTY_QUEUE]), RegTake(n, |sh.queues|))
           .(owner := w.owner + [Thread(t)])
    case RegTake(n, q) =>
      if n in sh.sessions then
        SetOwner(Move(w, t, sh.(sessions := sh.sessions - {n}, replaced := sh.replaced + 1),
                      RegClose(n, q, sh.sessions[n])),
                 sh.sessions[n], Thread(t))
      else Move(w, t, sh, RegStore(n, q))
    case RegClose(n, q, previous) =>
      SetOwner(Move(w, t, CloseQueue(sh, previous), RegStore(n, q)), previous, Closed)
    case RegStore(n, q) =>
      var v := SetOwner(Move(w, t, sh.(sessions := sh.sessions[n := q]), RegCount), q, Session(n));
      if n in sh.sessions then SetOwner(v, sh.sessions[n], Lost).(lost := w.lost + 1) else v
    case RegCount => Move(w, t, sh.(activeConnections := sh.activeConnections + 1), Done)
    case _ => w
  }

  function StepUnregister(w: World, t: ThreadId): World
    requires t < |w.threads|
  {
    var sh := w.sh;
    match w.threads[t]
    case BanStore(n) => Move(w, t, sh.(blacklist := sh.blacklist + {n}), UnTake(n))
    case UnTake(n) =>
      if n in sh.sessions then
        SetOwner(Move(w, t, sh.(sessions := sh.sessions - {n}), UnClose(sh.sessions[n])), sh.sessions[n], Thread(t))
      else Move(w, t, sh, Done)
    case UnClose(q) => SetOwner(Move(w, t, CloseQueue(sh, q), UnCount), q, Closed)
    case UnCount => Move(w, t, sh.(activeConnections := sh.activeConnections - 1), Done)
    case UnbanDelete(n) => Move(w, t, sh.(blacklist := sh.blacklist - {n}), Done)
    case _ => w
  }

  function StepSubscribe(w: World, t: ThreadId): World
    requires t < |w.threads|
  {
    var sh := w.sh;
    match w.threads[t]
    case SubCreate(n, channel) =>
      Move(w, t, if channel in sh.channels then sh else sh.(channels := sh.channels[channel := {}]), SubAdd(n, channel))
    case SubAdd(n, channel) => Move(w, t, DoSubscribe(sh, n, channel), Done)
    case UnsubLoad(n, channel) => Move(w, t, sh, if channel in sh.channels then UnsubDelete(n, channel) else Done)
    case UnsubDelete(n, channel) => Move(w, t, DoUnsubscribe(sh, n, channel), Done)
    case _ => w
  }

  predicate Accepts(sh: State, q: QueueId) {
    !IsClosed(sh, q) && HasRoom(sh, q)
  }

  function StepForward(w: World, t: ThreadId): World
    requires t < |w.threads|
  {
    var sh := w.sh;
    match w.threads[t]
    case FwCheck(env) =>
      Move(w, t, sh, if env.sender in sh.blacklist then Done
                     else if IsChannel(env.target) then BcLoad(env) else FwLoad(env))
    case FwLoad(env) =>
      Move(w, t, sh, if env.target in sh.sessions then FwSend(env, sh.sessions[env.target]) else Done)
    case FwSend(env, q) => Move(w, t, SendQueue(sh, q, env), if Accepts(sh, q) then FwCount else Done)
    case FwCount => Move(w, t, sh.(messagesRelayed := sh.messagesRelayed + 1), Done)
    case _ => w
  }

  function StepBroadcast(w: World, t: ThreadId, choice: Choice): World
    requires t < |w.threads|
  {
    var sh := w.sh;
    match w.threads[t]
    case BcLoad(env) => Move(w, t, sh, if env.target in sh.channels then BcNext(env, {}, 0) else Done)
    case BcNext(env, seen, count) =>
      (match choice
       case Auto => w
       case Finish => Move(w, t, sh, BcCount(count))
       case Visit(n) =>
         if env.target !in sh.channels || n !in sh.channels[env.target] || n in seen then w
         else if n == env.sender then Move(w, t, sh, BcNext(env, seen + {n}, count))
         else Move(w, t, sh, BcFind(env, n, seen + {n}, count)))
    case BcFind(env, n, seen, count) =>
      Move(w, t, sh, if n in sh.sessions then BcSend(env, sh.sessions[n], seen, count) else BcNext(env, seen, count))
    case BcSend(env, q, seen, count) =>
      Move(w, t, SendQueue(sh, q, env), BcNext(env, seen, if Accepts(sh, q) then count + 1 else count))
    case BcCount(count) => Move(w, t, sh.(messagesRelayed := sh.messagesRelayed + count), Done)
    case _ => w
  }

  function StepThread(w: World, t: ThreadId, choice: Choice): World
    requires t < |w.threads|
  {
    var pc := w.threads[t];
    if pc.RegCheck? || pc.RegTake? || pc.RegClose? || pc.RegStore? || pc.RegCount? then StepRegister(w, t)
    else if pc.BanStore? || pc.UnTake? || pc.UnClose? || pc.UnCount? || pc.UnbanDelete? then StepUnregister(w, t)
    else if pc.SubCreate? || pc.SubAdd? || pc.UnsubLoad? || pc.UnsubDelete? then StepSubscribe(w, t)
    else if pc.FwCheck? || pc.FwLoad? || pc.FwSend? || pc.FwCount? then StepForward(w, t)
    else StepBroadcast(w, t, choice)
  }

  predicate Crashed(w: World) {
    w.sh.doubleClose || w.sh.sendOnClosed
  }

  function Act(w: World, a: Action): World {
    if Crashed(w) then w
    else
      match a
      case Spawn(pc) => if IsEntry(pc) then w.(threads := w.threads + [pc]) else w
      case Step(t, choice) => if t < |w.threads| then StepThread(w, t, choice) else w
      case Take(q) => w.(sh := ReceiveQueue(w.sh, q))
  }

  function Exec(acts: seq<Action>): World {
    if acts == [] then START else Act(Exec(acts[..|acts| - 1]), acts[|acts| - 1])
  }

  // ---------------------------------------------------------------------------------------
  // Every queue has one owner
  // ---------------------------------------------------------------------------------------

  /** The queues a thread alone may publish or close. */
  predicate Owns(pc: Pc, q: QueueId) {
    || (pc.RegTake? && pc.fresh' == q)
    || (pc.RegClose? && (pc.fresh' == q || pc.previous == q))
    || (pc.RegStore? && pc.fresh' == q)
    || (pc.UnClose? && pc.removed == q)
  }

  ghost predicate ThreadInv(w: World, t: ThreadId)
    requires t < |w.threads|
  {
    var pc := w.threads[t];
    && (forall q: QueueId :: Owns(pc, q) ==> q < |w.owner| && w.owner[q] == Thread(t))
    && (pc.RegClose? ==> pc.fresh' != pc.previous)
  }

  ghost predicate OwnerInv(w: World, q: QueueId)
    requires q < |w.owner| == |w.sh.queues|
  {
    var o := w.owner[q];
    && w.sh.queues[q].closes == (if o == Closed then 1 else 0)
    && (o.Session? ==> o.n in w.sh.sessions && w.sh.sessions[o.n] == q)
    && (o.Thread? ==> o.t < |w.threads| && Owns(w.threads[o.t], q))
  }

  ghost predicate SessionOwned(w: World, n: NodeId)
    requires n in w.sh.sessions
  {
    w.sh.sessions[n] < |w.owner| && w.owner[w.sh.sessions[n]] == Session(n)
  }

  ghost predicate OwnInv(w: World) {
    && |w.owner| == |w.sh.queues|
    && !w.sh.doubleClose
    && (forall n :: n in w.sh.sessions ==> SessionOwned(w, n))
    && (forall t :: 0 <= t < |w.threads| ==> ThreadInv(w, t))
    && (forall q :: 0 <= q < |w.owner| ==> OwnerInv(w, q))
  }

  /** A step that leaves sessions, closings and the stepping thread's claims alone keeps ownership. */
  lemma OwnFrame(w: World, t: ThreadId, sh: State, pc: Pc)
    requires OwnInv(w) && t < |w.threads|
    requires sh.sessions == w.sh.sessions && sh.doubleClose == w.sh.doubleClose && |sh.queues| == |w.sh.queues|
    requires forall q :: 0 <= q < |sh.queues| ==> sh.queues[q].closes == w.sh.queues[q].closes
    requires forall q: QueueId :: Owns(w.threads[t], q) <==> Owns(pc, q)
    requires pc.RegClose? ==> w.threads[t].RegClose? && pc == w.threads[t]
    ensures OwnInv(Move(w, t, sh, pc))
  {
    var v := Move(w, t, sh, pc);
    forall n | n in v.sh.sessions ensures SessionOwned(v, n) { assert SessionOwned(w, n); }
    forall u | 0 <= u < |v.threads| ensures ThreadInv(v, u) { assert ThreadInv(w, u); }
    forall q | 0 <= q < |v.owner| ensures OwnerInv(v, q) { assert OwnerInv(w, q); }
  }

  /** Allocating a queue gives it to the allocating thread. */
  lemma OwnAllocate(w: World, t: ThreadId, n: NodeId)
    requires OwnInv(w) && t < |w.threads| && w.threads[t] == RegCheck(n) && n !in w.sh.blacklist
    ensures OwnInv(StepRegister(w, t))
  {
    var v := StepRegister(w, t);
    forall n | n in v.sh.sessions ensures SessionOwned(v, n) { assert SessionOwned(w, n); }
    forall u | 0 <= u < |v.threads| ensures ThreadInv(v, u) { assert ThreadInv(w, u); }
    forall q | 0 <= q < |v.owner| ensures OwnerInv(v, q) {
      if q < |w.owner| { assert OwnerInv(w, q); }
    }
  }

  /** LoadAndDelete hands the session's queue to the thread that removed it. */
  lemma OwnRemove(w: World, t: ThreadId, n: NodeId, sh: State, pc: Pc)
    requires OwnInv(w) && t < |w.threads| && n in w.sh.sessions
    requires sh.sessions == w.sh.sessions - {n} && sh.queues == w.sh.queues && !sh.doubleClose
    requires forall q: QueueId :: Owns(pc, q) <==> Owns(w.threads[t], q) || q == w.sh.sessions[n]
    requires pc.RegClose? ==> Owns(w.threads[t], pc.fresh') && pc.previous == w.sh.sessions[n]
    ensures OwnInv(SetOwner(Move(w, t, sh, pc), w.sh.sessions[n], Thread(t)))
  {
    var v := SetOwner(Move(w, t, sh, pc), w.sh.sessions[n], Thread(t));
    assert SessionOwned(w, n) && ThreadInv(w, t);
    forall m | m in v.sh.sessions ensures SessionOwned(v, m) { assert SessionOwned(w, m); }
    forall u | 0 <= u < |v.threads| ensures ThreadInv(v, u) { assert ThreadInv(w, u); }
    forall q | 0 <= q < |v.owner| ensures OwnerInv(v, q) { assert OwnerInv(w, q); }
  }

  /** Closing a queue one owns closes it for the first time and gives up the claim. */
  lemma OwnClose(w: World, t: ThreadId, q: QueueId, pc: Pc)
    requires OwnInv(w) && t < |w.threads| && Owns(w.threads[t], q) && !pc.RegClose?
    requires forall p: QueueId :: Owns(pc, p) <==> Owns(w.threads[t], p) && p != q
    ensures OwnInv(SetOwner(Move(w, t, CloseQueue(w.sh, q), pc), q, Closed))
    ensures q < |w.sh.queues| && w.sh.queues[q].closes == 0
  {
    var v := SetOwner(Move(w, t, CloseQueue(w.sh, q), pc), q, Closed);
    assert ThreadInv(w, t) && OwnerInv(w, q);
    forall m | m in v.sh.sessions ensures SessionOwned(v, m) { assert SessionOwned(w, m); }
    forall u | 0 <= u < |v.threads| ensures ThreadInv(v, u) { assert ThreadInv(w, u); }
    forall p | 0 <= p < |v.owner| ensures OwnerInv(v, p) { assert OwnerInv(w, p); }
  }

  /** Store publishes the queue; a session stored in between is lost, open and unreachable. */
  lemma OwnStore(w: World, t: ThreadId)
    requires OwnInv(w) && t < |w.threads| && w.threads[t].RegStore?
    ensures OwnInv(StepRegister(w, t))
  {
    var v := StepRegister(w, t);
    var n, q := w.threads[t].n, w.threads[t].fresh';
    assert ThreadInv(w, t) && Owns(w.threads[t], q);
    if n in w.sh.sessions { assert SessionOwned(w, n); }
    forall m | m in v.sh.sessions ensures SessionOwned(v, m) {
      if m != n { assert SessionOwned(w, m); }
    }
    forall u | 0 <= u < |v.threads| ensures ThreadInv(v, u) { assert ThreadInv(w, u); }
    forall p | 0 <= p < |v.owner| ensures OwnerInv(v, p) { assert OwnerInv(w, p); }
  }

  lemma OwnRegister(w: World, t: ThreadId)
    requires OwnInv(w) && t < |w.threads|
    ensures OwnInv(StepRegister(w, t))
  {
    assert ThreadInv(w, t);
    match w.threads[t]
    case RegCheck(n) =>
      if n in w.sh.blacklist { OwnFrame(w, t, w.sh, Done); } else { OwnAllocate(w, t, n); }
    case RegTake(n, q) =>
      if n in w.sh.sessions {
        OwnRemove(w, t, n, w.sh.(sessions := w.sh.sessions - {n}, replaced := w.sh.replaced + 1),
                  RegClose(n, q, w.sh.sessions[n]));
      } else {
        OwnFrame(w, t, w.sh, RegStore(n, q));
      }
    case RegClose(n, q, previous) => OwnClose(w, t, previous, RegStore(n, q));
    case RegStore(n, q) => OwnStore(w, t);
    case RegCount => OwnFrame(w, t, w.sh.(activeConnections := w.sh.activeConnections + 1), Done);
    case _ =>
  }

  lemma OwnUnregister(w: World, t: ThreadId)
    requires OwnInv(w) && t < |w.threads|
    ensures OwnInv(StepUnregister(w, t))
  {
    match w.threads[t]
    case BanStore(n) => OwnFrame(w, t, w.sh.(blacklist := w.sh.blacklist + {n}), UnTake(n));
    case UnTake(n) =>
      if n in w.sh.sessions {
        OwnRemove(w, t, n, w.sh.(sessions := w.sh.sessions - {n}), UnClose(w.sh.sessions[n]));
      } else {
        OwnFrame(w, t, w.sh, Done);
      }
    case UnClose(q) => OwnClose(w, t, q, UnCount);
    case UnCount => OwnFrame(w, t, w.sh.(activeConnections := w.sh.activeConnections - 1), Done);
    case UnbanDelete(n) => OwnFrame(w, t, w.sh.(blacklist := w.sh.blacklist - {n}), Done);
    case _ =>
  }

  lemma OwnSubscribe(w: World, t: ThreadId)
    requires OwnInv(w) && t < |w.threads|
    ensures OwnInv(StepSubscribe(w, t))
  {
    var v := StepSubscribe(w, t);
    if v != w { OwnFrame(w, t, v.sh, v.threads[t]); }
  }

  lemma OwnForward(w: World, t: ThreadId)
    requires OwnInv(w) && t < |w.threads|
    ensures OwnInv(StepForward(w, t))
  {
    var v := StepForward(w, t);
    if v != w { OwnFrame(w, t, v.sh, v.threads[t]); }
  }

  lemma OwnBroadcast(w: World, t: ThreadId, choice: Choice)
    requires OwnInv(w) && t < |w.threads|
    ensures OwnInv(StepBroadcast(w, t, choice))
  {
    var v := StepBroadcast(w, t, choice);
    if v != w { OwnFrame(w, t, v.sh, v.threads[t]); }
  }

  lemma OwnAct(w: World, a: Action)
    requires OwnInv(w)
    ensures OwnInv(Act(w, a))
  {
    match a
    case Spawn(pc) =>
      var v := Act(w, a);
      forall n | n in v.sh.sessions ensures SessionOwned(v, n) { assert SessionOwned(w, n); }
      forall u | 0 <= u < |v.threads| ensures ThreadInv(v, u) {
        if u < |w.threads| { assert ThreadInv(w, u); }
      }
      forall q | 0 <= q < |v.owner| ensures OwnerInv(v, q) { assert OwnerInv(w, q); }
    case Step(t, choice) =>
      if t < |w.threads| {
        OwnRegister(w, t);
        OwnUnregister(w, t);
        OwnSubscribe(w, t);
        OwnForward(w, t);
        OwnBroadcast(w, t, choice);
      }
    case Take(q) =>
      var v := Act(w, a);
      forall n | n in v.sh.sessions ensures SessionOwned(v, n) { assert SessionOwned(w, n); }
      forall u | 0 <= u < |v.threads| ensures ThreadInv(v, u) { assert ThreadInv(w, u); }
      forall q | 0 <= q < |v.owner| ensures OwnerInv(v, q) { assert OwnerInv(w, q); }
  }

  lemma {:induction false} OwnExec(acts: seq<Action>)
    ensures OwnInv(Exec(acts))
  {
    if acts != [] {
      OwnExec(acts[..|acts| - 1]);
      OwnAct(Exec(acts[..|acts| - 1]), acts[|acts| - 1]);
    }
  }

  /** The moment of closing: the queue is open, out of the map, and claimed by this thread only. */
  ghost predicate ClosesOwnRemoval(w: World, a: Action, q: QueueId) {
    && q < |w.sh.queues| && w.sh.queues[q].closes == 0
    && a.Step? && a.t < |w.threads|
    && (w.threads[a.t] == UnClose(q) || (w.threads[a.t].RegClose? && w.threads[a.t].previous == q))
    && (forall u :: 0 <= u < |w.threads| && u != a.t ==> !Owns(w.threads[u], q))
    && (forall n :: n in w.sh.sessions ==> w.sh.sessions[n] != q)
  }

  lemma ClosingStep(w: World, a: Action, q: QueueId)
    requires q < |w.sh.queues|
    ensures q < |Act(w, a).sh.queues|
    ensures Act(w, a).sh.queues[q].closes != w.sh.queues[q].closes ==>
              && a.Step? && a.t < |w.threads|
              && (w.threads[a.t] == UnClose(q) || (w.threads[a.t].RegClose? && w.threads[a.t].previous == q))
  {
    if a.Step? && a.t < |w.threads| && !Crashed(w) {
      var u, v := StepForward(w, a.t), StepBroadcast(w, a.t, a.choice);
      assert |u.sh.queues| == |w.sh.queues| == |v.sh.queues|;
      assert u.sh.queues[q].closes == w.sh.queues[q].closes == v.sh.queues[q].closes;
    }
  }

  /**
   In every interleaving each queue is closed at most once. A queue is closed only by a thread
   that removed it from the session map, at a time when it is open, not registered, and no other
   thread has a claim on it.
  */
  lemma ClosedAtMostOnce(acts: seq<Action>, a: Action, q: QueueId)
    requires q < |Exec(acts).sh.queues|
    ensures !Exec(acts).sh.doubleClose
    ensures Exec(acts).sh.queues[q].closes <= 1
    ensures q < |Act(Exec(acts), a).sh.queues|
    ensures Act(Exec(acts), a).sh.queues[q].closes != Exec(acts).sh.queues[q].closes ==>
              ClosesOwnRemoval(Exec(acts), a, q)
  {
    var w := Exec(acts);
    OwnExec(acts);
    ClosingStep(w, a, q);
    assert OwnerInv(w, q);
    if Act(w, a).sh.queues[q].closes != w.sh.queues[q].closes {
      assert ThreadInv(w, a.t) && Owns(w.threads[a.t], q);
      forall u | 0 <= u < |w.threads| && u != a.t ensures !Owns(w.threads[u], q) { assert ThreadInv(w, u); }
      forall n | n in w.sh.sessions ensures w.sh.sessions[n] != q { assert SessionOwned(w, n); }
    }
  }

  predicate Registered(w: World, q: QueueId) {
    exists n :: n in w.sh.sessions && w.sh.sessions[n] == q
  }

  predicate Claimed(w: World, q: QueueId) {
    exists t :: 0 <= t < |w.threads| && Owns(w.threads[t], q)
  }

  /** Overwritten in the map by a concurrent registration: never closed by anyone. */
  predicate IsLost(w: World, q: QueueId) {
    q < |w.owner| && w.owner[q] == Lost
  }

  function Count(b: bool): nat {
    if b then 1 else 0
  }

  /** In every interleaving a queue is in exactly one place: registered, claimed by a thread, closed or lost. */
  lemma QueueFate(acts: seq<Action>, q: QueueId)
    requires q < |Exec(acts).sh.queues|
    ensures var w := Exec(acts);
            Count(Registered(w, q)) + Count(Claimed(w, q)) + Count(IsClosed(w.sh, q)) + Count(IsLost(w, q)) == 1
  {
    var w := Exec(acts);
    OwnExec(acts);
    assert OwnerInv(w, q);
    if Registered(w, q) {
      var n :| n in w.sh.sessions && w.sh.sessions[n] == q;
      assert SessionOwned(w, n);
    }
    if Claimed(w, q) {
      var t :| 0 <= t < |w.threads| && Owns(w.threads[t], q);
      assert ThreadInv(w, t);
    }
  }

  predicate SendsTo(pc: Pc, q: QueueId) {
    (pc.FwSend? || pc.BcSend?) && pc.handle == q
  }

  /**
   Lookup and send are separate steps, so a send can hit a closed queue. It panics exactly when
   the queue it looked up is by now neither registered, nor awaiting its close, nor lost.
  */
  lemma SendPanicsExactlyWhenHandleIsStale(acts: seq<Action>, t: ThreadId, q: QueueId)
    requires !Crashed(Exec(acts)) && t < |Exec(acts).threads| && SendsTo(Exec(acts).threads[t], q)
    ensures Act(Exec(acts), Step(t, Auto)).sh.sendOnClosed <==>
            !Registered(Exec(acts), q) && !Claimed(Exec(acts), q) && !IsLost(Exec(acts), q)
  {
    HandlesExec(acts);
    QueueFate(acts, q);
  }

  /** Queues that threads looked up exist. */
  ghost predicate HandlesInv(w: World) {
    forall t, q: QueueId :: 0 <= t < |w.threads| && SendsTo(w.threads[t], q) ==> q < |w.sh.queues|
  }

  lemma HandleStep(w: World, t: ThreadId, choice: Choice, q: QueueId)
    requires t < |w.threads| && SendsTo(StepThread(w, t, choice).threads[t], q)
    ensures q in w.sh.sessions.Values || SendsTo(w.threads[t], q)
  {
    var pc := w.threads[t];
    if pc.FwLoad? {
      assert w.sh.sessions[pc.env.target] == q;
    } else if pc.BcFind? {
      assert w.sh.sessions[pc.n] == q;
    }
  }

  lemma {:induction false} HandlesExec(acts: seq<Action>)
    ensures HandlesInv(Exec(acts))
  {
    if acts != [] {
      var w, a := Exec(acts[..|acts| - 1]), acts[|acts| - 1];
      HandlesExec(acts[..|acts| - 1]);
      OwnExec(acts[..|acts| - 1]);
      forall t, q: QueueId | 0 <= t < |Act(w, a).threads| && SendsTo(Act(w, a).threads[t], q)
        ensures q < |Act(w, a).sh.queues|
      {
        if a.Step? && a.t < |w.threads| && !Crashed(w) {
          OneThreadMoves(w, a.t, a.choice);
          if t == a.t { HandleStep(w, t, a.choice, q); }
          if n :| n in w.sh.sessions && w.sh.sessions[n] == q { assert SessionOwned(w, n); }
          ClosingStep(w, a, q);
        }
      }
    }
  }

  // ---------------------------------------------------------------------------------------
  // What is enqueued, and when its sender was checked
  // ---------------------------------------------------------------------------------------

  /** At most 100 envelopes wait, and what was taken followed by what waits is what was enqueued. */
  ghost predicate QueueGood(queues: seq<Queue>, q: QueueId) {
    q < |queues| ==> |queues[q].buf| <= QUEUE_CAPACITY && Fifo(queues[q])
  }

  /** What a thread's step does to the queues. */
  function QueuesAfter(sh: State, pc: Pc): seq<Queue> {
    if pc.RegCheck? && pc.n !in sh.blacklist then sh.queues + [EMPTY_QUEUE]
    else if pc.RegClose? then CloseQueue(sh, pc.previous).queues
    else if pc.UnClose? then CloseQueue(sh, pc.removed).queues
    else if pc.FwSend? || pc.BcSend? then SendQueue(sh, pc.handle, pc.env).queues
    else sh.queues
  }

  lemma RegisterQueues(w: World, t: ThreadId)
    requires t < |w.threads|
    ensures StepRegister(w, t).sh.queues == QueuesAfter(w.sh, w.threads[t]) || StepRegister(w, t) == w
    ensures StepUnregister(w, t).sh.queues == QueuesAfter(w.sh, w.threads[t]) || StepUnregister(w, t) == w
  {
  }

  lemma SendQueues(w: World, t: ThreadId, choice: Choice)
    requires t < |w.threads|
    ensures StepForward(w, t).sh.queues == QueuesAfter(w.sh, w.threads[t]) || StepForward(w, t) == w
    ensures StepBroadcast(w, t, choice).sh.queues == QueuesAfter(w.sh, w.threads[t]) || StepBroadcast(w, t, choice) == w
    ensures StepSubscribe(w, t).sh.queues == w.sh.queues
  {
  }

  lemma StepQueues(w: World, t: ThreadId, choice: Choice)
    requires t < |w.threads|
    ensures StepThread(w, t, choice).sh.queues == QueuesAfter(w.sh, w.threads[t])
  {
    RegisterQueues(w, t);
    SendQueues(w, t, choice);
  }

  lemma QueueStaysGood(sh: State, pc: Pc, q: QueueId)
    requires QueueGood(sh.queues, q)
    ensures QueueGood(QueuesAfter(sh, pc), q)
  {
  }

  lemma TakeStaysGood(sh: State, taken: QueueId, q: QueueId)
    requires QueueGood(sh.queues, q)
    ensures QueueGood(ReceiveQueue(sh, taken).queues, q)
  {
  }

  lemma QueueGoodAct(w: World, a: Action, q: QueueId)
    requires QueueGood(w.sh.queues, q)
    ensures QueueGood(Act(w, a).sh.queues, q)
  {
    if a.Step? && a.t < |w.threads| {
      StepQueues(w, a.t, a.choice);
      QueueStaysGood(w.sh, w.threads[a.t], q);
    } else if a.Take? {
      TakeStaysGood(w.sh, a.q, q);
    }
  }

  /** In every interleaving a queue holds at most 100 envelopes, and what was taken followed by what waits is what was enqueued. */
  lemma {:induction false} QueuesStayInOrder(acts: seq<Action>, q: QueueId)
    ensures QueueGood(Exec(acts).sh.queues, q)
  {
    if acts != [] {
      var w, a := Exec(acts[..|acts| - 1]), acts[|acts| - 1];
      QueuesStayInOrder(acts[..|acts| - 1], q);
      QueueGoodAct(w, a, q);
    }
  }

  /** The thread is past the blacklist check of `env`, which it has not finished sending. */
  predicate Carries(pc: Pc, env: Envelope) {
    (pc.FwLoad? || pc.FwSend? || pc.BcLoad? || pc.BcNext? || pc.BcFind? || pc.BcSend?) && pc.env == env
  }

  /** Step `i` is thread `t`'s blacklist check of `env`, which its sender passes. */
  ghost predicate ChecksAt(acts: seq<Action>, i: nat, t: ThreadId, env: Envelope)
    requires i < |acts|
  {
    var w := Exec(acts[..i]);
    && acts[i].Step? && acts[i].t == t && t < |w.threads| && w.threads[t] == FwCheck(env)
    && env.sender !in w.sh.blacklist
  }

  ghost predicate Checked(acts: seq<Action>, t: ThreadId, env: Envelope) {
    exists i :: 0 <= i < |acts| && ChecksAt(acts, i, t, env)
  }

  lemma CheckedLater(acts: seq<Action>, a: Action, t: ThreadId, env: Envelope)
    requires Checked(acts, t, env)
    ensures Checked(acts + [a], t, env)
  {
    var i :| 0 <= i < |acts| && ChecksAt(acts, i, t, env);
    assert (acts + [a])[..i] == acts[..i] && ChecksAt(acts + [a], i, t, env);
  }

  lemma CarriesAfterCheck(w: World, t: ThreadId, choice: Choice, env: Envelope)
    requires t < |w.threads| && Carries(StepThread(w, t, choice).threads[t], env)
    ensures Carries(w.threads[t], env) || (w.threads[t] == FwCheck(env) && env.sender !in w.sh.blacklist)
  {
  }

  lemma ChecksNow(w: World, a: Action, t: ThreadId, env: Envelope)
    requires t < |Act(w, a).threads| && Carries(Act(w, a).threads[t], env)
    requires t < |w.threads| ==> !Carries(w.threads[t], env)
    ensures a.Step? && a.t == t && t < |w.threads| && w.threads[t] == FwCheck(env) && env.sender !in w.sh.blacklist
  {
    if a.Step? && a.t < |w.threads| && !Crashed(w) {
      OneThreadMoves(w, a.t, a.choice);
      if a.t == t { CarriesAfterCheck(w, t, a.choice, env); }
    }
  }

  lemma {:induction false} CheckedExec(acts: seq<Action>, t: ThreadId, env: Envelope)
    requires t < |Exec(acts).threads| && Carries(Exec(acts).threads[t], env)
    ensures Checked(acts, t, env)
  {
    if acts != [] {
      var before, a := acts[..|acts| - 1], acts[|acts| - 1];
      var w := Exec(before);
      assert acts == before + [a];
      if t < |w.threads| && Carries(w.threads[t], env) {
        CheckedExec(before, t, env);
        CheckedLater(before, a, t, env);
      } else {
        ChecksNow(w, a, t, env);
        assert ChecksAt(acts, |before|, t, env);
      }
    }
  }

  /** The step is a send to queue `q` that the queue accepts. */
  predicate Enqueues(w: World, a: Action, q: QueueId) {
    !Crashed(w) && a.Step? && a.t < |w.threads| && SendsTo(w.threads[a.t], q) && Accepts(w.sh, q)
  }

  lemma SentAfter(sh: State, pc: Pc, q: QueueId)
    requires q < |sh.queues|
    ensures q < |QueuesAfter(sh, pc)|
    ensures QueuesAfter(sh, pc)[q].sent ==
            sh.queues[q].sent + if SendsTo(pc, q) && Accepts(sh, q) then [pc.env] else []
  {
  }

  lemma SentByAct(w: World, a: Action, q: QueueId)
    requires q < |w.sh.queues|
    ensures q < |Act(w, a).sh.queues|
    ensures Act(w, a).sh.queues[q].sent == w.sh.queues[q].sent + if Enqueues(w, a, q) then [w.threads[a.t].env] else []
  {
    if a.Step? && a.t < |w.threads| && !Crashed(w) {
      StepQueues(w, a.t, a.choice);
      SentAfter(w.sh, w.threads[a.t], q);
    }
  }

  /**
   In every interleaving a queue's history grows exactly when a thread sends to it and it accepts, by
   the thread's envelope, and that envelope's sender was not blacklisted when this thread checked it.
  */
  lemma EnqueuedAfterCheck(acts: seq<Action>, a: Action, q: QueueId)
    requires q < |Exec(acts).sh.queues|
    ensures q < |Act(Exec(acts), a).sh.queues|
    ensures Act(Exec(acts), a).sh.queues[q].sent ==
            Exec(acts).sh.queues[q].sent + if Enqueues(Exec(acts), a, q) then [Exec(acts).threads[a.t].env] else []
    ensures Enqueues(Exec(acts), a, q) ==> Checked(acts, a.t, Exec(acts).threads[a.t].env)
  {
    SentByAct(Exec(acts), a, q);
    if Enqueues(Exec(acts), a, q) { CheckedExec(acts, a.t, Exec(acts).threads[a.t].env); }
  }

  /** The step puts `n` on the blacklist. */
  predicate Bans(w: World, a: Action, n: NodeId) {
    !Crashed(w) && a.Step? && a.t < |w.threads| && w.threads[a.t] == BanStore(n)
  }

  /** The step takes `n` off the blacklist. */
  predicate Unbans(w: World, a: Action, n: NodeId) {
    !Crashed(w) && a.Step? && a.t < |w.threads| && w.threads[a.t] == UnbanDelete(n)
  }

  lemma OthersLeaveBlacklist(w: World, t: ThreadId, choice: Choice)
    requires t < |w.threads|
    ensures StepRegister(w, t).sh.blacklist == StepSubscribe(w, t).sh.blacklist == w.sh.blacklist
    ensures StepForward(w, t).sh.blacklist == StepBroadcast(w, t, choice).sh.blacklist == w.sh.blacklist
  {
  }

  lemma BlacklistByStep(w: World, t: ThreadId, n: NodeId)
    requires t < |w.threads|
    ensures n in StepUnregister(w, t).sh.blacklist <==>
            w.threads[t] == BanStore(n) || (n in w.sh.blacklist && w.threads[t] != UnbanDelete(n))
  {
  }

  lemma BlacklistByAct(w: World, a: Action, n: NodeId)
    ensures n in Act(w, a).sh.blacklist <==> Bans(w, a, n) || (n in w.sh.blacklist && !Unbans(w, a, n))
  {
    if a.Step? && a.t < |w.threads| && !Crashed(w) {
      OthersLeaveBlacklist(w, a.t, a.choice);
      BlacklistByStep(w, a.t, n);
    }
  }

  /** Step `i` of the run bans `n`. */
  ghost predicate BansAt(acts: seq<Action>, i: nat, n: NodeId)
    requires i < |acts|
  {
    Bans(Exec(acts[..i]), acts[i], n)
  }

  /** Step `i` of the run lifts the ban of `n`. */
  ghost predicate UnbansAt(acts: seq<Action>, i: nat, n: NodeId)
    requires i < |acts|
  {
    Unbans(Exec(acts[..i]), acts[i], n)
  }

  ghost predicate IsBanStep(acts: seq<Action>, k: int, n: NodeId) {
    0 <= k < |acts| && BansAt(acts, k, n)
  }

  ghost predicate IsUnbanStep(acts: seq<Action>, k: int, n: NodeId) {
    0 <= k < |acts| && UnbansAt(acts, k, n)
  }

  ghost predicate ListedBefore(acts: seq<Action>, k: int, n: NodeId) {
    0 <= k <= |acts| && n in Exec(acts[..k]).sh.blacklist
  }

  /** From step `i` on some step bans `n`, and no later one lifts the ban. */
  ghost predicate BannedSince(acts: seq<Action>, i: nat, n: NodeId) {
    LastSet(k => IsBanStep(acts, k, n), k => IsUnbanStep(acts, k, n), i, |acts|)
  }

  lemma ListedByStep(acts: seq<Action>, k: nat, n: NodeId)
    requires k < |acts|
    ensures ListedBefore(acts, k + 1, n) <==> IsBanStep(acts, k, n) || (ListedBefore(acts, k, n) && !IsUnbanStep(acts, k, n))
  {
    assert acts[..k + 1][..k] == acts[..k];
    BlacklistByAct(Exec(acts[..k]), acts[k], n);
  }

  lemma ListedExactly(acts: seq<Action>, i: nat, n: NodeId)
    requires i <= |acts| && !ListedBefore(acts, i, n)
    ensures ListedBefore(acts, |acts|, n) <==> BannedSince(acts, i, n)
  {
    forall k: int | i <= k < |acts|
      ensures ListedBefore(acts, k + 1, n) <==> IsBanStep(acts, k, n) || (ListedBefore(acts, k, n) && !IsUnbanStep(acts, k, n))
    {
      ListedByStep(acts, k, n);
    }
    SetAndNotCleared(k => ListedBefore(acts, k, n), k => IsBanStep(acts, k, n), k => IsUnbanStep(acts, k, n), i, |acts|);
  }

  /** A node that was not blacklisted before step `i` is blacklisted at the end if and only if it was banned since. */
  lemma BlacklistedExactly(acts: seq<Action>, i: nat, n: NodeId)
    requires i <= |acts| && n !in Exec(acts[..i]).sh.blacklist
    ensures n in Exec(acts).sh.blacklist <==> BannedSince(acts, i, n)
  {
    assert acts[..|acts|] == acts;
    ListedExactly(acts, i, n);
  }

  /**
   Check and send are separate steps, so an envelope can be enqueued while its sender is blacklisted.
   Exactly: when a thread that passed its check in step `i` enqueues, the sender is blacklisted if and
   only if some step since bans it and no later step lifts that ban.
  */
  lemma BlacklistedEnqueueExactly(acts: seq<Action>, a: Action, q: QueueId, i: nat)
    requires Enqueues(Exec(acts), a, q)
    requires i < |acts| && ChecksAt(acts, i, a.t, Exec(acts).threads[a.t].env)
    ensures var sender := Exec(acts).threads[a.t].env.sender;
            sender in Exec(acts).sh.blacklist <==> BannedSince(acts, i, sender)
  {
    BlacklistedExactly(acts, i, Exec(acts).threads[a.t].env.sender);
  }

  /** In particular such an enqueue follows a ban that came after this thread's check. */
  lemma BlacklistedEnqueueFollowsBan(acts: seq<Action>, a: Action, q: QueueId) returns (i: nat, j: nat)
    requires Enqueues(Exec(acts), a, q) && Exec(acts).threads[a.t].env.sender in Exec(acts).sh.blacklist
    ensures i < j < |acts|
    ensures ChecksAt(acts, i, a.t, Exec(acts).threads[a.t].env) && BansAt(acts, j, Exec(acts).threads[a.t].env.sender)
  {
    var env := Exec(acts).threads[a.t].env;
    CheckedExec(acts, a.t, env);
    i :| 0 <= i < |acts| && ChecksAt(acts, i, a.t, env);
    BlacklistedEnqueueExactly(acts, a, q, i);
    j :| i <= j < |acts| && IsBanStep(acts, j, env.sender);
    assert j != i;
  }

  // ---------------------------------------------------------------------------------------
  // Subscriptions in every interleaving
  // ---------------------------------------------------------------------------------------

  /** The step enters `n` into the set of channel `c`. */
  predicate Adds(w: World, a: Action, n: NodeId, c: string) {
    !Crashed(w) && a.Step? && a.t < |w.threads| && w.threads[a.t] == SubAdd(n, c)
  }

  /** The step deletes `n` from the set of channel `c`. */
  predicate Deletes(w: World, a: Action, n: NodeId, c: string) {
    !Crashed(w) && a.Step? && a.t < |w.threads| && w.threads[a.t] == UnsubDelete(n, c)
  }

  lemma SubscribedByStep(w: World, t: ThreadId, n: NodeId, c: string)
    requires t < |w.threads|
    ensures RelayHistory.Subscribed(StepSubscribe(w, t).sh, n, c) <==>
            w.threads[t] == SubAdd(n, c) || (RelayHistory.Subscribed(w.sh, n, c) && w.threads[t] != UnsubDelete(n, c))
  {
  }

  lemma RegisterLeavesChannels(w: World, t: ThreadId)
    requires t < |w.threads|
    ensures StepRegister(w, t).sh.channels == StepUnregister(w, t).sh.channels == w.sh.channels
  {
  }

  lemma SendLeavesChannels(w: World, t: ThreadId, choice: Choice)
    requires t < |w.threads|
    ensures StepForward(w, t).sh.channels == StepBroadcast(w, t, choice).sh.channels == w.sh.channels
  {
  }

  lemma SubscribedByAct(w: World, a: Action, n: NodeId, c: string)
    ensures RelayHistory.Subscribed(Act(w, a).sh, n, c) <==>
            Adds(w, a, n, c) || (RelayHistory.Subscribed(w.sh, n, c) && !Deletes(w, a, n, c))
  {
    if a.Step? && a.t < |w.threads| && !Crashed(w) {
      SubscribedByStep(w, a.t, n, c);
      RegisterLeavesChannels(w, a.t);
      SendLeavesChannels(w, a.t, a.choice);
    }
  }

  ghost predicate AddsAt(acts: seq<Action>, k: int, n: NodeId, c: string) {
    0 <= k < |acts| && Adds(Exec(acts[..k]), acts[k], n, c)
  }

  ghost predicate DeletesAt(acts: seq<Action>, k: int, n: NodeId, c: string) {
    0 <= k < |acts| && Deletes(Exec(acts[..k]), acts[k], n, c)
  }

  ghost predicate SubscribedBefore(acts: seq<Action>, k: int, n: NodeId, c: string) {
    0 <= k <= |acts| && RelayHistory.Subscribed(Exec(acts[..k]).sh, n, c)
  }

  lemma SubscribedStep(acts: seq<Action>, k: nat, n: NodeId, c: string)
    requires k < |acts|
    ensures SubscribedBefore(acts, k + 1, n, c) <==>
            AddsAt(acts, k, n, c) || (SubscribedBefore(acts, k, n, c) && !DeletesAt(acts, k, n, c))
  {
    assert acts[..k + 1][..k] == acts[..k];
    SubscribedByAct(Exec(acts[..k]), acts[k], n, c);
  }

  /**
   In every interleaving a node is subscribed to a channel if and only if some step entered it and no
   later step deleted it, whatever creations, other subscribers and broadcasts came between.
  */
  lemma SubscribedExactly(acts: seq<Action>, n: NodeId, c: string)
    ensures RelayHistory.Subscribed(Exec(acts).sh, n, c) <==>
            LastSet(k => AddsAt(acts, k, n, c), k => DeletesAt(acts, k, n, c), 0, |acts|)
  {
    forall k: int | 0 <= k < |acts|
      ensures SubscribedBefore(acts, k + 1, n, c) <==>
              AddsAt(acts, k, n, c) || (SubscribedBefore(acts, k, n, c) && !DeletesAt(acts, k, n, c))
    {
      SubscribedStep(acts, k, n, c);
    }
    SetAndNotCleared(k => SubscribedBefore(acts, k, n, c), k => AddsAt(acts, k, n, c), k => DeletesAt(acts, k, n, c), 0, |acts|);
    assert acts[..|acts|] == acts;
  }

  // ---------------------------------------------------------------------------------------
  // Counters in every interleaving
  // ---------------------------------------------------------------------------------------

  function Sum(threads: seq<Pc>, due: Pc -> int): int {
    if threads == [] then 0 else Sum(threads[..|threads| - 1], due) + due(threads[|threads| - 1])
  }

  lemma {:induction false} SumUpdate(threads: seq<Pc>, due: Pc -> int, t: ThreadId, pc: Pc)
    requires t < |threads|
    ensures Sum(threads[t := pc], due) == Sum(threads, due) - due(threads[t]) + due(pc)
  {
    var last := |threads| - 1;
    if t == last {
      assert threads[t := pc][..last] == threads[..last];
    } else {
      SumUpdate(threads[..last], due, t, pc);
      assert threads[t := pc][..last] == threads[..last][t := pc];
    }
  }

  /** Counter updates a thread still owes: a stored session not yet counted, a removed one not yet discounted. */
  function ActiveDue(pc: Pc): int {
    if pc.RegCount? then -1 else if pc.UnClose? || pc.UnCount? then 1 else 0
  }

  /** Deliveries a thread has made and not yet added to messagesRelayed. */
  function RelayDue(pc: Pc): int {
    match pc
    case FwCount => 1
    case BcNext(_, _, count) => count
    case BcFind(_, _, _, count) => count
    case BcSend(_, _, _, count) => count
    case BcCount(count) => count
    case _ => 0
  }

  function ActiveGap(w: World): int {
    w.sh.activeConnections - |w.sh.sessions| - w.sh.replaced - w.lost
  }

  function RelayGap(w: World): int {
    TotalSent(w.sh.queues) - w.sh.messagesRelayed
  }

  lemma OneThreadMoves(w: World, t: ThreadId, choice: Choice)
    requires t < |w.threads|
    ensures var v := StepThread(w, t, choice); v.threads == w.threads[t := v.threads[t]]
  {
  }

  /** A thread's step changes each gap by exactly what the thread newly owes. */
  lemma ActiveRegister(w: World, t: ThreadId)
    requires t < |w.threads|
    ensures var v := StepRegister(w, t);
            ActiveGap(v) - ActiveDue(v.threads[t]) == ActiveGap(w) - ActiveDue(w.threads[t])
  {
    var pc, v := w.threads[t], StepRegister(w, t);
    if pc.RegTake? {
      ActiveTake(w, t);
    } else if pc.RegStore? {
      ActiveStore(w, t);
    } else {
      assert v.sh.sessions == w.sh.sessions && v.sh.replaced == w.sh.replaced && v.lost == w.lost;
    }
  }

  lemma ActiveStore(w: World, t: ThreadId)
    requires t < |w.threads| && w.threads[t].RegStore?
    ensures ActiveGap(StepRegister(w, t)) == ActiveGap(w) - 1 && StepRegister(w, t).threads[t] == RegCount
  {
    MapStoreSize(w.sh.sessions, w.threads[t].n, w.threads[t].fresh');
  }

  lemma ActiveTake(w: World, t: ThreadId)
    requires t < |w.threads| && w.threads[t].RegTake?
    ensures ActiveGap(StepRegister(w, t)) == ActiveGap(w)
    ensures StepRegister(w, t).threads[t].RegClose? || StepRegister(w, t).threads[t].RegStore?
  {
    if w.threads[t].n in w.sh.sessions {
      MapRemoveSize(w.sh.sessions, w.threads[t].n);
    }
  }

  lemma ActiveUnregister(w: World, t: ThreadId)
    requires t < |w.threads|
    ensures var v := StepUnregister(w, t);
            ActiveGap(v) - ActiveDue(v.threads[t]) == ActiveGap(w) - ActiveDue(w.threads[t])
  {
    var pc, v := w.threads[t], StepUnregister(w, t);
    if pc.UnTake? {
      ActiveUnTake(w, t);
    } else {
      assert v.sh.sessions == w.sh.sessions && v.sh.replaced == w.sh.replaced && v.lost == w.lost;
    }
  }

  lemma ActiveUnTake(w: World, t: ThreadId)
    requires t < |w.threads| && w.threads[t].UnTake?
    ensures var v := StepUnregister(w, t);
            if w.threads[t].n in w.sh.sessions then ActiveGap(v) == ActiveGap(w) + 1 && v.threads[t].UnClose?
            else ActiveGap(v) == ActiveGap(w) && v.threads[t] == Done
  {
    if w.threads[t].n in w.sh.sessions {
      MapRemoveSize(w.sh.sessions, w.threads[t].n);
    }
  }

  lemma ActiveForward(w: World, t: ThreadId)
    requires t < |w.threads|
    ensures ActiveGap(StepSubscribe(w, t)) == ActiveGap(StepForward(w, t)) == ActiveGap(w)
    ensures var pc := StepForward(w, t).threads[t]; ActiveDue(pc) == 0 || pc == w.threads[t]
  {
    var u, v := StepSubscribe(w, t), StepForward(w, t);
    assert u.sh.sessions == w.sh.sessions;
    assert v.sh.sessions == w.sh.sessions;
  }

  lemma ActiveBroadcast(w: World, t: ThreadId, choice: Choice)
    requires t < |w.threads|
    ensures ActiveGap(StepBroadcast(w, t, choice)) == ActiveGap(w)
    ensures var pc := StepBroadcast(w, t, choice).threads[t]; ActiveDue(pc) == 0 || pc == w.threads[t]
  {
    assert StepBroadcast(w, t, choice).sh.sessions == w.sh.sessions;
  }

  lemma ActiveStep(w: World, t: ThreadId, choice: Choice)
    requires t < |w.threads|
    ensures var v := StepThread(w, t, choice);
            ActiveGap(v) - ActiveDue(v.threads[t]) == ActiveGap(w) - ActiveDue(w.threads[t])
  {
    ActiveRegister(w, t);
    ActiveUnregister(w, t);
    ActiveForward(w, t);
    ActiveBroadcast(w, t, choice);
  }

  lemma RelayRegister(w: World, t: ThreadId)
    requires t < |w.threads|
    ensures var v := StepRegister(w, t);
            RelayGap(v) - RelayDue(v.threads[t]) == RelayGap(w) - RelayDue(w.threads[t])
  {
    var pc := w.threads[t];
    if pc.RegCheck? {
      TotalSentAppend(w.sh.queues, EMPTY_QUEUE);
    } else if pc.RegClose? {
      CloseKeepsTotal(w.sh, pc.previous);
    }
  }

  lemma RelayUnregister(w: World, t: ThreadId)
    requires t < |w.threads|
    ensures var v := StepUnregister(w, t);
            RelayGap(v) - RelayDue(v.threads[t]) == RelayGap(w) - RelayDue(w.threads[t])
  {
    var pc := w.threads[t];
    if pc.UnClose? {
      CloseKeepsTotal(w.sh, pc.removed);
    }
  }

  lemma RelayForward(w: World, t: ThreadId)
    requires t < |w.threads|
    ensures var v := StepForward(w, t);
            RelayGap(v) - RelayDue(v.threads[t]) == RelayGap(w) - RelayDue(w.threads[t])
  {
    var pc := w.threads[t];
    if pc.FwSend? && Accepts(w.sh, pc.handle) {
      TotalSentUpdate(w.sh.queues, pc.handle, Push(w.sh.queues[pc.handle], pc.env));
    }
  }

  lemma RelayBroadcast(w: World, t: ThreadId, choice: Choice)
    requires t < |w.threads|
    ensures var v := StepBroadcast(w, t, choice);
            RelayGap(v) - RelayDue(v.threads[t]) == RelayGap(w) - RelayDue(w.threads[t])
  {
    var pc, v := w.threads[t], StepBroadcast(w, t, choice);
    if pc.BcSend? && Accepts(w.sh, pc.handle) {
      TotalSentUpdate(w.sh.queues, pc.handle, Push(w.sh.queues[pc.handle], pc.env));
    } else {
      assert v.sh.queues == w.sh.queues;
    }
  }

  lemma RelayStep(w: World, t: ThreadId, choice: Choice)
    requires t < |w.threads|
    ensures var v := StepThread(w, t, choice);
            RelayGap(v) - RelayDue(v.threads[t]) == RelayGap(w) - RelayDue(w.threads[t])
  {
    RelayRegister(w, t);
    RelayUnregister(w, t);
    RelayForward(w, t);
    RelayBroadcast(w, t, choice);
  }

  ghost predicate GapInv(w: World) {
    && ActiveGap(w) == Sum(w.threads, ActiveDue)
    && RelayGap(w) == Sum(w.threads, RelayDue)
  }

  lemma GapStep(w: World, t: ThreadId, choice: Choice)
    requires GapInv(w) && t < |w.threads|
    ensures GapInv(StepThread(w, t, choice))
  {
    var pc := StepThread(w, t, choice).threads[t];
    OneThreadMoves(w, t, choice);
    ActiveStep(w, t, choice);
    RelayStep(w, t, choice);
    SumUpdate(w.threads, ActiveDue, t, pc);
    SumUpdate(w.threads, RelayDue, t, pc);
  }

  lemma GapTake(w: World, q: QueueId)
    requires GapInv(w)
    ensures GapInv(w.(sh := ReceiveQueue(w.sh, q)))
  {
    if q < |w.sh.queues| && w.sh.queues[q].buf != [] {
      TotalSentUpdate(w.sh.queues, q, ReceiveQueue(w.sh, q).queues[q]);
    }
  }

  lemma SumIdle(threads: seq<Pc>, due: Pc -> int, pc: Pc)
    requires due(pc) == 0
    ensures Sum(threads + [pc], due) == Sum(threads, due)
  {
    assert (threads + [pc])[..|threads|] == threads;
  }

  lemma EntryOwesNothing(pc: Pc)
    requires IsEntry(pc)
    ensures ActiveDue(pc) == 0 && RelayDue(pc) == 0
  {
  }

  lemma GapSpawn(w: World, pc: Pc)
    requires GapInv(w) && IsEntry(pc)
    ensures GapInv(w.(threads := w.threads + [pc]))
  {
    EntryOwesNothing(pc);
    SumIdle(w.threads, ActiveDue, pc);
    SumIdle(w.threads, RelayDue, pc);
    var v := w.(threads := w.threads + [pc]);
    assert ActiveGap(v) == ActiveGap(w) && RelayGap(v) == RelayGap(w);
  }

  lemma GapAct(w: World, a: Action)
    requires GapInv(w)
    ensures GapInv(Act(w, a))
  {
    if Crashed(w) {
      assert Act(w, a) == w;
    } else if a.Spawn? {
      if IsEntry(a.pc) { GapSpawn(w, a.pc); }
    } else if a.Take? {
      GapTake(w, a.q);
    } else if a.t < |w.threads| {
      GapStep(w, a.t, a.choice);
      assert Act(w, a) == StepThread(w, a.t, a.choice);
    }
  }

  /**
   The counter laws in every interleaving: activeConnections is the number of live sessions plus
   the replacements and lost sessions so far, corrected by the updates still owed by threads in
   flight; messagesRelayed plus the deliveries not yet counted is the number of envelopes ever
   enqueued.
  */
  lemma {:induction false} CounterLaws(acts: seq<Action>)
    ensures var w := Exec(acts);
            && w.sh.activeConnections == |w.sh.sessions| + w.sh.replaced + w.lost + Sum(w.threads, ActiveDue)
            && w.sh.messagesRelayed + Sum(w.threads, RelayDue) == TotalSent(w.sh.queues)
  {
    if acts != [] {
      CounterLaws(acts[..|acts| - 1]);
      GapAct(Exec(acts[..|acts| - 1]), acts[|acts| - 1]);
    }
  }

  lemma {:induction false} NothingDue(threads: seq<Pc>, due: Pc -> int)
    requires due(Done) == 0 && forall t :: 0 <= t < |threads| ==> threads[t] == Done
    ensures Sum(threads, due) == 0
  {
    if threads != [] {
      NothingDue(threads[..|threads| - 1], due);
    }
  }

  /** When every call has returned, both counters are exact. */
  lemma CountersWhenQuiet(acts: seq<Action>)
    requires forall t :: 0 <= t < |Exec(acts).threads| ==> Exec(acts).threads[t] == Done
    ensures var w := Exec(acts);
            && w.sh.activeConnections == |w.sh.sessions| + w.sh.replaced + w.lost
            && w.sh.messagesRelayed == TotalSent(w.sh.queues)
  {
    CounterLaws(acts);
    NothingDue(Exec(acts).threads, ActiveDue);
    NothingDue(Exec(acts).threads, RelayDue);
  }

  // ---------------------------------------------------------------------------------------
  // What the two histories in the counter law count
  // ---------------------------------------------------------------------------------------

  function LostQueues(owner: seq<Owner>): nat {
    if owner == [] then 0 else LostQueues(owner[..|owner| - 1]) + Count(owner[|owner| - 1] == Lost)
  }

  lemma {:induction false} LostUpdate(owner: seq<Owner>, q: QueueId, o: Owner)
    requires q < |owner|
    ensures LostQueues(owner[q := o]) == LostQueues(owner) - Count(owner[q] == Lost) + Count(o == Lost)
  {
    var last := |owner| - 1;
    if q == last {
      assert owner[q := o][..last] == owner[..last];
    } else {
      LostUpdate(owner[..last], q, o);
      assert owner[q := o][..last] == owner[..last][q := o];
    }
  }

  lemma LostAppend(owner: seq<Owner>, o: Owner)
    ensures LostQueues(owner + [o]) == LostQueues(owner) + Count(o == Lost)
  {
    assert (owner + [o])[..|owner|] == owner;
  }

  /** A thread's step other than a registration's store moves queues between owners that are not Lost. */
  lemma LostByOthers(w: World, t: ThreadId)
    requires OwnInv(w) && t < |w.threads| && !w.threads[t].RegStore?
    ensures var r, u := StepRegister(w, t), StepUnregister(w, t);
            && r.lost == u.lost == w.lost
            && LostQueues(r.owner) == LostQueues(u.owner) == LostQueues(w.owner)
  {
    var pc := w.threads[t];
    assert ThreadInv(w, t);
    if pc.RegCheck? {
      LostAppend(w.owner, Thread(t));
    } else if (pc.RegTake? || pc.UnTake?) && pc.n in w.sh.sessions {
      assert SessionOwned(w, pc.n);
      LostUpdate(w.owner, w.sh.sessions[pc.n], Thread(t));
    } else if pc.RegClose? {
      assert Owns(pc, pc.previous);
      LostUpdate(w.owner, pc.previous, Closed);
    } else if pc.UnClose? {
      assert Owns(pc, pc.removed);
      LostUpdate(w.owner, pc.removed, Closed);
    }
  }

  /** A store loses exactly the queue of the session that it overwrites. */
  lemma LostByStore(w: World, t: ThreadId)
    requires OwnInv(w) && t < |w.threads| && w.threads[t].RegStore?
    ensures StepRegister(w, t).lost - w.lost == LostQueues(StepRegister(w, t).owner) - LostQueues(w.owner)
  {
    var n, q := w.threads[t].n, w.threads[t].fresh';
    assert ThreadInv(w, t) && Owns(w.threads[t], q);
    LostUpdate(w.owner, q, Session(n));
    if n in w.sh.sessions {
      assert SessionOwned(w, n);
      LostUpdate(w.owner[q := Session(n)], w.sh.sessions[n], Lost);
    }
  }

  lemma LostUntouched(w: World, t: ThreadId, choice: Choice)
    requires t < |w.threads|
    ensures StepSubscribe(w, t).lost == StepForward(w, t).lost == StepBroadcast(w, t, choice).lost == w.lost
    ensures StepSubscribe(w, t).owner == StepForward(w, t).owner == StepBroadcast(w, t, choice).owner == w.owner
  {
  }

  lemma LostAct(w: World, a: Action)
    requires OwnInv(w)
    ensures Act(w, a).lost - w.lost == LostQueues(Act(w, a).owner) - LostQueues(w.owner)
  {
    if a.Step? && a.t < |w.threads| && !Crashed(w) {
      LostUntouched(w, a.t, a.choice);
      if w.threads[a.t].RegStore? { LostByStore(w, a.t); } else { LostByOthers(w, a.t); }
    }
  }

  /** The step is a registration that finds an earlier session of its node. */
  predicate Replaces(w: World, a: Action) {
    !Crashed(w) && a.Step? && a.t < |w.threads| && w.threads[a.t].RegTake? && w.threads[a.t].n in w.sh.sessions
  }

  /** How many steps of a run found an earlier session. */
  function ReplacingSteps(acts: seq<Action>): nat {
    if acts == [] then 0
    else
      var before := acts[..|acts| - 1];
      ReplacingSteps(before) + Count(Replaces(Exec(before), acts[|acts| - 1]))
  }

  lemma ReplacedByRegister(w: World, t: ThreadId)
    requires t < |w.threads|
    ensures StepRegister(w, t).sh.replaced ==
            w.sh.replaced + Count(w.threads[t].RegTake? && w.threads[t].n in w.sh.sessions)
  {
  }

  lemma UnregisterKeepsReplaced(w: World, t: ThreadId)
    requires t < |w.threads|
    ensures StepUnregister(w, t).sh.replaced == StepSubscribe(w, t).sh.replaced == w.sh.replaced
  {
  }

  lemma SendKeepsReplaced(w: World, t: ThreadId, choice: Choice)
    requires t < |w.threads|
    ensures StepForward(w, t).sh.replaced == StepBroadcast(w, t, choice).sh.replaced == w.sh.replaced
  {
  }

  lemma ReplacedByAct(w: World, a: Action)
    ensures Act(w, a).sh.replaced == w.sh.replaced + Count(Replaces(w, a))
  {
    if a.Step? && a.t < |w.threads| && !Crashed(w) {
      ReplacedByRegister(w, a.t);
      UnregisterKeepsReplaced(w, a.t);
      SendKeepsReplaced(w, a.t, a.choice);
    }
  }

  /**
   In every interleaving `lost` is the number of queues that a concurrent registration overwrote and
   nobody will close, and `replaced` is the number of registrations that found an earlier session.
  */
  lemma {:induction false} HistoriesCount(acts: seq<Action>)
    ensures Exec(acts).lost == LostQueues(Exec(acts).owner)
    ensures Exec(acts).sh.replaced == ReplacingSteps(acts)
  {
    if acts != [] {
      var before, a := acts[..|acts| - 1], acts[|acts| - 1];
      HistoriesCount(before);
      OwnExec(before);
      LostAct(Exec(before), a);
      ReplacedByAct(Exec(before), a);
    }
  }

  // ---------------------------------------------------------------------------------------
  // Blacklisting against registering
  // ---------------------------------------------------------------------------------------

  /** A registration of `n` that passed the blacklist check and has not stored its session yet. */
  predicate Registering(pc: Pc, n: NodeId) {
    (pc.RegTake? || pc.RegClose? || pc.RegStore?) && pc.n == n
  }

  /** Every ban of `n` takes effect while no registration of `n` is between its check and its store. */
  ghost predicate CalmBans(acts: seq<Action>, n: NodeId) {
    forall i :: 0 <= i < |acts| ==> CalmAct(Exec(acts[..i]), acts[i], n)
  }

  ghost predicate CalmAct(w: World, a: Action, n: NodeId) {
    a.Step? && a.t < |w.threads| && w.threads[a.t] == BanStore(n) ==>
      forall u :: 0 <= u < |w.threads| ==> !Registering(w.threads[u], n)
  }

  ghost predicate BanInv(w: World, n: NodeId) {
    n in w.sh.blacklist ==>
      && (forall u :: 0 <= u < |w.threads| ==> !Registering(w.threads[u], n))
      && (n in w.sh.sessions ==> exists u :: 0 <= u < |w.threads| && w.threads[u] == UnTake(n))
  }

  lemma BanSpawn(w: World, pc: Pc, n: NodeId)
    requires BanInv(w, n)
    ensures BanInv(Act(w, Spawn(pc)), n)
  {
    var v := Act(w, Spawn(pc));
    if n in v.sh.blacklist && n in v.sh.sessions {
      var u :| 0 <= u < |w.threads| && w.threads[u] == UnTake(n);
      assert v.threads[u] == UnTake(n);
    }
  }

  lemma BanStep(w: World, t: ThreadId, choice: Choice, n: NodeId)
    requires BanInv(w, n) && t < |w.threads| && CalmAct(w, Step(t, choice), n)
    ensures BanInv(StepThread(w, t, choice), n)
  {
    var v := StepThread(w, t, choice);
    OneThreadMoves(w, t, choice);
    if n in v.sh.blacklist {
      BanEffectOfStep(w, t, choice, n);
      if n in v.sh.sessions {
        if w.threads[t] == BanStore(n) {
          assert v.threads[t] == UnTake(n);
        } else {
          assert n in w.sh.sessions && n in w.sh.blacklist;
          var u :| 0 <= u < |w.threads| && w.threads[u] == UnTake(n);
          assert u != t && v.threads[u] == UnTake(n);
        }
      }
    }
  }

  /** What one step of a thread may do to `n` while `n` is blacklisted. */
  ghost predicate BanEffect(w: World, v: World, t: ThreadId, n: NodeId)
    requires t < |w.threads| == |v.threads|
  {
    && (n in w.sh.blacklist || w.threads[t] == BanStore(n))
    && (w.threads[t] == BanStore(n) ==> v.threads[t] == UnTake(n))
    && (Registering(v.threads[t], n) ==> Registering(w.threads[t], n))
    && (n in v.sh.sessions ==> n in w.sh.sessions || Registering(w.threads[t], n))
    && (w.threads[t] == UnTake(n) ==> n !in v.sh.sessions)
  }

  lemma BanEffectOfRegister(w: World, t: ThreadId, n: NodeId)
    requires t < |w.threads| && n in w.sh.blacklist && !w.threads[t].BanStore? && !w.threads[t].UnTake?
    ensures |StepRegister(w, t).threads| == |w.threads| && BanEffect(w, StepRegister(w, t), t, n)
  {
  }

  lemma BanEffectOfForward(w: World, t: ThreadId, choice: Choice, n: NodeId)
    requires t < |w.threads| && n in w.sh.blacklist && !Registering(w.threads[t], n)
    requires !w.threads[t].BanStore? && !w.threads[t].UnTake?
    ensures |StepForward(w, t).threads| == |w.threads| && BanEffect(w, StepForward(w, t), t, n)
    ensures |StepBroadcast(w, t, choice).threads| == |w.threads| && BanEffect(w, StepBroadcast(w, t, choice), t, n)
  {
  }

  lemma BanEffectOfStep(w: World, t: ThreadId, choice: Choice, n: NodeId)
    requires t < |w.threads| && n in StepThread(w, t, choice).sh.blacklist
    ensures BanEffect(w, StepThread(w, t, choice), t, n)
  {
    var pc := w.threads[t];
    if pc.RegCheck? || pc.RegTake? || pc.RegClose? || pc.RegStore? || pc.RegCount? {
      BanEffectOfRegister(w, t, n);
    } else if pc.BanStore? || pc.UnTake? || pc.UnClose? || pc.UnCount? || pc.UnbanDelete? {
      assert BanEffect(w, StepUnregister(w, t), t, n);
    } else if pc.SubCreate? || pc.SubAdd? || pc.UnsubLoad? || pc.UnsubDelete? {
      assert BanEffect(w, StepSubscribe(w, t), t, n);
    } else {
      BanEffectOfForward(w, t, choice, n);
    }
  }

  /**
   If every ban of `n` takes effect while no registration of `n` is in its window, then in every
   interleaving a blacklisted `n` has no session unless the ban's own removal is still pending.
  */
  lemma {:induction false} CalmBansHold(acts: seq<Action>, n: NodeId)
    requires CalmBans(acts, n)
    ensures BanInv(Exec(acts), n)
  {
    if acts != [] {
      var before, a := acts[..|acts| - 1], acts[|acts| - 1];
      assert CalmBans(before, n) by {
        forall i | 0 <= i < |before| ensures CalmAct(Exec(before[..i]), before[i], n) {
          assert acts[..i] == before[..i];
          assert CalmAct(Exec(acts[..i]), acts[i], n);
        }
      }
      CalmBansHold(before, n);
      assert CalmAct(Exec(acts[..|acts| - 1]), acts[|acts| - 1], n);
      var w := Exec(before);
      match a
      case Spawn(pc) => BanSpawn(w, pc, n);
      case Step(t, choice) => if t < |w.threads| { BanStep(w, t, choice, n); }
      case Take(q) =>
    }
  }

  /** A removal of `n` is on its way. */
  ghost predicate Removing(w: World, n: NodeId) {
    exists u :: 0 <= u < |w.threads| && w.threads[u] == UnTake(n)
  }

  /** A blacklisted `n` has no session, or its removal is on its way. */
  ghost predicate BanSafe(w: World, n: NodeId) {
    n in w.sh.blacklist && n in w.sh.sessions ==> Removing(w, n)
  }

  /** A registration of `n` stores its session although `n` is blacklisted and nothing will remove it. */
  ghost predicate UnguardedStore(w: World, a: Action, n: NodeId) {
    && a.Step? && a.t < |w.threads| && w.threads[a.t].RegStore? && w.threads[a.t].n == n
    && n in w.sh.blacklist && !Removing(w, n) && !Crashed(w)
  }

  lemma OtherThreadsStay(w: World, t: ThreadId, choice: Choice, n: NodeId)
    requires t < |w.threads| && Removing(w, n) && w.threads[t] != UnTake(n)
    ensures Removing(StepThread(w, t, choice), n)
  {
    OneThreadMoves(w, t, choice);
    var u :| 0 <= u < |w.threads| && w.threads[u] == UnTake(n);
    assert StepThread(w, t, choice).threads[u] == UnTake(n);
  }

  lemma StoreIsUnguarded(w: World, t: ThreadId, choice: Choice, n: NodeId)
    requires t < |w.threads| && w.threads[t].RegStore? && w.threads[t].n == n && n in w.sh.blacklist
    ensures BanSafe(StepThread(w, t, choice), n) <==> Removing(w, n)
  {
    var v := StepThread(w, t, choice);
    assert v.threads == w.threads[t := RegCount];
    if Removing(w, n) { OtherThreadsStay(w, t, choice, n); }
    if Removing(v, n) {
      var u :| 0 <= u < |v.threads| && v.threads[u] == UnTake(n);
      assert w.threads[u] == UnTake(n);
    }
  }

  lemma OthersKeepBanSafe(w: World, t: ThreadId, choice: Choice, n: NodeId)
    requires t < |w.threads| && BanSafe(w, n)
    requires !(w.threads[t].RegStore? && w.threads[t].n == n && n in w.sh.blacklist)
    ensures BanSafe(StepThread(w, t, choice), n)
  {
    var v := StepThread(w, t, choice);
    OneThreadMoves(w, t, choice);
    if n in v.sh.blacklist && n in v.sh.sessions {
      BanEffectOfStep(w, t, choice, n);
      if w.threads[t] == BanStore(n) {
        assert v.threads[t] == UnTake(n);
      } else {
        assert n in w.sh.sessions;
        OtherThreadsStay(w, t, choice, n);
      }
    }
  }

  /**
   The exact way to a blacklisted session that nothing removes: in any reachable state, the one step
   that leads there from a safe state is a registration's store while its node is blacklisted and no
   removal of it is on its way.
  */
  lemma BlacklistedSessionExactly(acts: seq<Action>, a: Action, n: NodeId)
    requires BanSafe(Exec(acts), n)
    ensures BanSafe(Act(Exec(acts), a), n) <==> !UnguardedStore(Exec(acts), a, n)
  {
    var w := Exec(acts);
    if a.Spawn? {
      SpawnKeepsBanSafe(w, a.pc, n);
    } else if a.Step? && a.t < |w.threads| && !Crashed(w) {
      if w.threads[a.t].RegStore? && w.threads[a.t].n == n && n in w.sh.blacklist {
        StoreIsUnguarded(w, a.t, a.choice, n);
      } else {
        OthersKeepBanSafe(w, a.t, a.choice, n);
      }
    } else if a.Take? {
      assert Act(w, a).threads == w.threads;
    }
  }

  lemma SpawnKeepsBanSafe(w: World, pc: Pc, n: NodeId)
    requires BanSafe(w, n)
    ensures BanSafe(Act(w, Spawn(pc)), n)
  {
    if Removing(w, n) {
      var u :| 0 <= u < |w.threads| && w.threads[u] == UnTake(n);
      assert Act(w, Spawn(pc)).threads[u] == UnTake(n);
    }
  }

  // ---------------------------------------------------------------------------------------
  // Runs that break the method-atomic guarantees
  // ---------------------------------------------------------------------------------------

  lemma Extend(acts: seq<Action>, w: World, a: Action)
    requires Exec(acts) == w
    ensures Exec(acts + [a]) == Act(w, a)
  {
    assert (acts + [a])[..|acts|] == acts;
  }

  /** A registration from the start, past its blacklist check. */
  lemma RegisterBegins(n: NodeId) returns (acts: seq<Action>, w: World)
    ensures Exec(acts) == w && w.threads == [RegTake(n, 0)] && w.sh.sessions == map[]
    ensures w.sh.queues == [EMPTY_QUEUE] && w.sh.blacklist == {} && !Crashed(w)
  {
    acts, w := [], START;
    Extend(acts, w, Spawn(RegCheck(n)));
    acts, w := acts + [Spawn(RegCheck(n))], Act(w, Spawn(RegCheck(n)));
    Extend(acts, w, Step(0, Auto));
    acts, w := acts + [Step(0, Auto)], StepRegister(w, 0);
  }

  /** ... and past its store. */
  lemma RegisterFirst(n: NodeId) returns (acts: seq<Action>, w: World)
    ensures Exec(acts) == w && w.threads == [RegCount] && w.sh.sessions == map[n := 0]
    ensures w.sh.queues == [EMPTY_QUEUE] && w.sh.blacklist == {} && !Crashed(w)
  {
    acts, w := RegisterBegins(n);
    Extend(acts, w, Step(0, Auto));
    acts, w := acts + [Step(0, Auto)], StepRegister(w, 0);
    assert w.threads == [RegStore(n, 0)];
    Extend(acts, w, Step(0, Auto));
    acts, w := acts + [Step(0, Auto)], StepRegister(w, 0);
  }

  /** ... and a sender that has looked up that session. */
  lemma LookupDone(env: Envelope) returns (acts: seq<Action>, w: World)
    requires !IsChannel(env.target)
    ensures Exec(acts) == w && w.threads == [RegCount, FwSend(env, 0)] && w.sh.sessions == map[env.target := 0]
    ensures w.sh.queues == [EMPTY_QUEUE] && !Crashed(w)
  {
    acts, w := RegisterFirst(env.target);
    Extend(acts, w, Spawn(FwCheck(env)));
    acts, w := acts + [Spawn(FwCheck(env))], Act(w, Spawn(FwCheck(env)));
    Extend(acts, w, Step(1, Auto));
    acts, w := acts + [Step(1, Auto)], Act(w, Step(1, Auto));
    assert w.threads == [RegCount, FwLoad(env)];
    Extend(acts, w, Step(1, Auto));
    acts, w := acts + [Step(1, Auto)], Act(w, Step(1, Auto));
  }

  /** ... after which the session disconnects. */
  lemma DisconnectAfterLookup(env: Envelope) returns (acts: seq<Action>, w: World)
    requires !IsChannel(env.target)
    ensures Exec(acts) == w && !Crashed(w) && IsClosed(w.sh, 0)
    ensures |w.threads| == 3 && w.threads[1] == FwSend(env, 0)
  {
    acts, w := LookupDone(env);
    Extend(acts, w, Spawn(UnTake(env.target)));
    acts, w := acts + [Spawn(UnTake(env.target))], Act(w, Spawn(UnTake(env.target)));
    assert w.threads[2] == UnTake(env.target);
    Extend(acts, w, Step(2, Auto));
    acts, w := acts + [Step(2, Auto)], StepUnregister(w, 2);
    assert w.threads[2] == UnClose(0);
    Extend(acts, w, Step(2, Auto));
    acts, w := acts + [Step(2, Auto)], StepUnregister(w, 2);
  }

  /** A send on a closed queue: the target disconnects between a sender's lookup and its send. */
  lemma SendOnClosedIsReachable() returns (acts: seq<Action>)
    ensures Exec(acts).sh.sendOnClosed
  {
    var env := Envelope("m1", "alice-01", "bob-0001", []);
    var w;
    acts, w := DisconnectAfterLookup(env);
    Extend(acts, w, Step(1, Auto));
    acts, w := acts + [Step(1, Auto)], StepForward(w, 1);
  }

  /** An envelope enqueued while its sender is blacklisted: the ban falls between the sender's check and its send. */
  lemma BlacklistedEnqueueIsReachable() returns (acts: seq<Action>, a: Action)
    ensures Enqueues(Exec(acts), a, 0) && Exec(acts).threads[a.t].env.sender in Exec(acts).sh.blacklist
  {
    var env := Envelope("m1", "alice-01", "bob-0001", []);
    var w;
    acts, w := LookupDone(env);
    Extend(acts, w, Spawn(BanStore(env.sender)));
    acts, w := acts + [Spawn(BanStore(env.sender))], Act(w, Spawn(BanStore(env.sender)));
    assert w.threads == [RegCount, FwSend(env, 0), BanStore(env.sender)];
    Extend(acts, w, Step(2, Auto));
    acts, w := acts + [Step(2, Auto)], StepUnregister(w, 2);
    a := Step(1, Auto);
  }

  /** A registration past its check, and a whole ban of its node after that. */
  lemma BanInWindow(n: NodeId) returns (acts: seq<Action>, w: World)
    ensures Exec(acts) == w && w.threads == [RegTake(n, 0), Done] && w.sh.sessions == map[]
    ensures w.sh.blacklist == {n} && !Crashed(w)
  {
    acts, w := RegisterBegins(n);
    Extend(acts, w, Spawn(BanStore(n)));
    acts, w := acts + [Spawn(BanStore(n))], Act(w, Spawn(BanStore(n)));
    Extend(acts, w, Step(1, Auto));
    acts, w := acts + [Step(1, Auto)], StepUnregister(w, 1);
    assert w.threads == [RegTake(n, 0), UnTake(n)] && w.sh.blacklist == {n};
    Extend(acts, w, Step(1, Auto));
    acts, w := acts + [Step(1, Auto)], StepUnregister(w, 1);
  }

  /** A blacklisted session: the ban's check and removal both fall between a registration's check and its store. */
  lemma BlacklistedSessionIsReachable() returns (acts: seq<Action>, n: NodeId)
    ensures n in Exec(acts).sh.blacklist && n in Exec(acts).sh.sessions
    ensures forall u :: 0 <= u < |Exec(acts).threads| ==> Exec(acts).threads[u] != UnTake(n)
  {
    n := "bob-0001";
    var w;
    acts, w := BanInWindow(n);
    Extend(acts, w, Step(0, Auto));
    acts, w := acts + [Step(0, Auto)], StepRegister(w, 0);
    assert w.threads == [RegStore(n, 0), Done];
    Extend(acts, w, Step(0, Auto));
    acts, w := acts + [Step(0, Auto)], StepRegister(w, 0);
    assert w.threads == [RegCount, Done] && w.sh.sessions == map[n := 0];
  }

  // ---------------------------------------------------------------------------------------
  // A thread left alone computes the whole operation
  // ---------------------------------------------------------------------------------------

  /** The thread takes steps, with nobody else running, until its call returns. */
  ghost predicate Completes(w: World, t: ThreadId, choices: seq<Choice>, v: World)
    requires t < |w.threads|
    decreases choices
  {
    if choices == [] then w == v && v.threads[t] == Done
    else |StepThread(w, t, choices[0]).threads| == |w.threads| &&
         Completes(StepThread(w, t, choices[0]), t, choices[1..], v)
  }

  lemma FirstStep(w: World, t: ThreadId, choice: Choice, rest: seq<Choice>, v: World)
    requires t < |w.threads| && |StepThread(w, t, choice).threads| == |w.threads|
    requires Completes(StepThread(w, t, choice), t, rest, v)
    ensures Completes(w, t, [choice] + rest, v)
  {
    assert ([choice] + rest)[1..] == rest;
  }

  lemma StoreAlone(w: World, t: ThreadId, n: NodeId, q: QueueId) returns (choices: seq<Choice>, v: World)
    requires t < |w.threads| && w.threads[t] == RegStore(n, q)
    ensures Completes(w, t, choices, v)
    ensures v.sh == w.sh.(sessions := w.sh.sessions[n := q], activeConnections := w.sh.activeConnections + 1)
  {
    var w1 := StepRegister(w, t);
    v := StepRegister(w1, t);
    assert w1.threads[t] == RegCount && v.threads[t] == Done;
    FirstStep(w1, t, Auto, [], v);
    FirstStep(w, t, Auto, [Auto], v);
    choices := [Auto] + [Auto];
  }

  lemma RegisterAlone(w: World, t: ThreadId, n: NodeId) returns (choices: seq<Choice>, v: World)
    requires OwnInv(w) && t < |w.threads| && w.threads[t] == RegCheck(n)
    ensures Completes(w, t, choices, v) && v.sh == DoRegister(w.sh, n).0
  {
    var w1 := StepRegister(w, t);
    if n in w.sh.blacklist {
      v := w1;
      FirstStep(w, t, Auto, [], v);
      choices := [Auto] + [];
      return;
    }
    var q := |w.sh.queues|;
    var w2 := StepRegister(w1, t);
    if n !in w.sh.sessions {
      choices, v := StoreAlone(w2, t, n, q);
    } else {
      assert SessionOwned(w, n);
      var p := w.sh.sessions[n];
      var w3 := StepRegister(w2, t);
      assert w3.threads[t] == RegStore(n, q);
      choices, v := StoreAlone(w3, t, n, q);
      FirstStep(w2, t, Auto, choices, v);
      choices := [Auto] + choices;
      assert (w.sh.sessions - {n})[n := q] == w.sh.sessions[n := q];
      assert v.sh.queues == CloseQueue(w.sh, p).queues + [EMPTY_QUEUE];
    }
    FirstStep(w1, t, Auto, choices, v);
    FirstStep(w, t, Auto, [Auto] + choices, v);
    choices := [Auto] + ([Auto] + choices);
  }

  lemma UnregisterAlone(w: World, t: ThreadId, n: NodeId) returns (choices: seq<Choice>, v: World)
    requires t < |w.threads| && w.threads[t] == UnTake(n)
    ensures Completes(w, t, choices, v) && v.sh == DoUnregister(w.sh, n)
  {
    var w1 := StepUnregister(w, t);
    if n in w.sh.sessions {
      var w2 := StepUnregister(w1, t);
      v := StepUnregister(w2, t);
      assert w1.threads[t] == UnClose(w.sh.sessions[n]) && w2.threads[t] == UnCount && v.threads[t] == Done;
      FirstStep(w2, t, Auto, [], v);
      FirstStep(w1, t, Auto, [Auto] + [], v);
      choices := [Auto] + ([Auto] + []);
    } else {
      v, choices := w1, [];
    }
    FirstStep(w, t, Auto, choices, v);
    choices := [Auto] + choices;
  }

  lemma BlacklistAlone(w: World, t: ThreadId, n: NodeId) returns (choices: seq<Choice>, v: World)
    requires t < |w.threads| && w.threads[t] == BanStore(n)
    ensures Completes(w, t, choices, v) && v.sh == DoBlacklist(w.sh, n)
  {
    var w1 := StepUnregister(w, t);
    choices, v := UnregisterAlone(w1, t, n);
    FirstStep(w, t, Auto, choices, v);
    choices := [Auto] + choices;
  }

  lemma SubscribeAlone(w: World, t: ThreadId, n: NodeId, c: string) returns (choices: seq<Choice>, v: World)
    requires t < |w.threads| && w.threads[t] == SubCreate(n, c)
    ensures Completes(w, t, choices, v) && v.sh == DoSubscribe(w.sh, n, c)
  {
    var w1 := StepSubscribe(w, t);
    v := StepSubscribe(w1, t);
    assert w1.threads[t] == SubAdd(n, c) && v.threads[t] == Done;
    FirstStep(w1, t, Auto, [], v);
    FirstStep(w, t, Auto, [Auto] + [], v);
    choices := [Auto] + ([Auto] + []);
  }

  lemma UnsubscribeAlone(w: World, t: ThreadId, n: NodeId, c: string) returns (choices: seq<Choice>, v: World)
    requires t < |w.threads| && w.threads[t] == UnsubLoad(n, c)
    ensures Completes(w, t, choices, v) && v.sh == DoUnsubscribe(w.sh, n, c)
  {
    var w1 := StepSubscribe(w, t);
    if c in w.sh.channels {
      v := StepSubscribe(w1, t);
      assert w1.threads[t] == UnsubDelete(n, c) && v.threads[t] == Done;
      FirstStep(w1, t, Auto, [], v);
      choices := [Auto] + [];
    } else {
      v, choices := w1, [];
    }
    FirstStep(w, t, Auto, choices, v);
    choices := [Auto] + choices;
  }

  lemma ForwardAlone(w: World, t: ThreadId, env: Envelope) returns (choices: seq<Choice>, v: World)
    requires t < |w.threads| && w.threads[t] == FwCheck(env) && !IsChannel(env.target)
    ensures Completes(w, t, choices, v) && v.sh == DoForward(w.sh, env).0
  {
    var w1 := StepForward(w, t);
    if env.sender in w.sh.blacklist {
      v, choices := w1, [];
    } else {
      var w2 := StepForward(w1, t);
      if env.target !in w.sh.sessions {
        v, choices := w2, [];
      } else {
        var w3 := StepForward(w2, t);
        assert w2.threads[t] == FwSend(env, w.sh.sessions[env.target]) && w2.sh == w.sh;
        if Accepts(w.sh, w.sh.sessions[env.target]) {
          v := StepForward(w3, t);
          assert w3.threads[t] == FwCount && v.threads[t] == Done;
          FirstStep(w3, t, Auto, [], v);
          choices := [Auto] + [];
        } else {
          v, choices := w3, [];
        }
        FirstStep(w2, t, Auto, choices, v);
        choices := [Auto] + choices;
      }
      FirstStep(w1, t, Auto, choices, v);
      choices := [Auto] + choices;
    }
    FirstStep(w, t, Auto, choices, v);
    choices := [Auto] + choices;
  }

  // A broadcast with the subscribers `todo` left: the deliveries to the others made and counted.
  ghost predicate Visited(s: State, w: World, t: ThreadId, env: Envelope, todo: set<NodeId>)
    requires env.target in s.channels && t < |w.threads|
  {
    && w.sh == s.(queues := Progress(s, env, todo))
    && w.threads[t] == BcNext(env, s.channels[env.target] - todo, |Recipients(s, env) - todo|)
  }

  /** The steps of a visit, in one: a delivery if there is a session with room, else nothing. */
  function VisitResult(w: World, t: ThreadId, env: Envelope, seen: set<NodeId>, count: nat, n: NodeId): World
    requires t < |w.threads|
  {
    var more := if Reaches(w.sh.sessions, w.sh.queues, env, n) then 1 else 0;
    Move(w, t, w.sh.(queues := VisitQueues(w.sh.sessions, w.sh.queues, env, n)), BcNext(env, seen + {n}, count + more))
  }

  lemma VisitResultIs(w: World, t: ThreadId, env: Envelope, seen: set<NodeId>, count: nat, n: NodeId,
                      queues: seq<Queue>, seen': set<NodeId>, count': nat)
    requires t < |w.threads| && queues == VisitQueues(w.sh.sessions, w.sh.queues, env, n)
    requires seen' == seen + {n}
    requires count' == count + if Reaches(w.sh.sessions, w.sh.queues, env, n) then 1 else 0
    ensures VisitResult(w, t, env, seen, count, n).sh == w.sh.(queues := queues)
    ensures VisitResult(w, t, env, seen, count, n).threads[t] == BcNext(env, seen', count')
  {
  }

  lemma SeenGrows(all: set<NodeId>, todo: set<NodeId>, n: NodeId)
    requires n in todo && todo <= all
    ensures all - todo + {n} == all - (todo - {n})
  {
  }

  lemma VisitResultProgress(s: State, w: World, t: ThreadId, env: Envelope, todo: set<NodeId>, n: NodeId)
    requires SessionsInv(s) && env.target in s.channels && t < |w.threads|
    requires n in todo && todo <= s.channels[env.target] && Visited(s, w, t, env, todo)
    ensures var seen := s.channels[env.target] - todo;
            Visited(s, VisitResult(w, t, env, seen, |Recipients(s, env) - todo|, n), t, env, todo - {n})
  {
    var seen, rest := s.channels[env.target] - todo, todo - {n};
    var count, count' := |Recipients(s, env) - todo|, |Recipients(s, env) - rest|;
    SeenGrows(s.channels[env.target], todo, n);
    BroadcastVisit(s, env, todo, n);
    VisitResultIs(w, t, env, seen, count, n, Progress(s, env, rest), s.channels[env.target] - rest, count');
  }

  lemma VisitFindsOpenQueue(s: State, w: World, t: ThreadId, env: Envelope, todo: set<NodeId>, n: NodeId)
    requires SessionsInv(s) && env.target in s.channels && t < |w.threads|
    requires n in todo && todo <= s.channels[env.target] && Visited(s, w, t, env, todo)
    ensures n in s.sessions ==> s.sessions[n] < |w.sh.queues| && w.sh.queues[s.sessions[n]].closes == 0
  {
    BroadcastVisit(s, env, todo, n);
  }

  ghost predicate Broadcasting(s: State, t: ThreadId, env: Envelope, w: World, todo: set<NodeId>) {
    && env.target in s.channels && t < |w.threads|
    && todo <= s.channels[env.target] && Visited(s, w, t, env, todo)
  }

  /** The subscribers that Range yields during the steps, in order. */
  function VisitsOf(choices: seq<Choice>): seq<NodeId> {
    if choices == [] then []
    else (if choices[0].Visit? then [choices[0].n] else []) + VisitsOf(choices[1..])
  }

  lemma VisitsOfCons(choice: Choice, rest: seq<Choice>)
    ensures VisitsOf([choice] + rest) == (if choice.Visit? then [choice.n] else []) + VisitsOf(rest)
  {
    assert ([choice] + rest)[1..] == rest;
  }

  /** One more step in front of a completion. */
  lemma Prepend(w: World, t: ThreadId, choice: Choice, w1: World, rest: seq<Choice>, v: World) returns (choices: seq<Choice>)
    requires t < |w.threads| == |w1.threads| && StepThread(w, t, choice) == w1 && Completes(w1, t, rest, v)
    ensures choices == [choice] + rest && Completes(w, t, choices, v)
    ensures VisitsOf(choices) == (if choice.Visit? then [choice.n] else []) + VisitsOf(rest)
  {
    FirstStep(w, t, choice, rest, v);
    VisitsOfCons(choice, rest);
    choices := [choice] + rest;
  }

  /** What the lookup and the send after Range's yield of `n` come to. */
  function FindResult(w: World, t: ThreadId, env: Envelope, seen: set<NodeId>, count: nat, n: NodeId): World
    requires t < |w.threads|
  {
    var more := if Reaches(w.sh.sessions, w.sh.queues, env, n) then 1 else 0;
    Move(w, t, w.sh.(queues := VisitQueues(w.sh.sessions, w.sh.queues, env, n)), BcNext(env, seen, count + more))
  }

  lemma SendFound(w: World, t: ThreadId, env: Envelope, seen: set<NodeId>, count: nat, n: NodeId)
    requires t < |w.threads| && n != env.sender && n in w.sh.sessions
    requires w.sh.sessions[n] < |w.sh.queues| && w.sh.queues[w.sh.sessions[n]].closes == 0
    ensures StepBroadcast(Move(w, t, w.sh, BcSend(env, w.sh.sessions[n], seen, count)), t, Auto) ==
            FindResult(w, t, env, seen, count, n)
  {
  }

  lemma FindAlone(w: World, t: ThreadId, env: Envelope, seen: set<NodeId>, count: nat, n: NodeId, rest: seq<Choice>, v: World)
      returns (choices: seq<Choice>)
    requires t < |w.threads| && w.threads[t] == BcFind(env, n, seen, count) && n != env.sender
    requires n in w.sh.sessions ==> w.sh.sessions[n] < |w.sh.queues| && w.sh.queues[w.sh.sessions[n]].closes == 0
    requires Completes(FindResult(w, t, env, seen, count, n), t, rest, v)
    ensures Completes(w, t, choices, v) && VisitsOf(choices) == VisitsOf(rest)
  {
    var w1 := StepBroadcast(w, t, Auto);
    choices := rest;
    if n in w.sh.sessions {
      SendFound(w, t, env, seen, count, n);
      assert w1 == Move(w, t, w.sh, BcSend(env, w.sh.sessions[n], seen, count));
      choices := Prepend(w1, t, Auto, FindResult(w, t, env, seen, count, n), rest, v);
    } else {
      assert w1 == FindResult(w, t, env, seen, count, n);
    }
    choices := Prepend(w, t, Auto, w1, choices, v);
  }

  /** A visit left alone, before steps that complete the call. */
  lemma VisitAlone(w: World, t: ThreadId, env: Envelope, seen: set<NodeId>, count: nat, n: NodeId, rest: seq<Choice>, v: World)
      returns (choices: seq<Choice>)
    requires t < |w.threads| && w.threads[t] == BcNext(env, seen, count)
    requires env.target in w.sh.channels && n in w.sh.channels[env.target] && n !in seen
    requires n in w.sh.sessions ==> w.sh.sessions[n] < |w.sh.queues| && w.sh.queues[w.sh.sessions[n]].closes == 0
    requires Completes(VisitResult(w, t, env, seen, count, n), t, rest, v)
    ensures Completes(w, t, choices, v) && VisitsOf(choices) == [n] + VisitsOf(rest)
  {
    var w1 := StepBroadcast(w, t, Visit(n));
    choices := rest;
    if n != env.sender {
      assert w1 == Move(w, t, w.sh, BcFind(env, n, seen + {n}, count));
      assert FindResult(w1, t, env, seen + {n}, count, n) == VisitResult(w, t, env, seen, count, n);
      choices := FindAlone(w1, t, env, seen + {n}, count, n, rest, v);
    }
    choices := Prepend(w, t, Visit(n), w1, choices, v);
  }

  function AfterVisit(s: State, t: ThreadId, env: Envelope, w: World, todo: set<NodeId>, n: NodeId): World
    requires env.target in s.channels && t < |w.threads|
  {
    VisitResult(w, t, env, s.channels[env.target] - todo, |Recipients(s, env) - todo|, n)
  }

  lemma StillBroadcasting(s: State, t: ThreadId, env: Envelope, w: World, todo: set<NodeId>, n: NodeId)
    requires SessionsInv(s) && Broadcasting(s, t, env, w, todo) && n in todo
    ensures Broadcasting(s, t, env, AfterVisit(s, t, env, w, todo, n), todo - {n})
  {
    VisitResultProgress(s, w, t, env, todo, n);
  }

  lemma VisitThenComplete(s: State, t: ThreadId, env: Envelope, w: World, todo: set<NodeId>, n: NodeId,
                          rest: seq<Choice>, v: World) returns (choices: seq<Choice>)
    requires SessionsInv(s) && Broadcasting(s, t, env, w, todo) && n in todo
    requires Completes(AfterVisit(s, t, env, w, todo, n), t, rest, v)
    ensures Completes(w, t, choices, v) && VisitsOf(choices) == [n] + VisitsOf(rest)
  {
    VisitFindsOpenQueue(s, w, t, env, todo, n);
    choices := VisitAlone(w, t, env, s.channels[env.target] - todo, |Recipients(s, env) - todo|, n, rest, v);
  }

  lemma NoneLeft(order: seq<NodeId>, todo: set<NodeId>)
    requires order == [] && Elements(order) == todo
    ensures todo == {}
  {
  }

  lemma OrderTail(order: seq<NodeId>, todo: set<NodeId>)
    requires order != [] && Distinct(order) && Elements(order) == todo
    ensures order[0] in todo && Distinct(order[1..]) && Elements(order[1..]) == todo - {order[0]}
    ensures [order[0]] + order[1..] == order
  {
    ElementsTail(order);
  }

  /** The subscribers are those left to visit, in some order. */
  ghost predicate Lists(order: seq<NodeId>, todo: set<NodeId>) {
    Distinct(order) && Elements(order) == todo
  }

  /** The call can complete from `w` with the broadcast's state and these visits. */
  ghost predicate Broadcasts(s: State, t: ThreadId, env: Envelope, w: World, order: seq<NodeId>, choices: seq<Choice>, v: World) {
    t < |w.threads| && Completes(w, t, choices, v) && v.sh == DoBroadcast(s, env) && VisitsOf(choices) == order
  }

  /** The rest of a broadcast left alone: the remaining subscribers in any order, the end of the loop, the counter. */
  lemma {:induction false} BroadcastRest(s: State, t: ThreadId, env: Envelope, w: World, todo: set<NodeId>, order: seq<NodeId>)
      returns (choices: seq<Choice>, v: World)
    requires SessionsInv(s) && Broadcasting(s, t, env, w, todo) && Lists(order, todo)
    ensures Broadcasts(s, t, env, w, order, choices, v)
    decreases |order|, 1
  {
    if order == [] {
      NoneLeft(order, todo);
      choices, v := LoopEnds(s, t, env, w);
    } else {
      OrderTail(order, todo);
      choices, v := VisitFirst(s, t, env, w, todo, order[0], order[1..]);
    }
  }

  lemma {:induction false} VisitFirst(s: State, t: ThreadId, env: Envelope, w: World, todo: set<NodeId>, n: NodeId, rest: seq<NodeId>)
      returns (choices: seq<Choice>, v: World)
    requires SessionsInv(s) && Broadcasting(s, t, env, w, todo) && n in todo && Lists(rest, todo - {n})
    ensures Broadcasts(s, t, env, w, [n] + rest, choices, v)
    decreases |rest| + 1, 0
  {
    StillBroadcasting(s, t, env, w, todo, n);
    choices, v := BroadcastRest(s, t, env, AfterVisit(s, t, env, w, todo, n), todo - {n}, rest);
    choices := VisitThenComplete(s, t, env, w, todo, n, choices, v);
  }

  lemma BroadcastEnds(s: State, t: ThreadId, env: Envelope, w: World)
    requires Broadcasting(s, t, env, w, {})
    ensures w.threads[t].BcNext?
    ensures w.sh.(messagesRelayed := w.sh.messagesRelayed + w.threads[t].count) == DoBroadcast(s, env)
  {
    ProgressEnds(s, env);
  }

  lemma LoopEnds(s: State, t: ThreadId, env: Envelope, w: World) returns (choices: seq<Choice>, v: World)
    requires Broadcasting(s, t, env, w, {})
    ensures Completes(w, t, choices, v) && v.sh == DoBroadcast(s, env) && VisitsOf(choices) == []
  {
    BroadcastEnds(s, t, env, w);
    choices, v := CountAlone(w, t);
  }

  lemma CountAlone(w: World, t: ThreadId) returns (choices: seq<Choice>, v: World)
    requires t < |w.threads| && w.threads[t].BcNext?
    ensures Completes(w, t, choices, v) && VisitsOf(choices) == []
    ensures v.sh == w.sh.(messagesRelayed := w.sh.messagesRelayed + w.threads[t].count)
  {
    var w1 := StepBroadcast(w, t, Finish);
    v := StepBroadcast(w1, t, Auto);
    assert w1.threads[t] == BcCount(w.threads[t].count) && v.threads[t] == Done;
    choices := Prepend(w1, t, Auto, v, [], v);
    choices := Prepend(w, t, Finish, w1, choices, v);
  }

  lemma BroadcastBegins(t: ThreadId, env: Envelope, w: World)
    requires t < |w.threads| && w.threads[t] == BcNext(env, {}, 0) && env.target in w.sh.channels
    ensures Broadcasting(w.sh, t, env, w, w.sh.channels[env.target])
  {
    ProgressEnds(w.sh, env);
    assert w.sh.channels[env.target] - w.sh.channels[env.target] == {};
  }

  lemma NobodySubscribed(s: State, env: Envelope)
    requires env.target !in s.channels
    ensures DoBroadcast(s, env) == s
  {
    assert Image(s.sessions, Recipients(s, env)) == {};
    assert DeliverTo(s.queues, {}, env) == s.queues;
  }

  lemma OwnSessions(w: World)
    requires OwnInv(w)
    ensures SessionsInv(w.sh)
  {
    forall n | n in w.sh.sessions
      ensures w.sh.sessions[n] < |w.sh.queues| && w.sh.queues[w.sh.sessions[n]].closes == 0
      ensures w.owner[w.sh.sessions[n]] == Session(n)
    {
      assert SessionOwned(w, n) && OwnerInv(w, w.sh.sessions[n]);
    }
  }

  /** The broadcast after the sender's check: the channel's lookup, and the visits in the given order. */
  lemma LoadAlone(w: World, t: ThreadId, env: Envelope, order: seq<NodeId>) returns (choices: seq<Choice>, v: World)
    requires OwnInv(w) && t < |w.threads| && w.threads[t] == BcLoad(env)
    requires env.target in w.sh.channels ==> Distinct(order) && Elements(order) == w.sh.channels[env.target]
    ensures Completes(w, t, choices, v) && v.sh == DoBroadcast(w.sh, env)
    ensures env.target in w.sh.channels ==> VisitsOf(choices) == order
  {
    var w1 := StepBroadcast(w, t, Auto);
    if env.target in w.sh.channels {
      OwnSessions(w);
      BroadcastBegins(t, env, w1);
      choices, v := BroadcastRest(w.sh, t, env, w1, w.sh.channels[env.target], order);
    } else {
      NobodySubscribed(w.sh, env);
      choices, v := [], w1;
    }
    choices := Prepend(w, t, Auto, w1, choices, v);
  }

  /**
   A broadcasting call left alone, from its first step: whatever order Range yields the subscribers
   in, it can complete so, and then leaves exactly the state of the atomic operation.
  */
  lemma BroadcastAlone(w: World, t: ThreadId, env: Envelope, order: seq<NodeId>) returns (choices: seq<Choice>, v: World)
    requires OwnInv(w) && t < |w.threads| && w.threads[t] == FwCheck(env) && IsChannel(env.target)
    requires env.target in w.sh.channels ==> Distinct(order) && Elements(order) == w.sh.channels[env.target]
    ensures Completes(w, t, choices, v) && v.sh == DoForward(w.sh, env).0
    ensures env.sender !in w.sh.blacklist && env.target in w.sh.channels ==> VisitsOf(choices) == order
  {
    var w1 := StepForward(w, t);
    if env.sender in w.sh.blacklist {
      choices, v := [], w1;
    } else {
      OwnForward(w, t);
      choices, v := LoadAlone(w1, t, env, order);
    }
    choices := Prepend(w, t, Auto, w1, choices, v);
  }
}
