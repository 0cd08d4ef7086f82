/**
 Registrations, heartbeats and bans broken into their steps on the two stores and run by any number
 of threads: the ban check, the clearing of an expired ban, the read and write of the presence entry
 and the row write are separate, as are a moderator's ban and the removal that follows it.
*/
module PresenceSteps {
  import opened Common
  import opened Presence

  type ThreadId = nat

  /** Where a thread stands; the fields are its local variables. */
  datatype Pc =
    | Done
    // RegisterNode, once the identity was accepted
    | RegCheck(node: Node, upsertOk: bool)
    | RegClear(node: Node, upsertOk: bool)
    | RegStore(node: Node, upsertOk: bool)
    | RegRow(node: Node, upsertOk: bool)
    // Heartbeat, then RefreshHeartbeat
    | HbGet(id: NodeId, status: int)
    | HbCheck(id: NodeId, status: int)
    | HbClear(id: NodeId, status: int)
    | HbRead(id: NodeId, status: int)
    | HbWrite(id: NodeId, refreshed: Node)
    // an administrator's or a moderator's ban
    | BanRow(id: NodeId, reason: string, duration: int, moderated: bool)
    | BanRemove(id: NodeId)
    // UnbanNode, RemoveNode
    | UnbanRow(id: NodeId)
    | Remove(id: NodeId)

  predicate IsEntry(pc: Pc) {
    pc.RegCheck? || pc.HbGet? || pc.BanRow? || pc.UnbanRow? || pc.Remove?
  }

  datatype World = World(store: Store, rows: Table, threads: seq<Pc>)

  const START := World(map[], map[], [])

  datatype Action = Spawn(pc: Pc, now: int) | Step(t: ThreadId, now: int)

  predicate Banned(w: World, id: NodeId, now: int) {
    QueryBan(w.rows, id, now).1.banned
  }

  predicate HasExpiredBan(w: World, id: NodeId, now: int) {
    id in w.rows && w.rows[id].banned && w.rows[id].expires.Some? && now > w.rows[id].expires.value
  }

  function Goto(w: World, t: ThreadId, pc: Pc): World
    requires t < |w.threads|
  {
    w.(threads := w.threads[t := pc])
  }

  function StepRegister(w: World, t: ThreadId, now: int, ttl: int): World
    requires t < |w.threads|
  {
    match w.threads[t]
    case RegCheck(node, ok) =>
      Goto(w, t, if Banned(w, node.id, now) then Done
                 else if HasExpiredBan(w, node.id, now) then RegClear(node, ok) else RegStore(node, ok))
    case RegClear(node, ok) => Goto(w, t, RegStore(node, ok)).(rows := ClearBan(w.rows, node.id))
    case RegStore(node, ok) => Goto(w, t, RegRow(node, ok)).(store := SetNode(w.store, node, now, ttl))
    case RegRow(node, ok) => Goto(w, t, Done).(rows := if ok then Upsert(w.rows, node.id) else w.rows)
    case _ => w
  }

  function StepHeartbeat(w: World, t: ThreadId, now: int, ttl: int): World
    requires t < |w.threads|
  {
    match w.threads[t]
    case HbGet(id, status) => Goto(w, t, if GetNode(w.store, id, now).None? then Done else HbCheck(id, status))
    case HbCheck(id, status) =>
      Goto(w, t, if Banned(w, id, now) then Done
                 else if HasExpiredBan(w, id, now) then HbClear(id, status) else HbRead(id, status))
    case HbClear(id, status) => Goto(w, t, HbRead(id, status)).(rows := ClearBan(w.rows, id))
    case HbRead(id, status) =>
      Goto(w, t, match GetNode(w.store, id, now)
                 case None => Done
                 case Some(node) => HbWrite(id, node.(status := status)))
    case HbWrite(id, node) => Goto(w, t, Done).(store := w.store[id := Entry(node, Expiry(now, ttl))])
    case _ => w
  }

  function StepBan(w: World, t: ThreadId, now: int): World
    requires t < |w.threads|
  {
    match w.threads[t]
    case BanRow(id, reason, duration, moderated) =>
      Goto(w, t, if moderated then BanRemove(id) else Done)
        .(rows := SetBan(w.rows, id, reason, BanExpiry(duration, now)))
    case BanRemove(id) => Goto(w, t, Done).(store := w.store - {id})
    case UnbanRow(id) => Goto(w, t, Done).(rows := ClearBan(w.rows, id))
    case Remove(id) => Goto(w, t, Done).(store := w.store - {id})
    case _ => w
  }

  function StepThread(w: World, t: ThreadId, now: int, ttl: int): World
    requires t < |w.threads|
  {
    var pc := w.threads[t];
    if pc.RegCheck? || pc.RegClear? || pc.RegStore? || pc.RegRow? then StepRegister(w, t, now, ttl)
    else if pc.HbGet? || pc.HbCheck? || pc.HbClear? || pc.HbRead? || pc.HbWrite? then StepHeartbeat(w, t, now, ttl)
    else StepBan(w, t, now)
  }

  function Act(w: World, a: Action, ttl: int): World {
    match a
    case Spawn(pc, now) => if IsEntry(pc) then w.(threads := w.threads + [pc]) else w
    case Step(t, now) => if t < |w.threads| then StepThread(w, t, now, ttl) else w
  }

  function Exec(w: World, acts: seq<Action>, ttl: int): World {
    if acts == [] then w else Act(Exec(w, acts[..|acts| - 1], ttl), acts[|acts| - 1], ttl)
  }

  // ---------------------------------------------------------------------------------------
  // Stores in flight
  // ---------------------------------------------------------------------------------------

  /** At every step of a continuation `id` is banned at that step's time. */
  ghost predicate InForce(w: World, acts: seq<Action>, ttl: int, id: NodeId) {
    forall i :: 0 <= i < |acts| ==> Banned(Exec(w, acts[..i], ttl), id, acts[i].now)
  }

  /** The thread's next step stores `id`, whatever has been banned since its check. */
  predicate Pending(pc: Pc, id: NodeId) {
    (pc.RegStore? && pc.node.id == id) || (pc.HbWrite? && pc.id == id)
  }

  /** The thread is past its ban check of `id` and may still store it. */
  predicate InFlight(pc: Pc, id: NodeId) {
    Pending(pc, id) || (pc.HbRead? && pc.id == id)
  }

  ghost predicate NonePending(w: World, id: NodeId) {
    forall t :: 0 <= t < |w.threads| ==> !Pending(w.threads[t], id)
  }

  /** The row says nothing against `id` at any time. */
  predicate Cleared(w: World, id: NodeId) {
    id !in w.rows || !w.rows[id].banned
  }

  lemma InForceInit(w: World, acts: seq<Action>, ttl: int, id: NodeId)
    requires acts != [] && InForce(w, acts, ttl, id)
    ensures InForce(w, acts[..|acts| - 1], ttl, id)
    ensures Banned(Exec(w, acts[..|acts| - 1], ttl), id, acts[|acts| - 1].now)
  {
    var before := acts[..|acts| - 1];
    forall i | 0 <= i < |before| ensures Banned(Exec(w, before[..i], ttl), id, before[i].now) {
      assert before[..i] == acts[..i];
    }
  }

  /** Only the stepping thread moves. */
  lemma OthersStay(w: World, t: ThreadId, now: int, ttl: int)
    requires t < |w.threads|
    ensures var v := StepThread(w, t, now, ttl); v.threads == w.threads[t := v.threads[t]]
  {
  }

  /** What a thread's step does to `id` at a time when `id` is banned. */
  lemma BannedEffect(w: World, t: ThreadId, now: int, ttl: int, id: NodeId)
    requires t < |w.threads| && Banned(w, id, now)
    ensures var v := StepThread(w, t, now, ttl);
            && (id in v.store && (id !in w.store || v.store[id] != w.store[id]) ==>
                  Pending(w.threads[t], id) && v.store[id].expires == Expiry(now, ttl))
            && (Pending(v.threads[t], id) ==> Cleared(v, id) || (w.threads[t].HbRead? && w.threads[t].id == id && id in w.store))
            && (InFlight(v.threads[t], id) ==> Cleared(v, id) || InFlight(w.threads[t], id))
  {
  }

  /** Absent, and no store of `id` is about to happen; or the ban is gone. */
  ghost predicate StaysAbsent(w: World, id: NodeId) {
    id !in w.store && (NonePending(w, id) || Cleared(w, id))
  }

  lemma AbsentStep(w: World, a: Action, ttl: int, id: NodeId)
    requires StaysAbsent(w, id) && Banned(w, id, a.now)
    ensures StaysAbsent(Act(w, a, ttl), id)
  {
    if a.Step? && a.t < |w.threads| {
      BannedEffect(w, a.t, a.now, ttl, id);
      OthersStay(w, a.t, a.now, ttl);
    }
  }

  lemma {:induction false} AbsentExec(w: World, acts: seq<Action>, ttl: int, id: NodeId)
    requires StaysAbsent(w, id) && InForce(w, acts, ttl, id)
    ensures StaysAbsent(Exec(w, acts, ttl), id)
  {
    if acts != [] {
      InForceInit(w, acts, ttl, id);
      AbsentExec(w, acts[..|acts| - 1], ttl, id);
      AbsentStep(Exec(w, acts[..|acts| - 1], ttl), acts[|acts| - 1], ttl, id);
    }
  }

  ghost predicate AbsentWhileBanned(w: World, ttl: int, id: NodeId) {
    forall acts :: InForce(w, acts, ttl, id) ==> id !in Exec(w, acts, ttl).store
  }

  /** A pending store brings the node back, although it is banned all the time. */
  lemma PendingStores(w: World, t: ThreadId, now: int, ttl: int, id: NodeId)
    requires t < |w.threads| && Pending(w.threads[t], id) && Banned(w, id, now)
    ensures InForce(w, [Step(t, now)], ttl, id) && id in Exec(w, [Step(t, now)], ttl).store
  {
    var acts := [Step(t, now)];
    assert acts[..0] == [] && Exec(w, [], ttl) == w;
    assert Exec(w, acts, ttl) == Act(w, Step(t, now), ttl);
  }

  /**
   When an absent, banned node stays absent, exactly: in all continuations during which the ban is in
   force the store does not have it, if and only if no thread past its ban check is about to store it.
  */
  lemma AbsentExactly(w: World, now: int, ttl: int, id: NodeId)
    requires id !in w.store && Banned(w, id, now)
    ensures AbsentWhileBanned(w, ttl, id) <==> NonePending(w, id)
  {
    if NonePending(w, id) {
      forall acts | InForce(w, acts, ttl, id) ensures id !in Exec(w, acts, ttl).store {
        AbsentExec(w, acts, ttl, id);
      }
    } else {
      var t :| 0 <= t < |w.threads| && Pending(w.threads[t], id);
      PendingStores(w, t, now, ttl, id);
    }
  }

  /** A moderator's removal is final while the ban is in force if and only if no store is pending when it happens. */
  lemma RemovalFinalExactly(w: World, t: ThreadId, now: int, ttl: int, id: NodeId)
    requires t < |w.threads| && w.threads[t] == BanRemove(id) && Banned(w, id, now)
    ensures id !in StepThread(w, t, now, ttl).store
    ensures AbsentWhileBanned(StepThread(w, t, now, ttl), ttl, id) <==> NonePending(w, id)
  {
    var v := StepThread(w, t, now, ttl);
    assert v.threads == w.threads[t := Done];
    assert NonePending(v, id) <==> NonePending(w, id) by {
      forall u | 0 <= u < |w.threads| ensures Pending(v.threads[u], id) <==> Pending(w.threads[u], id) { }
    }
    AbsentExactly(v, now, ttl, id);
  }

  // ---------------------------------------------------------------------------------------
  // The bound on presence
  // ---------------------------------------------------------------------------------------

  /** The step writes an entry for `id`. */
  predicate StoresNode(w: World, a: Action, id: NodeId) {
    a.Step? && a.t < |w.threads| && Pending(w.threads[a.t], id)
  }

  /** Every thread that may store `id` was already in flight in `w`; or the ban is gone. */
  ghost predicate OnlyOldFlights(w: World, v: World, id: NodeId) {
    Cleared(v, id) ||
    forall t :: 0 <= t < |v.threads| && InFlight(v.threads[t], id) ==> t < |w.threads| && InFlight(w.threads[t], id)
  }

  lemma FlightsStep(w: World, v: World, a: Action, ttl: int, id: NodeId)
    requires OnlyOldFlights(w, v, id) && Banned(v, id, a.now)
    ensures OnlyOldFlights(w, Act(v, a, ttl), id)
  {
    if a.Step? && a.t < |v.threads| {
      BannedEffect(v, a.t, a.now, ttl, id);
      OthersStay(v, a.t, a.now, ttl);
    }
  }

  lemma {:induction false} FlightsExec(w: World, acts: seq<Action>, ttl: int, id: NodeId)
    requires InForce(w, acts, ttl, id)
    ensures OnlyOldFlights(w, Exec(w, acts, ttl), id)
  {
    if acts != [] {
      InForceInit(w, acts, ttl, id);
      FlightsExec(w, acts[..|acts| - 1], ttl, id);
      FlightsStep(w, Exec(w, acts[..|acts| - 1], ttl), acts[|acts| - 1], ttl, id);
    }
  }

  /** While `id` is banned, only a thread that was past its check before the ban stores it. */
  lemma OnlyFlightsStore(w: World, acts: seq<Action>, a: Action, ttl: int, id: NodeId)
    requires InForce(w, acts, ttl, id) && Banned(Exec(w, acts, ttl), id, a.now) && StoresNode(Exec(w, acts, ttl), a, id)
    ensures a.t < |w.threads| && InFlight(w.threads[a.t], id)
  {
    FlightsExec(w, acts, ttl, id);
  }

  /** The threads in flight in `w` take no step on `id`'s entry after `last`. */
  ghost predicate LandedBy(w: World, acts: seq<Action>, id: NodeId, last: int) {
    forall i :: 0 <= i < |acts| && acts[i].Step? && acts[i].t < |w.threads| && InFlight(w.threads[acts[i].t], id) ==>
      acts[i].now <= last
  }

  lemma {:induction false} ExpiryExec(w: World, acts: seq<Action>, ttl: int, id: NodeId, last: int)
    requires ttl > 0 && InForce(w, acts, ttl, id) && LandedBy(w, acts, id, last) && ExpiresBy(w.store, id, last + ttl)
    ensures ExpiresBy(Exec(w, acts, ttl).store, id, last + ttl)
  {
    if acts != [] {
      var before, a := acts[..|acts| - 1], acts[|acts| - 1];
      var v := Exec(w, before, ttl);
      InForceInit(w, acts, ttl, id);
      ExpiryExec(w, before, ttl, id, last);
      if a.Step? && a.t < |v.threads| {
        BannedEffect(v, a.t, a.now, ttl, id);
        if StoresNode(v, a, id) { OnlyFlightsStore(w, before, a, ttl, id); }
      }
    }
  }

  ghost predicate Until(acts: seq<Action>, latest: int) {
    forall i :: 0 <= i < |acts| ==> acts[i].now <= latest
  }

  lemma ExpiryStep(w: World, a: Action, ttl: int, id: NodeId, latest: int)
    requires ttl > 0 && a.now <= latest && ExpiresBy(w.store, id, latest + ttl)
    ensures ExpiresBy(Act(w, a, ttl).store, id, latest + ttl)
  {
  }

  lemma {:induction false} StoreExpiresBy(acts: seq<Action>, ttl: int, id: NodeId, latest: int)
    requires ttl > 0 && Until(acts, latest)
    ensures ExpiresBy(Exec(START, acts, ttl).store, id, latest + ttl)
  {
    if acts != [] {
      StoreExpiresBy(acts[..|acts| - 1], ttl, id, latest);
      ExpiryStep(Exec(START, acts[..|acts| - 1], ttl), acts[|acts| - 1], ttl, id, latest);
    }
  }

  /**
   A ban bounds presence in every interleaving: after any run up to the time b of a ban, while the ban
   is in force, once the stores in flight at the ban have landed by `last` the node is absent at every
   time past last + ttl. With nothing in flight, that is past b + ttl.
  */
  lemma BanBoundsPresenceInterleaved(before: seq<Action>, acts: seq<Action>, ttl: int, id: NodeId, b: int, last: int, now: int)
    requires ttl > 0 && Until(before, b) && b <= last && last + ttl < now
    requires InForce(Exec(START, before, ttl), acts, ttl, id)
    requires LandedBy(Exec(START, before, ttl), acts, id, last)
    ensures GetNode(Exec(Exec(START, before, ttl), acts, ttl).store, id, now) == None
  {
    StoreExpiresBy(before, ttl, id, b);
    ExpiryExec(Exec(START, before, ttl), acts, ttl, id, last);
  }

  // ---------------------------------------------------------------------------------------
  // A thread left alone computes the whole operation
  // ---------------------------------------------------------------------------------------

  function Steps(w: World, t: ThreadId, now: int, ttl: int, n: nat): World
    requires t < |w.threads|
    decreases n
  {
    if n == 0 || |StepThread(w, t, now, ttl).threads| <= t then w
    else Steps(StepThread(w, t, now, ttl), t, now, ttl, n - 1)
  }

  function Stores(w: World): State {
    State(w.store, w.rows)
  }

  lemma OneStep(w: World, t: ThreadId, now: int, ttl: int, n: nat)
    requires t < |w.threads| && 0 < n
    ensures |StepThread(w, t, now, ttl).threads| == |w.threads|
    ensures Steps(w, t, now, ttl, n) == Steps(StepThread(w, t, now, ttl), t, now, ttl, n - 1)
  {
  }

  lemma {:induction false} DoneStays(w: World, t: ThreadId, now: int, ttl: int, n: nat)
    requires t < |w.threads| && w.threads[t] == Done
    ensures Steps(w, t, now, ttl, n) == w
  {
    if n > 0 { DoneStays(w, t, now, ttl, n - 1); }
  }

  lemma StoreAlone(w: World, t: ThreadId, node: Node, ok: bool, now: int, ttl: int, n: nat)
    requires t < |w.threads| && w.threads[t] == RegStore(node, ok) && 2 <= n
    ensures Steps(w, t, now, ttl, n).threads == w.threads[t := Done]
    ensures Stores(Steps(w, t, now, ttl, n)) ==
            State(SetNode(w.store, node, now, ttl), if ok then Upsert(w.rows, node.id) else w.rows)
  {
    OneStep(w, t, now, ttl, n);
    var w1 := StepThread(w, t, now, ttl);
    OneStep(w1, t, now, ttl, n - 1);
    DoneStays(StepThread(w1, t, now, ttl), t, now, ttl, n - 2);
  }

  lemma RegisterAlone(w: World, t: ThreadId, node: Node, ok: bool, now: int, ttl: int)
    requires t < |w.threads| && w.threads[t] == RegCheck(node, ok)
    ensures Steps(w, t, now, ttl, 4).threads == w.threads[t := Done]
    ensures Stores(Steps(w, t, now, ttl, 4)) == DoRegister(Stores(w), node, true, ok, now, ttl).0
  {
    OneStep(w, t, now, ttl, 4);
    var w1 := StepThread(w, t, now, ttl);
    if Banned(w, node.id, now) {
      DoneStays(w1, t, now, ttl, 3);
    } else if HasExpiredBan(w, node.id, now) {
      OneStep(w1, t, now, ttl, 3);
      StoreAlone(StepThread(w1, t, now, ttl), t, node, ok, now, ttl, 2);
    } else {
      StoreAlone(w1, t, node, ok, now, ttl, 3);
    }
  }

  lemma RefreshAlone(w: World, t: ThreadId, id: NodeId, status: int, now: int, ttl: int, n: nat)
    requires t < |w.threads| && w.threads[t] == HbRead(id, status) && GetNode(w.store, id, now).Some? && 2 <= n
    ensures Steps(w, t, now, ttl, n).threads == w.threads[t := Done]
    ensures Stores(Steps(w, t, now, ttl, n)) ==
            State(w.store[id := Entry(GetNode(w.store, id, now).value.(status := status), Expiry(now, ttl))], w.rows)
  {
    OneStep(w, t, now, ttl, n);
    var w1 := StepThread(w, t, now, ttl);
    OneStep(w1, t, now, ttl, n - 1);
    DoneStays(StepThread(w1, t, now, ttl), t, now, ttl, n - 2);
  }

  lemma HeartbeatAlone(w: World, t: ThreadId, id: NodeId, status: int, now: int, ttl: int)
    requires t < |w.threads| && w.threads[t] == HbGet(id, status)
    ensures Steps(w, t, now, ttl, 5).threads == w.threads[t := Done]
    ensures Stores(Steps(w, t, now, ttl, 5)) == DoHeartbeat(Stores(w), id, status, now, ttl).0
  {
    OneStep(w, t, now, ttl, 5);
    var w1 := StepThread(w, t, now, ttl);
    if GetNode(w.store, id, now).None? {
      DoneStays(w1, t, now, ttl, 4);
    } else {
      OneStep(w1, t, now, ttl, 4);
      var w2 := StepThread(w1, t, now, ttl);
      if Banned(w, id, now) {
        DoneStays(w2, t, now, ttl, 3);
      } else if HasExpiredBan(w, id, now) {
        OneStep(w2, t, now, ttl, 3);
        RefreshAlone(StepThread(w2, t, now, ttl), t, id, status, now, ttl, 2);
      } else {
        RefreshAlone(w2, t, id, status, now, ttl, 3);
      }
    }
  }

  lemma BanAlone(w: World, t: ThreadId, id: NodeId, reason: string, duration: int, moderated: bool, now: int, ttl: int)
    requires t < |w.threads| && w.threads[t] == BanRow(id, reason, duration, moderated)
    ensures Steps(w, t, now, ttl, 2).threads == w.threads[t := Done]
    ensures Stores(Steps(w, t, now, ttl, 2)) ==
            if moderated then DoModeratorBan(Stores(w), id, reason, duration, now)
            else DoAdminBan(Stores(w), id, reason, duration, now)
  {
    OneStep(w, t, now, ttl, 2);
    OneStep(StepThread(w, t, now, ttl), t, now, ttl, 1);
  }

  /** Lifting a ban and removing a node are one step each. */
  lemma UnbanAndRemoveAlone(w: World, t: ThreadId, id: NodeId, now: int, ttl: int)
    requires t < |w.threads|
    ensures w.threads[t] == UnbanRow(id) ==>
              Stores(Steps(w, t, now, ttl, 1)) == Apply(Stores(w), Op.Unban(id, now), ttl)
    ensures w.threads[t] == Pc.Remove(id) ==>
              Stores(Steps(w, t, now, ttl, 1)) == Apply(Stores(w), Op.Remove(id, now), ttl)
  {
    OneStep(w, t, now, ttl, 1);
  }

  // ---------------------------------------------------------------------------------------
  // A removal that is not final
  // ---------------------------------------------------------------------------------------

  lemma Extend(acts: seq<Action>, w: World, a: Action, ttl: int)
    requires Exec(START, acts, ttl) == w
    ensures Exec(START, acts + [a], ttl) == Act(w, a, ttl)
  {
    assert (acts + [a])[..|acts|] == acts;
  }

  /** The node registers, and a second registration of it passes its check. */
  lemma SecondRegistration(node: Node, ttl: int, b: int) returns (acts: seq<Action>, w: World)
    ensures Exec(START, acts, ttl) == w && w.rows == map[node.id := CLEAR]
    ensures w.threads == [Done, RegStore(node, true)]
  {
    acts, w := FirstRegistration(node, ttl, b);
    Extend(acts, w, Spawn(RegCheck(node, true), b), ttl);
    acts, w := acts + [Spawn(RegCheck(node, true), b)], Act(w, Spawn(RegCheck(node, true), b), ttl);
    Extend(acts, w, Step(1, b), ttl);
    acts, w := acts + [Step(1, b)], StepRegister(w, 1, b, ttl);
  }

  lemma FirstRegistration(node: Node, ttl: int, b: int) returns (acts: seq<Action>, w: World)
    ensures Exec(START, acts, ttl) == w && w.rows == map[node.id := CLEAR] && w.threads == [Done]
  {
    acts, w := [], START;
    Extend(acts, w, Spawn(RegCheck(node, true), b), ttl);
    acts, w := acts + [Spawn(RegCheck(node, true), b)], Act(w, Spawn(RegCheck(node, true), b), ttl);
    Extend(acts, w, Step(0, b), ttl);
    acts, w := acts + [Step(0, b)], StepRegister(w, 0, b, ttl);
    assert w.threads == [RegStore(node, true)];
    Extend(acts, w, Step(0, b), ttl);
    acts, w := acts + [Step(0, b)], StepRegister(w, 0, b, ttl);
    assert w.threads == [RegRow(node, true)] && w.rows == map[];
    Extend(acts, w, Step(0, b), ttl);
    acts, w := acts + [Step(0, b)], StepRegister(w, 0, b, ttl);
  }

  /** A moderator bans and removes a node whose registration is past its check: the registration stores it again. */
  lemma RemovalIsNotFinal(node: Node, ttl: int, b: int) returns (acts: seq<Action>, w: World, t: ThreadId)
    ensures Exec(START, acts, ttl) == w && t < |w.threads| && w.threads[t] == BanRemove(node.id) && Banned(w, node.id, b)
    ensures !AbsentWhileBanned(StepThread(w, t, b, ttl), ttl, node.id)
  {
    acts, w := SecondRegistration(node, ttl, b);
    var ban := BanRow(node.id, "spam", 0, true);
    Extend(acts, w, Spawn(ban, b), ttl);
    acts, w := acts + [Spawn(ban, b)], Act(w, Spawn(ban, b), ttl);
    assert w.threads == [Done, RegStore(node, true), ban];
    Extend(acts, w, Step(2, b), ttl);
    acts, w, t := acts + [Step(2, b)], StepBan(w, 2, b), 2;
    assert Pending(w.threads[1], node.id);
    RemovalFinalExactly(w, t, b, ttl, node.id);
  }
}
