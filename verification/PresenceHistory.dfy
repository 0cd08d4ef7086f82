/**
 Who is present after a run, and what registrations and heartbeats answer, said from the operations of
 the run alone.
*/
module PresenceHistory {
  import opened Common
  import opened Presence

  /** Seen at time `at`, since then with this registration and this last reported status. */
  datatype Sighting = Sighting(node: Node, at: int)

  /** A sighting counts for the time to live, that instant included; without one, for ever. */
  predicate Counts(seen: Option<Sighting>, ttl: int, now: int) {
    seen.Some? && (ttl <= 0 || now <= seen.value.at + ttl)
  }

  /** Whether `id` is banned at `now` after the run, by the bans and unbans of the run. */
  predicate BannedThen(ops: seq<Op>, id: NodeId, now: int) {
    EagerAnswer(EagerRow(ops, id), now).banned
  }

  /**
   What one operation makes of the sighting of `id`: an accepted registration is a new one, a heartbeat
   that finds it counting and not banned renews it, a removal or a moderator's ban wipes it out.
  */
  function SeenAfter(seen: Option<Sighting>, banned: bool, op: Op, id: NodeId, ttl: int): Option<Sighting> {
    match op
    case Register(node, identityOk, _, now) =>
      if node.id == id && identityOk && !banned then Some(Sighting(node, now)) else seen
    case Heartbeat(id', status, now) =>
      if id' == id && Counts(seen, ttl, now) && !banned
      then Some(Sighting(seen.value.node.(status := status), now)) else seen
    case Remove(id', _) => if id' == id then None else seen
    case ModeratorBan(id', _, _, _) => if id' == id then None else seen
    case AdminBan(_, _, _, _) => seen
    case Unban(_, _) => seen
    case Ask(_, _) => seen
  }

  /** The last sighting of `id` in a run. */
  function LastSeen(ops: seq<Op>, id: NodeId, ttl: int): Option<Sighting> {
    if ops == [] then None
    else
      var before, op := ops[..|ops| - 1], ops[|ops| - 1];
      SeenAfter(LastSeen(before, id, ttl), BannedThen(before, id, op.now), op, id, ttl)
  }

  /** The store's entry is the last sighting. */
  ghost predicate Remembers(store: Store, id: NodeId, seen: Option<Sighting>, ttl: int) {
    match seen
    case None => id !in store
    case Some(s) => id in store && store[id] == Entry(s.node, if ttl > 0 then Some(s.at + ttl) else None)
  }

  lemma RemembersNow(store: Store, id: NodeId, seen: Option<Sighting>, ttl: int, now: int)
    requires Remembers(store, id, seen, ttl)
    ensures GetNode(store, id, now) == if Counts(seen, ttl, now) then Some(seen.value.node) else None
  {
  }

  lemma RememberStep(s: State, seen: Option<Sighting>, op: Op, id: NodeId, ttl: int)
    requires Remembers(s.store, id, seen, ttl)
    ensures Remembers(Apply(s, op, ttl).store, id, SeenAfter(seen, QueryBan(s.rows, id, op.now).1.banned, op, id, ttl), ttl)
  {
    if op.Heartbeat? {
      RemembersNow(s.store, id, seen, ttl, op.now);
    }
  }

  lemma {:induction false} RememberRun(ops: seq<Op>, ttl: int, id: NodeId, now: int)
    requires Monotone(ops, now)
    ensures Remembers(Run(ops, ttl).store, id, LastSeen(ops, id, ttl), ttl)
  {
    if ops != [] {
      var before, op := ops[..|ops| - 1], ops[|ops| - 1];
      MonotoneInit(ops, now);
      RememberRun(before, ttl, id, op.now);
      LazyBanIsExact(before, ttl, id, op.now);
      RememberStep(Run(before, ttl), LastSeen(before, id, ttl), op, id, ttl);
    }
  }

  /**
   Presence, exactly: in every run with a nondecreasing clock the store has a node at a time if and
   only if its last accepted registration or heartbeat is not longer ago than the time to live and no
   removal or moderator's ban came later; and then it has what was last registered, with the status of
   the last heartbeat.
  */
  lemma PresentExactly(ops: seq<Op>, ttl: int, id: NodeId, now: int)
    requires Monotone(ops, now)
    ensures GetNode(Run(ops, ttl).store, id, now) ==
            var seen := LastSeen(ops, id, ttl); if Counts(seen, ttl, now) then Some(seen.value.node) else None
  {
    RememberRun(ops, ttl, id, now);
    RemembersNow(Run(ops, ttl).store, id, LastSeen(ops, id, ttl), ttl, now);
  }

  /** After any run a registration answers by its identity check and by the bans of the run. */
  lemma RegistrationAnswers(ops: seq<Op>, ttl: int, node: Node, identityOk: bool, upsertOk: bool, now: int)
    requires Monotone(ops, now)
    ensures DoRegister(Run(ops, ttl), node, identityOk, upsertOk, now, ttl).1 ==
            if !identityOk then InvalidIdentity
            else if BannedThen(ops, node.id, now) then NodeBanned(EagerAnswer(EagerRow(ops, node.id), now).reason)
            else Accepted
  {
    LazyBanIsExact(ops, ttl, node.id, now);
  }

  /** After any run a heartbeat answers by the last sighting and by the bans of the run. */
  lemma HeartbeatAnswers(ops: seq<Op>, ttl: int, id: NodeId, status: int, now: int)
    requires Monotone(ops, now)
    ensures DoHeartbeat(Run(ops, ttl), id, status, now, ttl).1 ==
            if !Counts(LastSeen(ops, id, ttl), ttl, now) then NotFound
            else if BannedThen(ops, id, now) then NodeBanned(EagerAnswer(EagerRow(ops, id), now).reason)
            else Accepted
  {
    PresentExactly(ops, ttl, id, now);
    LazyBanIsExact(ops, ttl, id, now);
  }

  /** A registered, unbanned node stays present through the whole time to live if nothing removes it. */
  lemma RegisteredStaysPresent(ops: seq<Op>, node: Node, upsertOk: bool, ttl: int, at: int, now: int)
    requires Monotone(ops, at) && !BannedThen(ops, node.id, at) && at <= now && (ttl <= 0 || now <= at + ttl)
    ensures GetNode(Run(ops + [Register(node, true, upsertOk, at)], ttl).store, node.id, now) == Some(node)
  {
    var all := ops + [Register(node, true, upsertOk, at)];
    assert all[..|ops|] == ops;
    PresentExactly(all, ttl, node.id, now);
  }
}
