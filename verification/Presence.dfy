/**
 Node registration, heartbeats and bans. Presence lives in a store whose entries expire (Redis);
 bans live in a table of nodes (PostgreSQL) and an expired ban is cleared only when somebody asks.
 Both stores are maps whose writes succeed, except the registration's row write, whose failure the
 service ignores. Instants are integers and each call happens at one instant.
*/
module Presence {
  import opened Common

  type NodeId = string

  datatype NodeKind = Unspecified | Desktop | Relay | Mobile | Web

  datatype Node = Node(id: NodeId, kind: NodeKind, region: string, status: int)

  /** A stored node and the instant after which the store no longer has it. */
  datatype Entry = Entry(node: Node, expires: Option<int>)

  type Store = map<NodeId, Entry>

  /** The ban columns of a node's row. */
  datatype Row = Row(banned: bool, reason: Option<string>, expires: Option<int>)

  type Table = map<NodeId, Row>

  const CLEAR := Row(false, None, None)

  // ---------------------------------------------------------------------------------------
  // The expiring store
  // ---------------------------------------------------------------------------------------

  /** SET with an expiration; the client library sends none unless the duration is positive. */
  function Expiry(now: int, ttl: int): Option<int> {
    if ttl > 0 then Some(now + ttl) else None
  }

  function SetNode(store: Store, node: Node, now: int, ttl: int): Store {
    store[node.id := Entry(node, Expiry(now, ttl))]
  }

  predicate Live(e: Entry, now: int) {
    e.expires.None? || now <= e.expires.value
  }

  function GetNode(store: Store, id: NodeId, now: int): Option<Node> {
    if id in store && Live(store[id], now) then Some(store[id].node) else None
  }

  // ---------------------------------------------------------------------------------------
  // The ban table
  // ---------------------------------------------------------------------------------------

  /** Insert or update; the update leaves the ban columns alone. */
  function Upsert(rows: Table, id: NodeId): Table {
    if id in rows then rows else rows[id := CLEAR]
  }

  /** UPDATE: without a row nothing happens. */
  function SetBan(rows: Table, id: NodeId, reason: string, expires: Option<int>): Table {
    if id in rows then rows[id := Row(true, Some(reason), expires)] else rows
  }

  function ClearBan(rows: Table, id: NodeId): Table {
    if id in rows then rows[id := CLEAR] else rows
  }

  datatype Answer = Answer(banned: bool, reason: string)

  /** The lazy query: clears an expired ban and then says no. */
  function QueryBan(rows: Table, id: NodeId, now: int): (Table, Answer) {
    if id !in rows then (rows, Answer(false, ""))
    else
      var row := rows[id];
      if row.banned && row.expires.Some? && now > row.expires.value then (ClearBan(rows, id), Answer(false, ""))
      else (rows, Answer(row.banned, if row.reason.Some? then row.reason.value else ""))
  }

  // ---------------------------------------------------------------------------------------
  // Operations of the services
  // ---------------------------------------------------------------------------------------

  datatype State = State(store: Store, rows: Table)

  datatype Outcome = Accepted | InvalidIdentity | NodeBanned(reason: string) | NotFound

  function DoRegister(s: State, node: Node, identityOk: bool, upsertOk: bool, now: int, ttl: int): (State, Outcome) {
    if !identityOk then (s, InvalidIdentity)
    else
      var (rows, answer) := QueryBan(s.rows, node.id, now);
      if answer.banned then (s.(rows := rows), NodeBanned(answer.reason))
      else (State(SetNode(s.store, node, now, ttl), if upsertOk then Upsert(rows, node.id) else rows), Accepted)
  }

  function DoHeartbeat(s: State, id: NodeId, status: int, now: int, ttl: int): (State, Outcome) {
    var node := GetNode(s.store, id, now);
    if node.None? then (s, NotFound)
    else
      var (rows, answer) := QueryBan(s.rows, id, now);
      if answer.banned then (s.(rows := rows), NodeBanned(answer.reason))
      else (State(s.store[id := Entry(node.value.(status := status), Expiry(now, ttl))], rows), Accepted)
  }

  function BanExpiry(duration: int, now: int): Option<int> {
    if duration > 0 then Some(now + duration) else None
  }

  /** The administrator's ban touches the row only. */
  function DoAdminBan(s: State, id: NodeId, reason: string, duration: int, now: int): State {
    s.(rows := SetBan(s.rows, id, reason, BanExpiry(duration, now)))
  }

  /** A moderator's ban also removes the node from the store. */
  function DoModeratorBan(s: State, id: NodeId, reason: string, duration: int, now: int): State {
    State(s.store - {id}, SetBan(s.rows, id, reason, BanExpiry(duration, now)))
  }

  datatype Op =
    | Register(node: Node, identityOk: bool, upsertOk: bool, now: int)
    | Heartbeat(id: NodeId, status: int, now: int)
    | AdminBan(id: NodeId, reason: string, duration: int, now: int)
    | ModeratorBan(id: NodeId, reason: string, duration: int, now: int)
    | Unban(id: NodeId, now: int)
    | Remove(id: NodeId, now: int)
    | Ask(id: NodeId, now: int)

  function Apply(s: State, op: Op, ttl: int): State {
    match op
    case Register(node, identityOk, upsertOk, now) => DoRegister(s, node, identityOk, upsertOk, now, ttl).0
    case Heartbeat(id, status, now) => DoHeartbeat(s, id, status, now, ttl).0
    case AdminBan(id, reason, duration, now) => DoAdminBan(s, id, reason, duration, now)
    case ModeratorBan(id, reason, duration, now) => DoModeratorBan(s, id, reason, duration, now)
    case Unban(id, now) => s.(rows := ClearBan(s.rows, id))
    case Remove(id, now) => s.(store := s.store - {id})
    case Ask(id, now) => s.(rows := QueryBan(s.rows, id, now).0)
  }

  function Run(ops: seq<Op>, ttl: int): State {
    if ops == [] then State(map[], map[]) else Apply(Run(ops[..|ops| - 1], ttl), ops[|ops| - 1], ttl)
  }

  ghost predicate Monotone(ops: seq<Op>, now: int) {
    && (forall i, j :: 0 <= i < j < |ops| ==> ops[i].now <= ops[j].now)
    && (ops != [] ==> ops[|ops| - 1].now <= now)
  }

  lemma MonotoneInit(ops: seq<Op>, now: int)
    requires ops != [] && Monotone(ops, now)
    ensures Monotone(ops[..|ops| - 1], ops[|ops| - 1].now)
  {
  }

  // ---------------------------------------------------------------------------------------
  // Lazy expiry is exact
  // ---------------------------------------------------------------------------------------

  /**
   The row of `id` under the eager reading of a run: a row exists once a registration wrote one, and
   holds what the last ban or unban said; queries change nothing.
  */
  function EagerRow(ops: seq<Op>, id: NodeId): Option<Row> {
    if ops == [] then None
    else
      var row, op := EagerRow(ops[..|ops| - 1], id), ops[|ops| - 1];
      match op
      case Register(node, identityOk, upsertOk, now) =>
        if row.None? && node.id == id && identityOk && upsertOk then Some(CLEAR) else row
      case AdminBan(id', reason, duration, now) =>
        if row.Some? && id' == id then Some(Row(true, Some(reason), BanExpiry(duration, now))) else row
      case ModeratorBan(id', reason, duration, now) =>
        if row.Some? && id' == id then Some(Row(true, Some(reason), BanExpiry(duration, now))) else row
      case Unban(id', now) => if row.Some? && id' == id then Some(CLEAR) else row
      case Heartbeat(_, _, _) => row
      case Remove(_, _) => row
      case Ask(_, _) => row
  }

  /** Banned iff the last ban or unban was a ban, and it is permanent or not past its expiry. */
  function EagerAnswer(row: Option<Row>, now: int): Answer {
    if row.Some? && row.value.banned && (row.value.expires.None? || now <= row.value.expires.value)
    then Answer(true, if row.value.reason.Some? then row.value.reason.value else "")
    else Answer(false, "")
  }

  /** A lazily kept row stands for the eager one: equal, or cleared after the ban had run out. */
  ghost predicate Stands(rows: Table, id: NodeId, row: Option<Row>, now: int) {
    match row
    case None => id !in rows
    case Some(r) =>
      && id in rows
      && (r.banned || r == CLEAR)
      && (rows[id] == r || (rows[id] == CLEAR && r.banned && r.expires.Some? && now > r.expires.value))
  }

  lemma StandsAnswers(rows: Table, id: NodeId, row: Option<Row>, now: int)
    requires Stands(rows, id, row, now)
    ensures QueryBan(rows, id, now).1 == EagerAnswer(row, now)
    ensures Stands(QueryBan(rows, id, now).0, id, row, now)
  {
  }

  lemma QueryOthers(rows: Table, id: NodeId, other: NodeId, now: int, row: Option<Row>)
    requires Stands(rows, id, row, now)
    ensures Stands(QueryBan(rows, other, now).0, id, row, now)
  {
    if other == id { StandsAnswers(rows, id, row, now); }
  }

  lemma StandsStep(s: State, op: Op, ttl: int, id: NodeId, ops: seq<Op>)
    requires ops != [] && op == ops[|ops| - 1] && Stands(s.rows, id, EagerRow(ops[..|ops| - 1], id), op.now)
    ensures Stands(Apply(s, op, ttl).rows, id, EagerRow(ops, id), op.now)
  {
    var row := EagerRow(ops[..|ops| - 1], id);
    match op
    case Register(node, identityOk, upsertOk, now) =>
      QueryOthers(s.rows, id, node.id, now, row);
      if node.id == id { StandsAnswers(s.rows, id, row, now); }
    case Heartbeat(other, status, now) => QueryOthers(s.rows, id, other, now, row);
    case AdminBan(other, reason, duration, now) =>
    case ModeratorBan(other, reason, duration, now) =>
    case Unban(other, now) =>
    case Remove(other, now) =>
    case Ask(other, now) => QueryOthers(s.rows, id, other, now, row);
  }

  lemma {:induction false} StandsRun(ops: seq<Op>, ttl: int, id: NodeId, now: int)
    requires Monotone(ops, now)
    ensures Stands(Run(ops, ttl).rows, id, EagerRow(ops, id), now)
  {
    if ops != [] {
      MonotoneInit(ops, now);
      StandsRun(ops[..|ops| - 1], ttl, id, ops[|ops| - 1].now);
      StandsStep(Run(ops[..|ops| - 1], ttl), ops[|ops| - 1], ttl, id, ops);
    }
  }

  /**
   Lazy ban expiry is exact: in every run with a nondecreasing clock, the query, which clears expired
   bans only when asked, answers as the eager specification.
  */
  lemma LazyBanIsExact(ops: seq<Op>, ttl: int, id: NodeId, now: int)
    requires Monotone(ops, now)
    ensures QueryBan(Run(ops, ttl).rows, id, now).1 == EagerAnswer(EagerRow(ops, id), now)
  {
    StandsRun(ops, ttl, id, now);
    StandsAnswers(Run(ops, ttl).rows, id, EagerRow(ops, id), now);
  }

  /** Registering again, or for the first time, never changes the answer for any node. */
  lemma RegistrationKeepsAnswer(ops: seq<Op>, ttl: int, op: Op, id: NodeId, now: int)
    requires op.Register? && Monotone(ops, op.now) && op.now <= now
    ensures QueryBan(Run(ops + [op], ttl).rows, id, now).1 == QueryBan(Run(ops, ttl).rows, id, now).1
  {
    assert (ops + [op])[..|ops|] == ops;
    LazyBanIsExact(ops, ttl, id, now);
    LazyBanIsExact(ops + [op], ttl, id, now);
  }

  predicate IsBan(op: Op, id: NodeId) {
    (op.AdminBan? || op.ModeratorBan?) && op.id == id
  }

  /** The run has a registration of `id` that passed the identity check and whose row write succeeded. */
  ghost predicate RowWritten(ops: seq<Op>, id: NodeId) {
    exists i :: 0 <= i < |ops| && WritesRow(ops[i], id)
  }

  predicate WritesRow(op: Op, id: NodeId) {
    op.Register? && op.node.id == id && op.identityOk && op.upsertOk
  }

  lemma {:induction false} EagerRowExists(ops: seq<Op>, id: NodeId)
    ensures EagerRow(ops, id).Some? <==> RowWritten(ops, id)
  {
    if ops != [] {
      var before, op := ops[..|ops| - 1], ops[|ops| - 1];
      EagerRowExists(before, id);
      assert RowWritten(ops, id) <==> RowWritten(before, id) || WritesRow(op, id) by {
        if RowWritten(before, id) {
          var i :| 0 <= i < |before| && WritesRow(before[i], id);
          assert WritesRow(ops[i], id);
        }
        if RowWritten(ops, id) {
          var i :| 0 <= i < |ops| && WritesRow(ops[i], id);
          assert i < |before| ==> WritesRow(before[i], id);
        }
      }
    }
  }

  /**
   A ban is an UPDATE: after any run, banning a node makes every later query say so until the ban runs
   out if some registration's row write succeeded before, and otherwise has no effect at all.
  */
  lemma BanNeedsARow(ops: seq<Op>, ttl: int, op: Op, id: NodeId, now: int)
    requires IsBan(op, id) && Monotone(ops, op.now) && op.now <= now
    ensures QueryBan(Run(ops + [op], ttl).rows, id, now).1 ==
            if RowWritten(ops, id) && (op.duration <= 0 || now <= op.now + op.duration) then Answer(true, op.reason)
            else Answer(false, "")
  {
    assert (ops + [op])[..|ops|] == ops;
    EagerRowExists(ops, id);
    LazyBanIsExact(ops + [op], ttl, id, now);
  }

  // ---------------------------------------------------------------------------------------
  // Bans bound presence
  // ---------------------------------------------------------------------------------------

  /** From position `k` on, `id` is banned at the time of every operation. */
  ghost predicate InForce(ops: seq<Op>, k: nat, id: NodeId) {
    forall i :: k <= i < |ops| ==> EagerAnswer(EagerRow(ops[..i], id), ops[i].now).banned
  }

  ghost predicate ExpiresBy(store: Store, id: NodeId, limit: int) {
    id in store ==> store[id].expires.Some? && store[id].expires.value <= limit
  }

  lemma {:induction false} StoreExpires(ops: seq<Op>, ttl: int, id: NodeId, now: int)
    requires ttl > 0 && Monotone(ops, now)
    ensures ExpiresBy(Run(ops, ttl).store, id, now + ttl)
  {
    if ops != [] {
      MonotoneInit(ops, now);
      StoreExpires(ops[..|ops| - 1], ttl, id, ops[|ops| - 1].now);
    }
  }

  /** While `id` is banned, no operation stores it again. */
  lemma BannedStoreStep(s: State, op: Op, ttl: int, id: NodeId)
    requires QueryBan(s.rows, id, op.now).1.banned
    ensures id in Apply(s, op, ttl).store ==> id in s.store && Apply(s, op, ttl).store[id] == s.store[id]
  {
  }

  lemma {:induction false} BannedStore(ops: seq<Op>, ttl: int, k: nat, id: NodeId, now: int)
    requires Monotone(ops, now) && k <= |ops| && InForce(ops, k, id)
    ensures id in Run(ops, ttl).store ==>
              id in Run(ops[..k], ttl).store && Run(ops, ttl).store[id] == Run(ops[..k], ttl).store[id]
    decreases |ops|
  {
    if |ops| == k {
      assert ops[..k] == ops;
    } else {
      var before, op := ops[..|ops| - 1], ops[|ops| - 1];
      MonotoneInit(ops, now);
      forall i | k <= i < |before| ensures EagerAnswer(EagerRow(before[..i], id), before[i].now).banned {
        assert before[..i] == ops[..i];
      }
      BannedStore(before, ttl, k, id, op.now);
      assert before[..k] == ops[..k];
      LazyBanIsExact(before, ttl, id, op.now);
      BannedStoreStep(Run(before, ttl), op, ttl, id);
    }
  }

  /**
   A ban bounds presence: if `id` is banned at time b and the ban stays in force, then at every later
   time past b + ttl the store does not have it, whatever registrations and heartbeats came between.
  */
  lemma BanBoundsPresence(ops: seq<Op>, ttl: int, k: nat, id: NodeId, now: int)
    requires ttl > 0 && Monotone(ops, now) && 0 < k <= |ops|
    requires IsBan(ops[k - 1], id) && InForce(ops, k, id)
    requires now > ops[k - 1].now + ttl
    ensures GetNode(Run(ops, ttl).store, id, now) == None
  {
    BannedStore(ops, ttl, k, id, now);
    assert Monotone(ops[..k], ops[k - 1].now);
    StoreExpires(ops[..k], ttl, id, ops[k - 1].now);
  }

  /** Through the moderation path the node is gone at once, for every ttl, and stays gone while banned. */
  lemma ModeratorBanRemovesAtOnce(ops: seq<Op>, ttl: int, k: nat, id: NodeId, now: int)
    requires Monotone(ops, now) && 0 < k <= |ops|
    requires ops[k - 1].ModeratorBan? && ops[k - 1].id == id && InForce(ops, k, id)
    ensures id !in Run(ops, ttl).store && GetNode(Run(ops, ttl).store, id, now) == None
  {
    BannedStore(ops, ttl, k, id, now);
    assert ops[..k][..k - 1] == ops[..k - 1];
    assert id !in Run(ops[..k], ttl).store;
  }

  /** The bound, for a time to live and one run: `id` is banned at step k - 1, still is, and the time has passed. */
  ghost predicate BoundsPresence(ops: seq<Op>, ttl: int, k: nat, id: NodeId, now: int) {
    Monotone(ops, now) && 0 < k <= |ops| && IsBan(ops[k - 1], id) && InForce(ops, k, id) && now > ops[k - 1].now + ttl
    ==> GetNode(Run(ops, ttl).store, id, now) == None
  }

  /** The bound holds in all runs if and only if the time to live is positive. */
  lemma PresenceBoundExactly(ttl: int)
    ensures (forall ops: seq<Op>, k: nat, id: NodeId, now: int :: BoundsPresence(ops, ttl, k, id, now)) <==> ttl > 0
  {
    if ttl > 0 {
      forall ops: seq<Op>, k: nat, id: NodeId, now: int ensures BoundsPresence(ops, ttl, k, id, now) {
        if Monotone(ops, now) && 0 < k <= |ops| && IsBan(ops[k - 1], id) && InForce(ops, k, id) && now > ops[k - 1].now + ttl {
          BanBoundsPresence(ops, ttl, k, id, now);
        }
      }
    } else {
      var node := Node("n", Relay, "", 0);
      var ops := NoExpiryNoBound(node, ttl, 0, 1);
      assert !BoundsPresence(ops, ttl, 2, node.id, 1);
    }
  }

  /** The bound needs a positive time to live: with none, an administrator's ban leaves the node present for ever. */
  lemma NoExpiryNoBound(node: Node, ttl: int, b: int, now: int) returns (ops: seq<Op>)
    requires ttl <= 0 && b <= now
    ensures Monotone(ops, now) && |ops| == 2 && IsBan(ops[1], node.id) && ops[1].now == b
    ensures EagerAnswer(EagerRow(ops, node.id), now).banned && GetNode(Run(ops, ttl).store, node.id, now) == Some(node)
  {
    var first, second := Register(node, true, true, b), AdminBan(node.id, "spam", 0, b);
    ops := [first, second];
    assert ops[..1] == [first] && [first][..0] == [];
    assert Run([first], ttl).store == map[node.id := Entry(node, None)];
    assert EagerRow([first], node.id) == Some(CLEAR);
  }

  // ---------------------------------------------------------------------------------------
  // The repositories and services
  // ---------------------------------------------------------------------------------------

  /** The PostgreSQL repository, as far as bans go. */
  class NodeRepository {
    var rows: Table

    constructor ()
      ensures rows == map[]
    {
      rows := map[];
    }

    method UpsertNode(node: Node)
      modifies this
      ensures rows == Upsert(old(rows), node.id)
    {
      if node.id !in rows {
        rows := rows[node.id := CLEAR];
      }
    }

    method UnbanNode(id: NodeId)
      modifies this
      ensures rows == ClearBan(old(rows), id)
    {
      if id in rows {
        rows := rows[id := CLEAR];
      }
    }

    method BanNode(id: NodeId, reason: string, expires: Option<int>)
      modifies this
      ensures rows == SetBan(old(rows), id, reason, expires)
    {
      if id in rows {
        rows := rows[id := Row(true, Some(reason), expires)];
      }
    }

    method IsNodeBanned(id: NodeId, now: int) returns (answer: Answer)
      modifies this
      ensures (rows, answer) == QueryBan(old(rows), id, now)
    {
      if id !in rows {
        return Answer(false, "");
      }
      var row := rows[id];
      if row.banned && row.expires.Some? && now > row.expires.value {
        UnbanNode(id);
        return Answer(false, "");
      }
      return Answer(row.banned, if row.reason.Some? then row.reason.value else "");
    }
  }

  /** The Redis store of present nodes, and the set of active relays with the time of their registration. */
  class NodeManager {
    var store: Store
    var activeRelays: map<NodeId, int>
    const ttl: int

    constructor (ttl: int)
      ensures store == map[] && activeRelays == map[] && this.ttl == ttl
    {
      this.ttl := ttl;
      store, activeRelays := map[], map[];
    }

    /** Every stored relay is in the set; the set may also hold relays that expired. */
    ghost predicate Indexed()
      reads this
    {
      forall id :: id in store && store[id].node.kind == Relay ==> id in activeRelays
    }

    method RegisterNode(node: Node, now: int)
      modifies this
      ensures store == SetNode(old(store), node, now, ttl)
      ensures activeRelays == if node.kind == Relay then old(activeRelays)[node.id := now] else old(activeRelays)
      ensures old(Indexed()) ==> Indexed()
    {
      store := store[node.id := Entry(node, Expiry(now, ttl))];
      if node.kind == Relay {
        activeRelays := activeRelays[node.id := now];
      }
    }

    method RefreshHeartbeat(id: NodeId, status: int, now: int) returns (ok: bool)
      modifies this`store
      ensures ok <==> GetNode(old(store), id, now).Some?
      ensures store == if ok then old(store)[id := Entry(GetNode(old(store), id, now).value.(status := status), Expiry(now, ttl))]
                       else old(store)
      ensures old(Indexed()) ==> Indexed()
    {
      var node := GetNode(store, id, now);
      if node.None? {
        return false;
      }
      store := store[id := Entry(node.value.(status := status), Expiry(now, ttl))];
      return true;
    }

    /** A relay that has expired by now stays in the set. */
    method RemoveNode(id: NodeId, now: int)
      modifies this
      ensures store == old(store) - {id}
      ensures activeRelays == if GetNode(old(store), id, now).Some? && GetNode(old(store), id, now).value.kind == Relay
                              then old(activeRelays) - {id} else old(activeRelays)
      ensures old(Indexed()) ==> Indexed()
    {
      var node := GetNode(store, id, now);
      if node.Some? && node.value.kind == Relay {
        activeRelays := activeRelays - {id};
      }
      store := store - {id};
    }
  }

  class NodeService {
    const redis: NodeManager
    const repo: NodeRepository

    constructor (redis: NodeManager, repo: NodeRepository)
      ensures this.redis == redis && this.repo == repo
    {
      this.redis, this.repo := redis, repo;
    }

    ghost function Contents(): State
      reads redis, repo
    {
      State(redis.store, repo.rows)
    }

    method RegisterNode(node: Node, identityOk: bool, upsertOk: bool, now: int) returns (r: Outcome)
      modifies redis, repo
      ensures (Contents(), r) == DoRegister(old(Contents()), node, identityOk, upsertOk, now, redis.ttl)
    {
      if !identityOk {
        return InvalidIdentity;
      }
      var answer := repo.IsNodeBanned(node.id, now);
      if answer.banned {
        return NodeBanned(answer.reason);
      }
      redis.RegisterNode(node, now);
      if upsertOk {
        repo.UpsertNode(node);
      }
      return Accepted;
    }

    method Heartbeat(id: NodeId, status: int, now: int) returns (r: Outcome)
      modifies redis, repo
      ensures (Contents(), r) == DoHeartbeat(old(Contents()), id, status, now, redis.ttl)
    {
      if GetNode(redis.store, id, now).None? {
        return NotFound;
      }
      var answer := repo.IsNodeBanned(id, now);
      if answer.banned {
        return NodeBanned(answer.reason);
      }
      var _ := redis.RefreshHeartbeat(id, status, now);
      return Accepted;
    }

    /** The moderation service's ban, once the moderator's signature has been verified. */
    method ModeratorBanNode(id: NodeId, reason: string, duration: int, now: int)
      modifies redis, repo
      ensures Contents() == DoModeratorBan(old(Contents()), id, reason, duration, now)
    {
      var expires := if duration > 0 then Some(now + duration) else None;
      repo.BanNode(id, reason, expires);
      redis.RemoveNode(id, now);
    }
  }
}
