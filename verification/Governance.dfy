/**
 Channel governance on the core server: channels with members and roles, signed promote, demote
 and kick requests, the avatar, and the audit log. Requests are modelled as functions on the
 server's state, and class ChannelServer updates its maps in place and computes them. Theorems are
 about every run of requests.
*/
module Governance {
  import opened Common
  import opened GovernancePayload
  import Decimal

  type NodeId = string
  type PublicKey = seq<bv8>
  type Signature = seq<bv8>

  const INICIO := "#Inicio"
  const SYSTEM := "SYSTEM"

  datatype Channel = Channel(
    id: string, name: string, ownerID: NodeId, members: set<NodeId>, roles: map<NodeId, string>, avatar: string)

  datatype Action = PROMOTE | DEMOTE | KICK

  /** An audit row. It records who did what to whom, not which role was given. */
  datatype LogEntry = LogEntry(requester: NodeId, action: Action, target: NodeId, channel: string, signature: Signature)

  /** History: a change that was made, with the role it gave. */
  datatype Change = Change(requester: NodeId, action: Action, target: NodeId, role: string)

  /** `changes` is history: per channel, the changes made so far. */
  datatype Server = Server(
    channels: map<string, Channel>, nodes: map<NodeId, PublicKey>, log: seq<LogEntry>, changes: map<string, seq<Change>>)

  /** Signature verification and hashing, which are not modelled further. */
  datatype Crypto = Crypto(verify: (PublicKey, string, Signature) -> bool, hash: PublicKey -> seq<bv8>)

  datatype Request = Request(
    requester: NodeId, target: NodeId, role: string, scope: string, channel: string, timestamp: int, signature: Signature)

  /** What the surroundings contribute to a call: the clock, a failing node lookup, a failing log write. */
  datatype Env = Env(now: int, lookupFails: bool, logWritten: bool)

  datatype Reason =
    | NameAndOwnerRequired | ChannelExists | RequesterNotFound | Panicked | InvalidSignature | SignatureExpired
    | ScopeNotSupported | ChannelNotFound | PermissionDenied

  datatype Response = Success | Failure(reason: Reason)

  // ---------------------------------------------------------------------------------------
  // Operations
  // ---------------------------------------------------------------------------------------

  function Bootstrap(): Server {
    Server(map[INICIO := Channel(INICIO, "Inicio", SYSTEM, {}, map[], "")], map[], [], map[INICIO := []])
  }

  function DoCreate(s: Server, name: string, owner: NodeId, avatar: string): (Server, Response) {
    var slug := "#" + name;
    if name == "" || owner == "" then (s, Failure(NameAndOwnerRequired))
    else if slug in s.channels then (s, Failure(ChannelExists))
    else
      var ch := Channel(slug, name, owner, {owner}, map[owner := ROLE_ADMIN], avatar);
      (s.(channels := s.channels[slug := ch], changes := s.changes[slug := []]), Success)
  }

  /** The verification common to promote, demote and kick; None means the request passed. */
  function CheckSignature(c: Crypto, s: Server, env: Env, r: Request, role: string): Option<Reason> {
    if env.lookupFails then Some(RequesterNotFound)
    else if r.requester !in s.nodes then Some(Panicked)
    else if !c.verify(s.nodes[r.requester], Payload(Fields(r.target, role, r.scope, r.channel, r.timestamp)), r.signature)
    then Some(InvalidSignature)
    else if !TimestampAccepted(env.now, r.timestamp) then Some(SignatureExpired)
    else None
  }

  function RoleOf(ch: Channel, n: NodeId): string {
    if n in ch.roles then ch.roles[n] else ""
  }

  function ChangesOf(s: Server, id: string): seq<Change> {
    if id in s.changes then s.changes[id] else []
  }

  /** Stores the changed channel, writes the audit row if the write succeeds, and remembers the change. */
  function Record(s: Server, env: Env, r: Request, action: Action, role: string, ch: Channel): Server {
    s.(channels := s.channels[r.channel := ch],
       log := if env.logWritten then s.log + [LogEntry(r.requester, action, r.target, r.channel, r.signature)] else s.log,
       changes := s.changes[r.channel := ChangesOf(s, r.channel) + [Change(r.requester, action, r.target, role)]])
  }

  function DoPromote(c: Crypto, s: Server, env: Env, r: Request): (Server, Response) {
    var bad := CheckSignature(c, s, env, r, r.role);
    if bad.Some? then (s, Failure(bad.value))
    else if r.scope != SCOPE_CHANNEL then (s, Failure(ScopeNotSupported))
    else if r.channel !in s.channels then (s, Failure(ChannelNotFound))
    else
      var ch := s.channels[r.channel];
      if RoleOf(ch, r.requester) != ROLE_ADMIN then (s, Failure(PermissionDenied))
      else (Record(s, env, r, PROMOTE, r.role, ch.(roles := ch.roles[r.target := r.role])), Success)
  }

  function DoDemote(c: Crypto, s: Server, env: Env, r: Request): (Server, Response) {
    var bad := CheckSignature(c, s, env, r, "");
    if bad.Some? then (s, Failure(bad.value))
    else if r.scope != SCOPE_CHANNEL then (s, Failure(ScopeNotSupported))
    else if r.channel !in s.channels then (s, Failure(ChannelNotFound))
    else
      var ch := s.channels[r.channel];
      if RoleOf(ch, r.requester) != ROLE_ADMIN then (s, Failure(PermissionDenied))
      else (Record(s, env, r, DEMOTE, "", ch.(roles := ch.roles - {r.target})), Success)
  }

  function DoKick(c: Crypto, s: Server, env: Env, r: Request): (Server, Response) {
    var bad := CheckSignature(c, s, env, r, "");
    if bad.Some? then (s, Failure(bad.value))
    else if r.scope != SCOPE_CHANNEL then (s, Failure(ScopeNotSupported))
    else if r.channel !in s.channels then (s, Failure(ChannelNotFound))
    else
      var ch := s.channels[r.channel];
      if RoleOf(ch, r.requester) != ROLE_ADMIN && RoleOf(ch, r.requester) != ROLE_MODERATOR then
        (s, Failure(PermissionDenied))
      else
        (Record(s, env, r, KICK, "", ch.(members := ch.members - {r.target}, roles := ch.roles - {r.target})), Success)
  }

  function AvatarText(channel: string, avatar: string, timestamp: int): string {
    channel + "|" + avatar + "|" + Decimal.IntText(timestamp)
  }

  function DoSetAvatar(c: Crypto, s: Server, env: Env, requester: NodeId, channel: string, avatar: string,
                       timestamp: int, signature: Signature): (Server, Response)
  {
    if env.lookupFails then (s, Failure(RequesterNotFound))
    else if requester !in s.nodes then (s, Failure(Panicked))
    else if !c.verify(s.nodes[requester], AvatarText(channel, avatar, timestamp), signature) then (s, Failure(InvalidSignature))
    else if channel !in s.channels then (s, Failure(ChannelNotFound))
    else
      var ch := s.channels[channel];
      if RoleOf(ch, requester) != ROLE_ADMIN && ch.ownerID != requester then (s, Failure(PermissionDenied))
      else (s.(channels := s.channels[channel := ch.(avatar := avatar)]), Success)
  }

  function HexDigit(d: bv8): char {
    "0123456789abcdef"[(d & 0x0f) as int]
  }

  function Hex(bytes: seq<bv8>): (s: string)
    ensures |s| == 2 * |bytes|
  {
    if bytes == [] then ""
    else Hex(bytes[..|bytes| - 1]) + [HexDigit(bytes[|bytes| - 1] >> 4), HexDigit(bytes[|bytes| - 1])]
  }

  /** The identifier of a node: the first 16 bytes of its key's hash, in hex. */
  function DeriveNodeId(c: Crypto, key: PublicKey): NodeId {
    var h := c.hash(key);
    Hex(if |h| >= 16 then h[..16] else h)
  }

  /** A registration that passes the identity check enters the node into the directory. */
  function DoRegisterNode(c: Crypto, s: Server, id: NodeId, key: PublicKey, signature: Signature): Server {
    if id == DeriveNodeId(c, key) && c.verify(key, id, signature) then s.(nodes := s.nodes[id := key]) else s
  }

  // ---------------------------------------------------------------------------------------
  // Runs
  // ---------------------------------------------------------------------------------------

  datatype Op =
    | Create(name: string, owner: NodeId, avatar: string)
    | Promote(env: Env, r: Request)
    | Demote(env: Env, r: Request)
    | Kick(env: Env, r: Request)
    | SetAvatar(env: Env, requester: NodeId, channel: string, avatar: string, timestamp: int, signature: Signature)
    | RegisterNode(id: NodeId, key: PublicKey, signature: Signature)
    | ForgetNode(id: NodeId)

  function Apply(c: Crypto, s: Server, op: Op): Server {
    match op
    case Create(name, owner, avatar) => DoCreate(s, name, owner, avatar).0
    case Promote(env, r) => DoPromote(c, s, env, r).0
    case Demote(env, r) => DoDemote(c, s, env, r).0
    case Kick(env, r) => DoKick(c, s, env, r).0
    case SetAvatar(env, requester, channel, avatar, timestamp, signature) =>
      DoSetAvatar(c, s, env, requester, channel, avatar, timestamp, signature).0
    case RegisterNode(id, key, signature) => DoRegisterNode(c, s, id, key, signature)
    case ForgetNode(id) => s.(nodes := s.nodes - {id})
  }

  function Run(c: Crypto, s: Server, ops: seq<Op>): Server {
    if ops == [] then s else Apply(c, Run(c, s, ops[..|ops| - 1]), ops[|ops| - 1])
  }

  // ---------------------------------------------------------------------------------------
  // Replaying a channel's changes
  // ---------------------------------------------------------------------------------------

  /** Who holds a role before any change: the creator, or nobody in the bootstrap channel. */
  function Founders(ch: Channel): map<NodeId, string> {
    if ch.id == INICIO then map[] else map[ch.ownerID := ROLE_ADMIN]
  }

  function Replay(founders: map<NodeId, string>, changes: seq<Change>): map<NodeId, string> {
    if changes == [] then founders
    else
      var roles, e := Replay(founders, changes[..|changes| - 1]), changes[|changes| - 1];
      if e.action == PROMOTE then roles[e.target := e.role] else roles - {e.target}
  }

  /** The requester of a change had, at that time, the role the change needs. */
  ghost predicate Authorized(founders: map<NodeId, string>, changes: seq<Change>, k: nat)
    requires k < |changes|
  {
    var roles, e := Replay(founders, changes[..k]), changes[k];
    && e.requester in roles
    && (roles[e.requester] == ROLE_ADMIN || (e.action == KICK && roles[e.requester] == ROLE_MODERATOR))
  }

  ghost predicate ChannelInv(id: string, ch: Channel, changes: seq<Change>) {
    && ch.id == id
    && ch.roles == Replay(Founders(ch), changes)
    && forall k :: 0 <= k < |changes| ==> Authorized(Founders(ch), changes, k)
  }

  ghost predicate ReplayInv(s: Server) {
    && INICIO in s.channels && s.changes.Keys == s.channels.Keys
    && forall id :: id in s.channels ==> ChannelInv(id, s.channels[id], s.changes[id])
  }

  /** A change made by an authorized requester, and applied to the roles, keeps the replay. */
  lemma ChannelExtends(id: string, ch: Channel, changes: seq<Change>, e: Change, after: Channel)
    requires ChannelInv(id, ch, changes) && after.id == ch.id && after.ownerID == ch.ownerID
    requires e.requester in ch.roles
    requires ch.roles[e.requester] == ROLE_ADMIN || (e.action == KICK && ch.roles[e.requester] == ROLE_MODERATOR)
    requires after.roles == if e.action == PROMOTE then ch.roles[e.target := e.role] else ch.roles - {e.target}
    ensures ChannelInv(id, after, changes + [e])
  {
    var all := changes + [e];
    assert all[..|changes|] == changes;
    forall k | 0 <= k < |all| ensures Authorized(Founders(after), all, k) {
      if k < |changes| {
        assert all[..k] == changes[..k];
        assert Authorized(Founders(ch), changes, k);
      }
    }
  }

  lemma RecordKeepsReplay(s: Server, env: Env, r: Request, action: Action, role: string, after: Channel)
    requires ReplayInv(s) && r.channel in s.channels
    requires ChannelInv(r.channel, after, s.changes[r.channel] + [Change(r.requester, action, r.target, role)])
    ensures ReplayInv(Record(s, env, r, action, role, after))
  {
  }

  lemma ReplayApply(c: Crypto, s: Server, op: Op)
    requires ReplayInv(s)
    ensures ReplayInv(Apply(c, s, op))
  {
    match op
    case Create(name, owner, avatar) =>
    case Promote(env, r) =>
      if DoPromote(c, s, env, r).1 == Success {
        var ch := s.channels[r.channel];
        var after := ch.(roles := ch.roles[r.target := r.role]);
        ChannelExtends(r.channel, ch, s.changes[r.channel], Change(r.requester, PROMOTE, r.target, r.role), after);
        RecordKeepsReplay(s, env, r, PROMOTE, r.role, after);
      }
    case Demote(env, r) =>
      if DoDemote(c, s, env, r).1 == Success {
        var ch := s.channels[r.channel];
        var after := ch.(roles := ch.roles - {r.target});
        ChannelExtends(r.channel, ch, s.changes[r.channel], Change(r.requester, DEMOTE, r.target, ""), after);
        RecordKeepsReplay(s, env, r, DEMOTE, "", after);
      }
    case Kick(env, r) =>
      if DoKick(c, s, env, r).1 == Success {
        var ch := s.channels[r.channel];
        var after := ch.(members := ch.members - {r.target}, roles := ch.roles - {r.target});
        ChannelExtends(r.channel, ch, s.changes[r.channel], Change(r.requester, KICK, r.target, ""), after);
        RecordKeepsReplay(s, env, r, KICK, "", after);
      }
    case SetAvatar(env, requester, channel, avatar, timestamp, signature) =>
    case RegisterNode(id, key, signature) =>
    case ForgetNode(id) =>
  }

  lemma {:induction false} ReplayRun(c: Crypto, ops: seq<Op>)
    ensures ReplayInv(Run(c, Bootstrap(), ops))
  {
    if ops != [] {
      ReplayRun(c, ops[..|ops| - 1]);
      ReplayApply(c, Run(c, Bootstrap(), ops[..|ops| - 1]), ops[|ops| - 1]);
    }
  }

  // ---------------------------------------------------------------------------------------
  // The audit log
  // ---------------------------------------------------------------------------------------

  function LogOf(log: seq<LogEntry>, id: string): seq<LogEntry> {
    if log == [] then []
    else LogOf(log[..|log| - 1], id) + if log[|log| - 1].channel == id then [log[|log| - 1]] else []
  }

  lemma LogOfSnoc(log: seq<LogEntry>, e: LogEntry, id: string)
    ensures LogOf(log + [e], id) == LogOf(log, id) + if e.channel == id then [e] else []
  {
    assert (log + [e])[..|log|] == log;
  }

  /** Folding audit rows over a set of role holders: promotions add, demotions and kicks remove. */
  function FoldHolders(founders: set<NodeId>, entries: seq<LogEntry>): set<NodeId> {
    if entries == [] then founders
    else
      var holders, e := FoldHolders(founders, entries[..|entries| - 1]), entries[|entries| - 1];
      if e.action == PROMOTE then holders + {e.target} else holders - {e.target}
  }

  ghost predicate Matches(entries: seq<LogEntry>, changes: seq<Change>) {
    && |entries| == |changes|
    && forall k :: 0 <= k < |entries| ==> entries[k].action == changes[k].action && entries[k].target == changes[k].target
  }

  ghost predicate LogInv(s: Server) {
    forall id :: Matches(LogOf(s.log, id), ChangesOf(s, id))
  }

  predicate Logged(op: Op) {
    op.Promote? || op.Demote? || op.Kick? ==> op.env.logWritten
  }

  lemma LogRecord(s: Server, env: Env, r: Request, action: Action, role: string, after: Channel)
    requires LogInv(s) && env.logWritten
    ensures LogInv(Record(s, env, r, action, role, after))
  {
    var v := Record(s, env, r, action, role, after);
    forall id ensures Matches(LogOf(v.log, id), ChangesOf(v, id)) {
      LogOfSnoc(s.log, LogEntry(r.requester, action, r.target, r.channel, r.signature), id);
      assert Matches(LogOf(s.log, id), ChangesOf(s, id));
    }
  }

  lemma LogApply(c: Crypto, s: Server, op: Op)
    requires ReplayInv(s) && LogInv(s) && Logged(op)
    ensures LogInv(Apply(c, s, op))
  {
    match op
    case Create(name, owner, avatar) =>
      var v := Apply(c, s, op);
      forall id ensures Matches(LogOf(v.log, id), ChangesOf(v, id)) {
        assert Matches(LogOf(s.log, id), ChangesOf(s, id));
      }
    case Promote(env, r) =>
      if DoPromote(c, s, env, r).1 == Success {
        LogRecord(s, env, r, PROMOTE, r.role, Apply(c, s, op).channels[r.channel]);
      }
    case Demote(env, r) =>
      if DoDemote(c, s, env, r).1 == Success {
        LogRecord(s, env, r, DEMOTE, "", Apply(c, s, op).channels[r.channel]);
      }
    case Kick(env, r) =>
      if DoKick(c, s, env, r).1 == Success {
        LogRecord(s, env, r, KICK, "", Apply(c, s, op).channels[r.channel]);
      }
    case SetAvatar(env, requester, channel, avatar, timestamp, signature) => assert Apply(c, s, op).log == s.log;
    case RegisterNode(id, key, signature) =>
    case ForgetNode(id) =>
  }

  lemma {:induction false} LogRun(c: Crypto, ops: seq<Op>)
    requires forall i :: 0 <= i < |ops| ==> Logged(ops[i])
    ensures LogInv(Run(c, Bootstrap(), ops))
  {
    if ops != [] {
      LogRun(c, ops[..|ops| - 1]);
      ReplayRun(c, ops[..|ops| - 1]);
      LogApply(c, Run(c, Bootstrap(), ops[..|ops| - 1]), ops[|ops| - 1]);
    }
  }

  lemma {:induction false} FoldIsReplay(founders: map<NodeId, string>, entries: seq<LogEntry>, changes: seq<Change>)
    requires Matches(entries, changes)
    ensures FoldHolders(founders.Keys, entries) == Replay(founders, changes).Keys
  {
    if entries != [] {
      FoldIsReplay(founders, entries[..|entries| - 1], changes[..|changes| - 1]);
    }
  }

  lemma HoldersFromLog(s: Server, id: string)
    requires ReplayInv(s) && LogInv(s) && id in s.channels
    ensures HoldersMatchLog(s, id)
  {
    var founders := Founders(s.channels[id]);
    assert ChannelInv(id, s.channels[id], s.changes[id]);
    assert Matches(LogOf(s.log, id), ChangesOf(s, id));
    FoldIsReplay(founders, LogOf(s.log, id), s.changes[id]);
    assert founders.Keys == if id == INICIO then {} else {s.channels[id].ownerID};
  }

  /** The role holders of a channel are the fold of its audit rows, starting from its creator. */
  ghost predicate HoldersMatchLog(s: Server, id: string)
    requires id in s.channels
  {
    s.channels[id].roles.Keys == FoldHolders(FoundersOf(s, id), LogOf(s.log, id))
  }

  /**
   Governance replay: in every run whose log writes succeed, the role holders of every channel are
   the fold of that channel's audit rows, starting from its creator.
  */
  lemma GovernanceReplay(c: Crypto, ops: seq<Op>, id: string)
    requires forall i :: 0 <= i < |ops| ==> Logged(ops[i])
    requires id in Run(c, Bootstrap(), ops).channels
    ensures HoldersMatchLog(Run(c, Bootstrap(), ops), id)
  {
    ReplayRun(c, ops);
    LogRun(c, ops);
    HoldersFromLog(Run(c, Bootstrap(), ops), id);
  }

  /** The text a request's signature must cover, part by part. */
  function SignedText(r: Request, role: string): string {
    r.target + "|" + role + "|" + r.scope + "|" + r.channel + "|" + Decimal.IntText(r.timestamp)
  }

  /** The requester has a registered key, and the key verifies the signature over the text. */
  predicate Signed(c: Crypto, s: Server, env: Env, r: Request, role: string) {
    && !env.lookupFails && r.requester in s.nodes
    && c.verify(s.nodes[r.requester], SignedText(r, role), r.signature)
  }

  /** The requester holds the role in the channel, which exists. */
  predicate HoldsRole(s: Server, r: Request, role: string) {
    && r.channel in s.channels && r.requester in s.channels[r.channel].roles
    && s.channels[r.channel].roles[r.requester] == role
  }

  /** A governance request passes its guards: signature, time, scope, and the requester's role in an existing channel. */
  predicate Passes(c: Crypto, s: Server, op: Op)
    requires op.Promote? || op.Demote? || op.Kick?
  {
    && Signed(c, s, op.env, op.r, if op.Promote? then op.r.role else "")
    && TimestampAccepted(op.env.now, op.r.timestamp)
    && op.r.scope == "CHANNEL"
    && (HoldsRole(s, op.r, "ADMIN") || (op.Kick? && HoldsRole(s, op.r, "MODERATOR")))
  }

  /** A request that passes its guards on channel `id`, whose log write fails, and that changes who holds a role there. */
  predicate LosesRow(c: Crypto, s: Server, op: Op, id: string)
    requires id in s.channels
  {
    && (op.Promote? || op.Demote? || op.Kick?) && op.r.channel == id && !op.env.logWritten
    && Passes(c, s, op)
    && (op.Promote? <==> op.r.target !in s.channels[id].roles)
  }

  lemma FoldSnoc(founders: set<NodeId>, entries: seq<LogEntry>, e: LogEntry)
    ensures FoldHolders(founders, entries + [e]) ==
            var holders := FoldHolders(founders, entries);
            if e.action == PROMOTE then holders + {e.target} else holders - {e.target}
  {
    assert (entries + [e])[..|entries|] == entries;
  }

  function FoundersOf(s: Server, id: string): set<NodeId>
    requires id in s.channels
  {
    if id == INICIO then {} else {s.channels[id].ownerID}
  }

  function AfterChange(holders: set<NodeId>, action: Action, n: NodeId): set<NodeId> {
    if action == PROMOTE then holders + {n} else holders - {n}
  }

  lemma RecordedLog(s: Server, env: Env, r: Request, action: Action, role: string, after: Channel, id: string)
    requires id in s.channels && r.channel in s.channels
    ensures var v, founders := Record(s, env, r, action, role, after), FoundersOf(s, id);
            FoldHolders(founders, LogOf(v.log, id)) ==
            if env.logWritten && r.channel == id then AfterChange(FoldHolders(founders, LogOf(s.log, id)), action, r.target)
            else FoldHolders(founders, LogOf(s.log, id))
  {
    var e := LogEntry(r.requester, action, r.target, r.channel, r.signature);
    LogOfSnoc(s.log, e, id);
    FoldSnoc(FoundersOf(s, id), LogOf(s.log, id), e);
    assert LogOf(s.log, id) + [] == LogOf(s.log, id);
  }

  lemma RecordKeepsExactly(s: Server, env: Env, r: Request, action: Action, role: string, after: Channel, id: string)
    requires id in s.channels && HoldersMatchLog(s, id) && r.channel in s.channels
    requires after.ownerID == s.channels[r.channel].ownerID
    requires after.roles.Keys == AfterChange(s.channels[r.channel].roles.Keys, action, r.target)
    ensures HoldersMatchLog(Record(s, env, r, action, role, after), id) <==>
            r.channel != id || env.logWritten || (action == PROMOTE <==> r.target in s.channels[id].roles)
  {
    var v := Record(s, env, r, action, role, after);
    RecordedLog(s, env, r, action, role, after, id);
    AddOrRemoveChanges(s.channels[id].roles.Keys, r.target);
    assert FoundersOf(v, id) == FoundersOf(s, id);
    assert v.channels[id].roles.Keys ==
           if r.channel == id then AfterChange(s.channels[id].roles.Keys, action, r.target) else s.channels[id].roles.Keys;
  }

  lemma AddOrRemoveChanges(holders: set<NodeId>, n: NodeId)
    ensures holders + {n} == holders <==> n in holders
    ensures holders - {n} == holders <==> n !in holders
  {
    assert n in holders + {n} && n !in holders - {n};
  }

  /**
   How a failed log write matters, exactly: from any state in which a channel's holders match its
   log, an operation breaks the match if and only if it passes its guards on that channel, its row is lost and
   it promotes a node without a role or removes one with a role.
  */
  lemma ReplayKeptExactly(c: Crypto, s: Server, op: Op, id: string)
    requires id in s.channels && HoldersMatchLog(s, id)
    ensures id in Apply(c, s, op).channels
    ensures HoldersMatchLog(Apply(c, s, op), id) <==> !LosesRow(c, s, op, id)
  {
    if op.Promote? {
      if DoPromote(c, s, op.env, op.r).1 == Success {
        var ch := s.channels[op.r.channel];
        RecordKeepsExactly(s, op.env, op.r, PROMOTE, op.r.role, ch.(roles := ch.roles[op.r.target := op.r.role]), id);
      }
    } else if op.Demote? {
      if DoDemote(c, s, op.env, op.r).1 == Success {
        var ch := s.channels[op.r.channel];
        RecordKeepsExactly(s, op.env, op.r, DEMOTE, "", ch.(roles := ch.roles - {op.r.target}), id);
      }
    } else if op.Kick? {
      if DoKick(c, s, op.env, op.r).1 == Success {
        var ch := s.channels[op.r.channel];
        var after := ch.(members := ch.members - {op.r.target}, roles := ch.roles - {op.r.target});
        RecordKeepsExactly(s, op.env, op.r, KICK, "", after, id);
      }
    } else {
      OthersLeaveRoles(c, s, op, id);
    }
  }

  lemma OthersLeaveRoles(c: Crypto, s: Server, op: Op, id: string)
    requires id in s.channels && !op.Promote? && !op.Demote? && !op.Kick?
    ensures var t := Apply(c, s, op);
            && t.log == s.log && id in t.channels
            && t.channels[id].roles == s.channels[id].roles && t.channels[id].ownerID == s.channels[id].ownerID
  {
  }

  lemma RunSnoc(c: Crypto, s: Server, ops: seq<Op>, op: Op)
    ensures Run(c, s, ops + [op]) == Apply(c, Run(c, s, ops), op)
  {
    assert (ops + [op])[..|ops|] == ops;
  }

  /** The log writes must succeed: the server ignores a failed write, and the fold then misses a holder. */
  lemma LostRowBreaksReplay(c: Crypto, key: PublicKey, proof: Signature, signature: Signature) returns (ops: seq<Op>, id: string)
    requires |c.hash(key)| == 32 && c.verify(key, DeriveNodeId(c, key), proof)
    requires c.verify(key, Payload(Fields("bob", ROLE_MODERATOR, SCOPE_CHANNEL, "#news", 0)), signature)
    ensures var s := Run(c, Bootstrap(), ops);
            id in s.channels && !HoldersMatchLog(s, id)
  {
    var owner := DeriveNodeId(c, key);
    id := "#news";
    var r := Request(owner, "bob", ROLE_MODERATOR, SCOPE_CHANNEL, id, 0, signature);
    var register, create, promote := RegisterNode(owner, key, proof), Create("news", owner, ""), Promote(Env(0, false, false), r);
    var s0 := Bootstrap();
    var s1 := Apply(c, s0, register);
    RunSnoc(c, s0, [], register);
    assert s1.nodes == map[owner := key];
    var s2 := Apply(c, s1, create);
    RunSnoc(c, s0, [] + [register], create);
    assert "#" + "news" == id && s2.channels[id].roles == map[owner := ROLE_ADMIN];
    var s3 := Apply(c, s2, promote);
    RunSnoc(c, s0, [] + [register] + [create], promote);
    ops := [] + [register] + [create] + [promote];
    assert TimestampAccepted(0, 0);
    assert "bob" in s3.channels[id].roles && s3.log == [];
    assert |owner| == 32;
  }

  // ---------------------------------------------------------------------------------------
  // Where roles come from
  // ---------------------------------------------------------------------------------------

  /**
   A chain of promotions from `creator` to `n`: positions of changes, in increasing order, each a
   promotion made by someone who was ADMIN then, the first by the creator, each of the others by
   the previous one's target, the last one of `n`.
  */
  ghost predicate Chain(founders: map<NodeId, string>, creator: NodeId, changes: seq<Change>, chain: seq<nat>, n: NodeId)
    decreases chain
  {
    if chain == [] then n == creator
    else
      var k := chain[|chain| - 1];
      && k < |changes|
      && changes[k].action == PROMOTE && changes[k].target == n
      && changes[k].requester in Replay(founders, changes[..k])
      && Replay(founders, changes[..k])[changes[k].requester] == ROLE_ADMIN
      && Chain(founders, creator, changes[..k], chain[..|chain| - 1], changes[k].requester)
  }

  lemma {:induction false} ChainLater(founders: map<NodeId, string>, creator: NodeId, changes: seq<Change>, e: Change, chain: seq<nat>, n: NodeId)
    requires Chain(founders, creator, changes, chain, n)
    ensures Chain(founders, creator, changes + [e], chain, n)
  {
    if chain != [] {
      var k := chain[|chain| - 1];
      assert (changes + [e])[..k] == changes[..k];
    }
  }

  lemma {:induction false} ChainExists(creator: NodeId, changes: seq<Change>, n: NodeId) returns (chain: seq<nat>)
    requires forall k :: 0 <= k < |changes| ==> Authorized(map[creator := ROLE_ADMIN], changes, k)
    requires n in Replay(map[creator := ROLE_ADMIN], changes)
    ensures Chain(map[creator := ROLE_ADMIN], creator, changes, chain, n)
    decreases |changes|
  {
    var founders := map[creator := ROLE_ADMIN];
    if changes == [] {
      chain := [];
    } else {
      var k := |changes| - 1;
      var before, e := changes[..k], changes[k];
      assert Authorized(founders, changes, k);
      forall j | 0 <= j < |before| ensures Authorized(founders, before, j) {
        assert Authorized(founders, changes, j) && before[..j] == changes[..j];
      }
      if e.action == PROMOTE && e.target == n {
        var rest := ChainExists(creator, before, e.requester);
        chain := rest + [k];
        assert chain[..|chain| - 1] == rest;
      } else {
        chain := ChainExists(creator, before, n);
        ChainLater(founders, creator, before, e, chain, n);
        assert before + [e] == changes;
      }
    }
  }

  /** Without founders nobody is ever authorized, so there is no change at all. */
  lemma NoFoundersNoRoles(changes: seq<Change>)
    requires forall k :: 0 <= k < |changes| ==> Authorized(map[], changes, k)
    ensures changes == [] && Replay(map[], changes) == map[]
  {
    assert changes[..0] == [];
    assert |changes| > 0 ==> Authorized(map[], changes, 0);
  }

  /**
   In every run, every role holder of a channel traces back to the channel's creator by a finite
   chain of promotions, each made by a node that was ADMIN at that time. Nobody ever holds a role
   in the bootstrap channel.
  */
  lemma RolesTraceToCreator(c: Crypto, ops: seq<Op>, id: string, n: NodeId) returns (chain: seq<nat>)
    requires id in Run(c, Bootstrap(), ops).channels && n in Run(c, Bootstrap(), ops).channels[id].roles
    ensures var s := Run(c, Bootstrap(), ops);
            && id != INICIO && id in s.changes
            && Chain(map[s.channels[id].ownerID := ROLE_ADMIN], s.channels[id].ownerID, s.changes[id], chain, n)
  {
    var s := Run(c, Bootstrap(), ops);
    ReplayRun(c, ops);
    var ch := s.channels[id];
    assert ChannelInv(id, ch, s.changes[id]);
    if id == INICIO {
      NoFoundersNoRoles(s.changes[id]);
    }
    chain := ChainExists(ch.ownerID, s.changes[id], n);
  }

  // ---------------------------------------------------------------------------------------
  // Channels without an administrator
  // ---------------------------------------------------------------------------------------

  ghost predicate NoAdmin(ch: Channel) {
    forall n :: n in ch.roles ==> ch.roles[n] != ROLE_ADMIN
  }

  /** The later channel has no role, role value or member that the earlier one had not. */
  ghost predicate Shrunk(before: Channel, after: Channel) {
    && (forall n :: n in after.roles ==> n in before.roles && after.roles[n] == before.roles[n])
    && after.members <= before.members
    && after.ownerID == before.ownerID && after.id == before.id
  }

  lemma NoAdminApply(c: Crypto, s: Server, op: Op, id: string)
    requires id in s.channels && NoAdmin(s.channels[id])
    ensures id in Apply(c, s, op).channels && Shrunk(s.channels[id], Apply(c, s, op).channels[id])
  {
  }

  /**
   A channel without an ADMIN never regains one, in any run from any state: its roles and members
   only shrink.
  */
  lemma {:induction false} NoAdminForever(c: Crypto, s: Server, ops: seq<Op>, id: string)
    requires id in s.channels && NoAdmin(s.channels[id])
    ensures id in Run(c, s, ops).channels
    ensures NoAdmin(Run(c, s, ops).channels[id]) && Shrunk(s.channels[id], Run(c, s, ops).channels[id])
  {
    if ops != [] {
      NoAdminForever(c, s, ops[..|ops| - 1], id);
      NoAdminApply(c, Run(c, s, ops[..|ops| - 1]), ops[|ops| - 1], id);
    }
  }

  /** The hash has SHA-256's 32 bytes. */
  ghost predicate HashSize(c: Crypto) {
    forall key :: |c.hash(key)| == 32
  }

  ghost predicate NodeIdsDerived(s: Server) {
    forall id :: id in s.nodes ==> |id| == 32
  }

  lemma {:induction false} NodeIdsRun(c: Crypto, ops: seq<Op>)
    requires HashSize(c)
    ensures NodeIdsDerived(Run(c, Bootstrap(), ops))
  {
    if ops != [] {
      NodeIdsRun(c, ops[..|ops| - 1]);
      NodeIdsApply(c, Run(c, Bootstrap(), ops[..|ops| - 1]), ops[|ops| - 1]);
    }
  }

  lemma NodeIdsApply(c: Crypto, s: Server, op: Op)
    requires HashSize(c) && NodeIdsDerived(s)
    ensures NodeIdsDerived(Apply(c, s, op))
  {
    if op.RegisterNode? {
      assert |DeriveNodeId(c, op.key)| == 32;
    } else {
      assert Apply(c, s, op).nodes == if op.ForgetNode? then s.nodes - {op.id} else s.nodes;
    }
  }

  /**
   The bootstrap channel in every run: it exists, nobody is a member or holds a role, and its avatar
   never changes, because node identifiers have 32 characters and its owner SYSTEM has none.
  */
  lemma {:induction false} InicioIsFrozen(c: Crypto, ops: seq<Op>)
    requires HashSize(c)
    ensures INICIO in Run(c, Bootstrap(), ops).channels
    ensures Run(c, Bootstrap(), ops).channels[INICIO] == Bootstrap().channels[INICIO]
  {
    if ops != [] {
      var before, op := ops[..|ops| - 1], ops[|ops| - 1];
      var s := Run(c, Bootstrap(), before);
      InicioIsFrozen(c, before);
      NodeIdsRun(c, before);
      InicioStep(c, s, op);
    }
  }

  lemma InicioStep(c: Crypto, s: Server, op: Op)
    requires INICIO in s.channels && s.channels[INICIO] == Bootstrap().channels[INICIO] && NodeIdsDerived(s)
    ensures INICIO in Apply(c, s, op).channels && Apply(c, s, op).channels[INICIO] == s.channels[INICIO]
  {
    assert SYSTEM !in s.nodes;
  }

  // ---------------------------------------------------------------------------------------
  // The server itself
  // ---------------------------------------------------------------------------------------

  class ChannelServer {
    var channels: map<string, Channel>
    var log: seq<LogEntry>
    var nodes: map<NodeId, PublicKey>
    ghost var changes: map<string, seq<Change>>

    ghost function Contents(): Server
      reads this
    {
      Server(channels, nodes, log, changes)
    }

    ghost predicate Valid()
      reads this
    {
      ReplayInv(Contents())
    }

    constructor ()
      ensures Valid() && Contents() == Bootstrap()
    {
      channels := map[INICIO := Channel(INICIO, "Inicio", SYSTEM, {}, map[], "")];
      log, nodes, changes := [], map[], map[INICIO := []];
    }

    method CreateChannel(name: string, owner: NodeId, avatar: string) returns (r: Response)
      requires Valid()
      modifies this
      ensures Valid() && (Contents(), r) == DoCreate(old(Contents()), name, owner, avatar)
    {
      if name == "" || owner == "" {
        return Failure(NameAndOwnerRequired);
      }
      var slug := "#" + name;
      if slug in channels {
        return Failure(ChannelExists);
      }
      channels := channels[slug := Channel(slug, name, owner, {owner}, map[owner := ROLE_ADMIN], avatar)];
      changes := changes[slug := []];
      return Success;
    }

    method VerifyGovernanceSignature(c: Crypto, env: Env, req: Request, role: string) returns (bad: Option<Reason>)
      ensures bad == CheckSignature(c, Contents(), env, req, role)
    {
      if env.lookupFails {
        return Some(RequesterNotFound);
      }
      if req.requester !in nodes {
        return Some(Panicked);
      }
      var text := Payload(Fields(req.target, role, req.scope, req.channel, req.timestamp));
      if !c.verify(nodes[req.requester], text, req.signature) {
        return Some(InvalidSignature);
      }
      var diff := Wrap(env.now - req.timestamp);
      if diff < 0 {
        diff := Wrap(-diff);
      }
      if diff > WINDOW {
        return Some(SignatureExpired);
      }
      return None;
    }

    method LogGovernanceAction(env: Env, req: Request, action: Action, ghost role: string)
      requires req.channel in channels
      modifies this`log, this`changes
      ensures Contents() == Record(old(Contents()), env, req, action, role, channels[req.channel])
    {
      if env.logWritten {
        log := log + [LogEntry(req.requester, action, req.target, req.channel, req.signature)];
      }
      changes := changes[req.channel := ChangesOf(Contents(), req.channel) + [Change(req.requester, action, req.target, role)]];
      assert channels == channels[req.channel := channels[req.channel]];
    }

    method PromoteUser(c: Crypto, env: Env, req: Request) returns (r: Response)
      requires Valid()
      modifies this
      ensures Valid() && (Contents(), r) == DoPromote(c, old(Contents()), env, req)
    {
      ReplayApply(c, Contents(), Promote(env, req));
      var bad := VerifyGovernanceSignature(c, env, req, req.role);
      if bad.Some? {
        return Failure(bad.value);
      }
      if req.scope != SCOPE_CHANNEL {
        return Failure(ScopeNotSupported);
      }
      if req.channel !in channels {
        return Failure(ChannelNotFound);
      }
      var ch := channels[req.channel];
      if RoleOf(ch, req.requester) != ROLE_ADMIN {
        return Failure(PermissionDenied);
      }
      channels := channels[req.channel := ch.(roles := ch.roles[req.target := req.role])];
      LogGovernanceAction(env, req, PROMOTE, req.role);
      return Success;
    }

    method DemoteUser(c: Crypto, env: Env, req: Request) returns (r: Response)
      requires Valid()
      modifies this
      ensures Valid() && (Contents(), r) == DoDemote(c, old(Contents()), env, req)
    {
      ReplayApply(c, Contents(), Demote(env, req));
      var bad := VerifyGovernanceSignature(c, env, req, "");
      if bad.Some? {
        return Failure(bad.value);
      }
      if req.scope != SCOPE_CHANNEL {
        return Failure(ScopeNotSupported);
      }
      if req.channel !in channels {
        return Failure(ChannelNotFound);
      }
      var ch := channels[req.channel];
      if RoleOf(ch, req.requester) != ROLE_ADMIN {
        return Failure(PermissionDenied);
      }
      channels := channels[req.channel := ch.(roles := ch.roles - {req.target})];
      LogGovernanceAction(env, req, DEMOTE, "");
      return Success;
    }

    method KickUser(c: Crypto, env: Env, req: Request) returns (r: Response)
      requires Valid()
      modifies this
      ensures Valid() && (Contents(), r) == DoKick(c, old(Contents()), env, req)
    {
      ReplayApply(c, Contents(), Kick(env, req));
      var bad := VerifyGovernanceSignature(c, env, req, "");
      if bad.Some? {
        return Failure(bad.value);
      }
      if req.scope != SCOPE_CHANNEL {
        return Failure(ScopeNotSupported);
      }
      if req.channel !in channels {
        return Failure(ChannelNotFound);
      }
      var ch := channels[req.channel];
      var role := RoleOf(ch, req.requester);
      if role != ROLE_ADMIN && role != ROLE_MODERATOR {
        return Failure(PermissionDenied);
      }
      ch := ch.(members := ch.members - {req.target});
      ch := ch.(roles := ch.roles - {req.target});
      channels := channels[req.channel := ch];
      LogGovernanceAction(env, req, KICK, "");
      return Success;
    }

    method UpdateChannelAvatar(c: Crypto, env: Env, requester: NodeId, channel: string, avatar: string,
                               timestamp: int, signature: Signature) returns (r: Response)
      requires Valid()
      modifies this`channels
      ensures Valid()
      ensures (Contents(), r) == DoSetAvatar(c, old(Contents()), env, requester, channel, avatar, timestamp, signature)
    {
      ReplayApply(c, Contents(), SetAvatar(env, requester, channel, avatar, timestamp, signature));
      if env.lookupFails {
        return Failure(RequesterNotFound);
      }
      if requester !in nodes {
        return Failure(Panicked);
      }
      if !c.verify(nodes[requester], AvatarText(channel, avatar, timestamp), signature) {
        return Failure(InvalidSignature);
      }
      if channel !in channels {
        return Failure(ChannelNotFound);
      }
      var ch := channels[channel];
      if RoleOf(ch, requester) != ROLE_ADMIN && ch.ownerID != requester {
        return Failure(PermissionDenied);
      }
      channels := channels[channel := ch.(avatar := avatar)];
      return Success;
    }
  }
}
