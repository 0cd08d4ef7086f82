/**
 Which governance requests succeed, with which answer and with which effect, said guard by guard, and
 what a run of requests makes of members, avatars, channels and the node directory.
*/
module GovernanceGuards {
  import opened Common
  import opened GovernancePayload
  import opened Governance
  import Decimal

  // ---------------------------------------------------------------------------------------
  // Promote, demote and kick
  // ---------------------------------------------------------------------------------------

  /** The answer that the first failing guard gives; with none failing, success. */
  function ExpectedAnswer(c: Crypto, s: Server, op: Op): Response
    requires op.Promote? || op.Demote? || op.Kick?
  {
    var env, r := op.env, op.r;
    if env.lookupFails then Failure(RequesterNotFound)
    else if r.requester !in s.nodes then Failure(Panicked)
    else if !Signed(c, s, env, r, if op.Promote? then r.role else "") then Failure(InvalidSignature)
    else if !TimestampAccepted(env.now, r.timestamp) then Failure(SignatureExpired)
    else if r.scope != "CHANNEL" then Failure(ScopeNotSupported)
    else if r.channel !in s.channels then Failure(ChannelNotFound)
    else if HoldsRole(s, r, "ADMIN") || (op.Kick? && HoldsRole(s, r, "MODERATOR")) then Success
    else Failure(PermissionDenied)
  }

  function AnswerOf(c: Crypto, s: Server, op: Op): Response
    requires op.Promote? || op.Demote? || op.Kick?
  {
    match op
    case Promote(env, r) => DoPromote(c, s, env, r).1
    case Demote(env, r) => DoDemote(c, s, env, r).1
    case Kick(env, r) => DoKick(c, s, env, r).1
  }

  lemma SignedTextIsPayload(r: Request, role: string)
    ensures SignedText(r, role) == Payload(Fields(r.target, role, r.scope, r.channel, r.timestamp))
  {
  }

  lemma CheckedExactly(c: Crypto, s: Server, env: Env, r: Request, role: string)
    ensures CheckSignature(c, s, env, r, role) ==
            if env.lookupFails then Some(RequesterNotFound)
            else if r.requester !in s.nodes then Some(Panicked)
            else if !Signed(c, s, env, r, role) then Some(InvalidSignature)
            else if !TimestampAccepted(env.now, r.timestamp) then Some(SignatureExpired)
            else None
  {
    SignedTextIsPayload(r, role);
  }

  /** In any state a request answers what its first failing guard says. */
  lemma AnswersExactly(c: Crypto, s: Server, op: Op)
    requires op.Promote? || op.Demote? || op.Kick?
    ensures AnswerOf(c, s, op) == ExpectedAnswer(c, s, op)
  {
    CheckedExactly(c, s, op.env, op.r, if op.Promote? then op.r.role else "");
  }

  /** The entry of a node in a role map, if any. */
  function Entry(roles: map<NodeId, string>, n: NodeId): Option<string> {
    if n in roles then Some(roles[n]) else None
  }

  /** What a successful request makes of the channel: only the target's role, and for a kick its membership. */
  ghost predicate Changed(before: Channel, after: Channel, op: Op)
    requires op.Promote? || op.Demote? || op.Kick?
  {
    && after == before.(roles := after.roles, members := after.members)
    && (forall n :: Entry(after.roles, n) ==
                    if n != op.r.target then Entry(before.roles, n)
                    else if op.Promote? then Some(op.r.role) else None)
    && (forall n :: n in after.members <==> n in before.members && !(op.Kick? && n == op.r.target))
  }

  /** The audit row of a request. */
  function RowOf(op: Op): LogEntry
    requires op.Promote? || op.Demote? || op.Kick?
  {
    LogEntry(op.r.requester, if op.Promote? then PROMOTE else if op.Demote? then DEMOTE else KICK,
             op.r.target, op.r.channel, op.r.signature)
  }

  /**
   In any state a promotion, demotion or kick succeeds if and only if the requester's registered key
   verifies the signed text, the time test accepts, the scope is CHANNEL, the channel exists and the
   requester holds the needed role. Success changes exactly the target in that channel and adds one
   audit row if it is written; otherwise nothing changes.
  */
  lemma SucceedsExactly(c: Crypto, s: Server, op: Op)
    requires op.Promote? || op.Demote? || op.Kick?
    ensures AnswerOf(c, s, op) == Success <==> Passes(c, s, op)
    ensures var t := Apply(c, s, op);
            if Passes(c, s, op) then
              && t.channels.Keys == s.channels.Keys && t.nodes == s.nodes
              && Changed(s.channels[op.r.channel], t.channels[op.r.channel], op)
              && (forall id :: id in s.channels && id != op.r.channel ==> t.channels[id] == s.channels[id])
              && t.log == s.log + if op.env.logWritten then [RowOf(op)] else []
            else t == s
  {
    AnswersExactly(c, s, op);
    if Passes(c, s, op) {
      PassedEffect(c, s, op);
    }
  }

  lemma PassedEffect(c: Crypto, s: Server, op: Op)
    requires (op.Promote? || op.Demote? || op.Kick?) && op.r.channel in s.channels && AnswerOf(c, s, op) == Success
    ensures var t := Apply(c, s, op);
            && op.r.channel in t.channels && t.channels.Keys == s.channels.Keys && t.nodes == s.nodes
            && Changed(s.channels[op.r.channel], t.channels[op.r.channel], op)
            && (forall id :: id in s.channels && id != op.r.channel ==> t.channels[id] == s.channels[id])
            && t.log == s.log + if op.env.logWritten then [RowOf(op)] else []
  {
  }

  lemma OthersKeepMembers(c: Crypto, s: Server, op: Op, id: string)
    requires id in s.channels && !op.Promote? && !op.Demote? && !op.Kick?
    ensures id in Apply(c, s, op).channels
    ensures Apply(c, s, op).channels[id].members == s.channels[id].members
    ensures Apply(c, s, op).channels[id].ownerID == s.channels[id].ownerID
  {
  }

  /** The operation is a kick of `n` from channel `id` that passes its guards. */
  predicate Kicks(c: Crypto, s: Server, op: Op, id: string, n: NodeId) {
    op.Kick? && op.r.channel == id && op.r.target == n && Passes(c, s, op)
  }

  /** One operation, from any state: an existing channel loses a member exactly when it is kicked, and gains none. */
  lemma MembersByOperation(c: Crypto, s: Server, op: Op, id: string, n: NodeId)
    requires id in s.channels
    ensures id in Apply(c, s, op).channels && Apply(c, s, op).channels[id].ownerID == s.channels[id].ownerID
    ensures n in Apply(c, s, op).channels[id].members <==> n in s.channels[id].members && !Kicks(c, s, op, id, n)
  {
    if op.Promote? || op.Demote? || op.Kick? {
      SucceedsExactly(c, s, op);
    } else {
      OthersKeepMembers(c, s, op, id);
    }
  }

  // ---------------------------------------------------------------------------------------
  // Creating channels
  // ---------------------------------------------------------------------------------------

  /** The creation passes its guards. */
  predicate Creates(s: Server, op: Op, id: string) {
    op.Create? && op.name != "" && op.owner != "" && "#" + op.name == id && id !in s.channels
  }

  /** What creating answers and does, guard by guard. */
  lemma CreatesExactly(s: Server, name: string, owner: NodeId, avatar: string)
    ensures var (t, a) := DoCreate(s, name, owner, avatar);
            && a == (if name == "" || owner == "" then Failure(NameAndOwnerRequired)
                     else if "#" + name in s.channels then Failure(ChannelExists) else Success)
            && (a != Success ==> t == s)
            && (a == Success ==>
                  && t.channels.Keys == s.channels.Keys + {"#" + name} && t.nodes == s.nodes && t.log == s.log
                  && (forall id :: id in s.channels ==> t.channels[id] == s.channels[id])
                  && var ch := t.channels["#" + name];
                     && ch.id == "#" + name && ch.name == name && ch.ownerID == owner && ch.avatar == avatar
                     && ch.members == {owner} && ch.roles == map[owner := "ADMIN"])
  {
  }

  lemma OnlyCreationAdds(c: Crypto, s: Server, op: Op, id: string)
    ensures id in Apply(c, s, op).channels <==> id in s.channels || Creates(s, op, id)
    ensures Creates(s, op, id) ==>
              && id in Apply(c, s, op).channels
              && Apply(c, s, op).channels[id] == Channel(id, op.name, op.owner, {op.owner}, map[op.owner := "ADMIN"], op.avatar)
  {
    if op.Promote? || op.Demote? || op.Kick? {
      SucceedsExactly(c, s, op);
    } else if op.Create? {
      CreatesExactly(s, op.name, op.owner, op.avatar);
    }
  }

  // ---------------------------------------------------------------------------------------
  // Members over a run
  // ---------------------------------------------------------------------------------------

  lemma RunStep(c: Crypto, ops: seq<Op>, k: nat)
    requires k < |ops|
    ensures Run(c, Bootstrap(), ops[..k + 1]) == Apply(c, Run(c, Bootstrap(), ops[..k]), ops[k])
  {
    assert ops[..k + 1][..k] == ops[..k];
  }

  ghost predicate OwnerOrNobody(s: Server, id: string) {
    id in s.channels ==> s.channels[id].members <= {s.channels[id].ownerID} && (id == INICIO ==> s.channels[id].members == {})
  }

  lemma {:induction false} MembersRun(c: Crypto, ops: seq<Op>, id: string)
    ensures INICIO in Run(c, Bootstrap(), ops).channels && OwnerOrNobody(Run(c, Bootstrap(), ops), id)
  {
    if ops != [] {
      var s, op := Run(c, Bootstrap(), ops[..|ops| - 1]), ops[|ops| - 1];
      MembersRun(c, ops[..|ops| - 1], id);
      OnlyCreationAdds(c, s, op, INICIO);
      OnlyCreationAdds(c, s, op, id);
      if id in s.channels {
        forall n | n in Apply(c, s, op).channels[id].members ensures n in s.channels[id].members {
          MembersByOperation(c, s, op, id, n);
        }
        MembersByOperation(c, s, op, id, "");
      }
    }
  }

  /** The channel exists and has lost its owner as a member. */
  ghost predicate Deserted(s: Server, id: string) {
    id in s.channels && s.channels[id].ownerID !in s.channels[id].members
  }

  ghost predicate DesertedBefore(c: Crypto, ops: seq<Op>, k: int, id: string) {
    0 <= k <= |ops| && Deserted(Run(c, Bootstrap(), ops[..k]), id)
  }

  /** Step `k` of the run kicks the owner of channel `id`, past all guards. */
  ghost predicate OwnerKickedAt(c: Crypto, ops: seq<Op>, k: int, id: string) {
    && 0 <= k < |ops| && id in Run(c, Bootstrap(), ops[..k]).channels
    && Kicks(c, Run(c, Bootstrap(), ops[..k]), ops[k], id, Run(c, Bootstrap(), ops[..k]).channels[id].ownerID)
  }

  lemma DesertedByStep(c: Crypto, s: Server, op: Op, id: string)
    ensures Deserted(Apply(c, s, op), id) <==>
            Deserted(s, id) || (id in s.channels && Kicks(c, s, op, id, s.channels[id].ownerID))
  {
    OnlyCreationAdds(c, s, op, id);
    if id in s.channels {
      MembersByOperation(c, s, op, id, s.channels[id].ownerID);
    }
  }

  /** Some step of the run kicks the owner of channel `id`, past all guards. */
  ghost predicate OwnerKicked(c: Crypto, ops: seq<Op>, id: string) {
    exists k :: 0 <= k < |ops| && OwnerKickedAt(c, ops, k, id)
  }

  lemma DesertedLast(c: Crypto, ops: seq<Op>, id: string)
    requires id != INICIO
    ensures DesertedBefore(c, ops, |ops|, id) <==> LastSet(k => OwnerKickedAt(c, ops, k, id), k => false, 0, |ops|)
  {
    forall k: int | 0 <= k < |ops|
      ensures DesertedBefore(c, ops, k + 1, id) <==> OwnerKickedAt(c, ops, k, id) || DesertedBefore(c, ops, k, id)
    {
      RunStep(c, ops, k);
      DesertedByStep(c, Run(c, Bootstrap(), ops[..k]), ops[k], id);
    }
    SetAndNotCleared(k => DesertedBefore(c, ops, k, id), k => OwnerKickedAt(c, ops, k, id), k => false, 0, |ops|);
  }

  lemma EverSet(sets: int -> bool, m: int)
    ensures LastSet(sets, k => false, 0, m) <==> exists k :: 0 <= k < m && sets(k)
  {
  }

  lemma DesertedExactly(c: Crypto, ops: seq<Op>, id: string)
    requires id != INICIO
    ensures Deserted(Run(c, Bootstrap(), ops), id) <==> OwnerKicked(c, ops, id)
  {
    DesertedLast(c, ops, id);
    EverSet(k => OwnerKickedAt(c, ops, k, id), |ops|);
    assert ops[..|ops|] == ops;
    if LastSet(k => OwnerKickedAt(c, ops, k, id), k => false, 0, |ops|) {
      var k :| 0 <= k < |ops| && (k => OwnerKickedAt(c, ops, k, id))(k);
      assert OwnerKickedAt(c, ops, k, id);
    }
    if OwnerKicked(c, ops, id) {
      var k :| 0 <= k < |ops| && OwnerKickedAt(c, ops, k, id);
      assert (k => OwnerKickedAt(c, ops, k, id))(k);
    }
  }

  /**
   In every run the members of a channel other than the bootstrap channel are its owner alone, or
   nobody if and only if some kick of the owner passed its guards. The bootstrap channel has none.
  */
  lemma MembersExactly(c: Crypto, ops: seq<Op>, id: string)
    requires id in Run(c, Bootstrap(), ops).channels
    ensures var ch := Run(c, Bootstrap(), ops).channels[id];
            ch.members == if id == INICIO || OwnerKicked(c, ops, id) then {} else {ch.ownerID}
  {
    MembersRun(c, ops, id);
    if id != INICIO {
      DesertedExactly(c, ops, id);
    }
  }

  // ---------------------------------------------------------------------------------------
  // The avatar
  // ---------------------------------------------------------------------------------------

  /** An avatar change of channel `id` passes its guards. */
  predicate PaintsAvatar(c: Crypto, s: Server, op: Op, id: string) {
    && op.SetAvatar? && op.channel == id && id in s.channels
    && !op.env.lookupFails && op.requester in s.nodes
    && c.verify(s.nodes[op.requester], id + "|" + op.avatar + "|" + Decimal.IntText(op.timestamp), op.signature)
    && (Entry(s.channels[id].roles, op.requester) == Some("ADMIN") || s.channels[id].ownerID == op.requester)
  }

  /** The answer that the first failing guard of an avatar change gives; with none failing, success. */
  function AvatarAnswer(c: Crypto, s: Server, op: Op): Response
    requires op.SetAvatar?
  {
    if op.env.lookupFails then Failure(RequesterNotFound)
    else if op.requester !in s.nodes then Failure(Panicked)
    else if !c.verify(s.nodes[op.requester], op.channel + "|" + op.avatar + "|" + Decimal.IntText(op.timestamp), op.signature)
    then Failure(InvalidSignature)
    else if op.channel !in s.channels then Failure(ChannelNotFound)
    else if Entry(s.channels[op.channel].roles, op.requester) == Some("ADMIN") || s.channels[op.channel].ownerID == op.requester
    then Success
    else Failure(PermissionDenied)
  }

  /** What changing an avatar answers, guard by guard, and that success changes the avatar and nothing else. */
  lemma AvatarChangesExactly(c: Crypto, s: Server, op: Op)
    requires op.SetAvatar?
    ensures var (t, a) := DoSetAvatar(c, s, op.env, op.requester, op.channel, op.avatar, op.timestamp, op.signature);
            && a == AvatarAnswer(c, s, op)
            && (a == Success <==> PaintsAvatar(c, s, op, op.channel))
            && (a != Success ==> t == s)
            && (a == Success ==>
                  && t == s.(channels := t.channels) && t.channels.Keys == s.channels.Keys
                  && t.channels[op.channel] == s.channels[op.channel].(avatar := op.avatar)
                  && forall id :: id in s.channels && id != op.channel ==> t.channels[id] == s.channels[id])
  {
  }

  /** The avatar of channel `id` in a run: the last one that was painted, before that the one it was created with. */
  ghost function LastAvatar(c: Crypto, ops: seq<Op>, id: string): string {
    if ops == [] then ""
    else
      var before, op := ops[..|ops| - 1], ops[|ops| - 1];
      var s := Run(c, Bootstrap(), before);
      if PaintsAvatar(c, s, op, id) || Creates(s, op, id) then op.avatar else LastAvatar(c, before, id)
  }

  lemma AvatarByStep(c: Crypto, s: Server, op: Op, id: string)
    requires id in Apply(c, s, op).channels
    ensures id in s.channels || Creates(s, op, id)
    ensures Apply(c, s, op).channels[id].avatar ==
            if PaintsAvatar(c, s, op, id) || Creates(s, op, id) then op.avatar else s.channels[id].avatar
  {
    OnlyCreationAdds(c, s, op, id);
    if op.Promote? || op.Demote? || op.Kick? {
      SucceedsExactly(c, s, op);
    } else if op.SetAvatar? {
      AvatarChangesExactly(c, s, op);
    }
  }

  /** In every run a channel's avatar is the last one set past all guards. */
  lemma {:induction false} AvatarExactly(c: Crypto, ops: seq<Op>, id: string)
    requires id in Run(c, Bootstrap(), ops).channels
    ensures Run(c, Bootstrap(), ops).channels[id].avatar == LastAvatar(c, ops, id)
  {
    if ops != [] {
      var before, op := ops[..|ops| - 1], ops[|ops| - 1];
      var s := Run(c, Bootstrap(), before);
      AvatarByStep(c, s, op, id);
      if id in s.channels {
        AvatarExactly(c, before, id);
        OnlyCreationAdds(c, s, op, id);
      }
    }
  }

  // ---------------------------------------------------------------------------------------
  // The node directory
  // ---------------------------------------------------------------------------------------

  /** A registration of `id` with `key` that passes the identity check. */
  predicate Enters(c: Crypto, op: Op, id: NodeId, key: PublicKey) {
    op.RegisterNode? && op.id == id && op.key == key && id == DeriveNodeId(c, key) && c.verify(key, id, op.signature)
  }

  /** The directory forgets `id`, or replaces its key. */
  predicate Leaves(c: Crypto, op: Op, id: NodeId, key: PublicKey) {
    (op.ForgetNode? && op.id == id) || (op.RegisterNode? && op.key != key && Enters(c, op, id, op.key))
  }

  predicate KeyOf(s: Server, id: NodeId, key: PublicKey) {
    id in s.nodes && s.nodes[id] == key
  }

  ghost predicate KeyBefore(c: Crypto, ops: seq<Op>, k: int, id: NodeId, key: PublicKey) {
    0 <= k <= |ops| && KeyOf(Run(c, Bootstrap(), ops[..k]), id, key)
  }

  lemma DirectoryByStep(c: Crypto, s: Server, op: Op, id: NodeId, key: PublicKey)
    ensures KeyOf(Apply(c, s, op), id, key) <==> Enters(c, op, id, key) || (KeyOf(s, id, key) && !Leaves(c, op, id, key))
  {
    if op.Promote? || op.Demote? || op.Kick? {
      SucceedsExactly(c, s, op);
    }
  }

  predicate EntersAt(c: Crypto, ops: seq<Op>, k: int, id: NodeId, key: PublicKey) {
    0 <= k < |ops| && Enters(c, ops[k], id, key)
  }

  predicate LeavesAt(c: Crypto, ops: seq<Op>, k: int, id: NodeId, key: PublicKey) {
    0 <= k < |ops| && Leaves(c, ops[k], id, key)
  }

  /**
   In every run the directory has a key for a node if and only if some registration of that key passed
   the identity check and since then the node was neither forgotten nor registered with another key.
  */
  lemma DirectoryExactly(c: Crypto, ops: seq<Op>, id: NodeId, key: PublicKey)
    ensures KeyOf(Run(c, Bootstrap(), ops), id, key) <==>
            LastSet(k => EntersAt(c, ops, k, id, key), k => LeavesAt(c, ops, k, id, key), 0, |ops|)
  {
    forall k: int | 0 <= k < |ops|
      ensures KeyBefore(c, ops, k + 1, id, key) <==>
              EntersAt(c, ops, k, id, key) || (KeyBefore(c, ops, k, id, key) && !LeavesAt(c, ops, k, id, key))
    {
      RunStep(c, ops, k);
      DirectoryByStep(c, Run(c, Bootstrap(), ops[..k]), ops[k], id, key);
    }
    SetAndNotCleared(k => KeyBefore(c, ops, k, id, key), k => EntersAt(c, ops, k, id, key), k => LeavesAt(c, ops, k, id, key), 0, |ops|);
    assert ops[..|ops|] == ops;
  }

  /** Which byte two hexadecimal digits stand for. */
  function DigitValue(d: char): int {
    if '0' <= d <= '9' then d as int - '0' as int
    else if 'a' <= d <= 'f' then d as int - 'a' as int + 10
    else -1
  }

  lemma HexDigitValue(d: bv8)
    ensures DigitValue(HexDigit(d)) == (d & 0x0f) as int
  {
  }

  /** The digits of a byte read back: the high one and the low one, in this order. */
  lemma {:induction false} HexReads(bytes: seq<bv8>, i: nat)
    requires i < |bytes|
    ensures DigitValue(Hex(bytes)[2 * i]) == ((bytes[i] >> 4) & 0x0f) as int
    ensures DigitValue(Hex(bytes)[2 * i + 1]) == (bytes[i] & 0x0f) as int
    decreases |bytes|
  {
    var last := |bytes| - 1;
    if i == last {
      HexDigitValue(bytes[i] >> 4);
      HexDigitValue(bytes[i]);
    } else {
      HexReads(bytes[..last], i);
    }
  }

  lemma NibblesMakeByte(a: bv8, b: bv8)
    requires a & 0x0f == b & 0x0f && (a >> 4) & 0x0f == (b >> 4) & 0x0f
    ensures a == b
  {
  }

  lemma {:induction false} HexInjective(a: seq<bv8>, b: seq<bv8>)
    requires Hex(a) == Hex(b)
    ensures a == b
  {
    if a != [] && b != [] {
      var x, y := a[|a| - 1], b[|b| - 1];
      var s := Hex(a);
      assert s == Hex(a[..|a| - 1]) + [HexDigit(x >> 4), HexDigit(x)];
      assert s == Hex(b[..|b| - 1]) + [HexDigit(y >> 4), HexDigit(y)];
      assert s[..|s| - 2] == Hex(a[..|a| - 1]) == Hex(b[..|b| - 1]);
      HexInjective(a[..|a| - 1], b[..|b| - 1]);
      assert s[|s| - 2] == HexDigit(x >> 4) == HexDigit(y >> 4) && s[|s| - 1] == HexDigit(x) == HexDigit(y);
      SameDigits(x, y);
    }
  }

  lemma SameDigits(x: bv8, y: bv8)
    requires HexDigit(x) == HexDigit(y) && HexDigit(x >> 4) == HexDigit(y >> 4)
    ensures x == y
  {
    HexDigitValue(x);
    HexDigitValue(y);
    HexDigitValue(x >> 4);
    HexDigitValue(y >> 4);
    NibblesMakeByte(x, y);
  }

  /** Two keys have the same identifier if and only if their hashes start with the same 16 bytes. */
  lemma SameIdentifierExactly(c: Crypto, key: PublicKey, other: PublicKey)
    requires HashSize(c)
    ensures DeriveNodeId(c, key) == DeriveNodeId(c, other) <==> c.hash(key)[..16] == c.hash(other)[..16]
  {
    if DeriveNodeId(c, key) == DeriveNodeId(c, other) {
      HexInjective(c.hash(key)[..16], c.hash(other)[..16]);
    }
  }
}
