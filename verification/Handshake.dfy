/**
 The client's key exchange. An initiator remembers a fresh key pair as pending and sends its public
 half; the responder derives a session key from a fresh pair of its own and acknowledges with that
 pair's public half; the initiator completes with the pending pair. Messages are delayed, reordered
 and lost freely. Of the X25519 function of section 6.1 of RFC 7748 only its symmetry is used.
*/
module Handshake {
  import opened Common

  type NodeId = string

  /** Private keys are named by numbers; a freshly generated one has a new number. */
  type PrivateKey = nat
  type PublicKey = seq<bv8>
  type SharedKey = seq<bv8>

  /** `derive` is None where the source stores a nil key: a public key it cannot use. */
  datatype Dh = Dh(public: PrivateKey -> PublicKey, derive: (PrivateKey, PublicKey) -> Option<SharedKey>)

  /** Both holders of the two pairs derive the same key. */
  predicate Swaps(d: Dh, i: PrivateKey, j: PrivateKey) {
    d.derive(i, d.public(j)) == d.derive(j, d.public(i))
  }

  ghost predicate Symmetric(d: Dh) {
    forall i: PrivateKey, j: PrivateKey :: Swaps(d, i, j)
  }

  /**
   A client: its session keys and pending pairs per peer. The rest is history: the private keys it
   generated, the public keys it received and from whom, what each session key was derived from, and
   the pending pairs it has used up.
  */
  datatype Client = Client(
    sessions: map<NodeId, Option<SharedKey>>,
    pending: map<NodeId, PrivateKey>,
    made: set<PrivateKey>,
    heard: set<(NodeId, PublicKey)>,
    origin: map<NodeId, (PrivateKey, PublicKey)>,
    consumed: multiset<PrivateKey>)

  const NEW_CLIENT := Client(map[], map[], {}, {}, map[], multiset{})

  datatype Message =
    | Init(from: NodeId, to: NodeId, key: PublicKey)
    | Ack(from: NodeId, to: NodeId, key: PublicKey)

  // ---------------------------------------------------------------------------------------
  // The three handlers
  // ---------------------------------------------------------------------------------------

  function DoInitiate(c: Client, target: NodeId, fresh': PrivateKey): Client {
    c.(pending := c.pending[target := fresh'], made := c.made + {fresh'})
  }

  function Store(c: Client, d: Dh, peer: NodeId, mine: PrivateKey, theirs: PublicKey): Client {
    c.(sessions := c.sessions[peer := d.derive(mine, theirs)],
       heard := c.heard + {(peer, theirs)},
       origin := c.origin[peer := (mine, theirs)])
  }

  function DoInit(c: Client, d: Dh, sender: NodeId, key: PublicKey, fresh': PrivateKey): Client {
    Store(c, d, sender, fresh', key).(made := c.made + {fresh'})
  }

  function DoAck(c: Client, d: Dh, sender: NodeId, key: PublicKey): Client {
    if sender !in c.pending then c
    else
      Store(c, d, sender, c.pending[sender], key)
        .(pending := c.pending - {sender}, consumed := c.consumed + multiset{c.pending[sender]})
  }

  // ---------------------------------------------------------------------------------------
  // A network of clients
  // ---------------------------------------------------------------------------------------

  datatype World = World(clients: map<NodeId, Client>, net: multiset<Message>, next: PrivateKey)

  datatype Action = Initiate(a: NodeId, b: NodeId) | Deliver(m: Message) | Lose(m: Message) | Forge(m: Message)

  function ClientOf(w: World, n: NodeId): Client {
    if n in w.clients then w.clients[n] else NEW_CLIENT
  }

  function Act(w: World, d: Dh, a: Action): World {
    match a
    case Initiate(from, to) =>
      World(w.clients[from := DoInitiate(ClientOf(w, from), to, w.next)],
            w.net + multiset{Init(from, to, d.public(w.next))}, w.next + 1)
    case Deliver(m) =>
      if m !in w.net then w
      else if m.Init? then
        World(w.clients[m.to := DoInit(ClientOf(w, m.to), d, m.from, m.key, w.next)],
              w.net - multiset{m} + multiset{Ack(m.to, m.from, d.public(w.next))}, w.next + 1)
      else
        w.(clients := w.clients[m.to := DoAck(ClientOf(w, m.to), d, m.from, m.key)], net := w.net - multiset{m})
    case Lose(m) => w.(net := w.net - multiset{m})
    case Forge(m) => w.(net := w.net + multiset{m})
  }

  const START := World(map[], multiset{}, 0)

  function Exec(d: Dh, acts: seq<Action>): World {
    if acts == [] then START else Act(Exec(d, acts[..|acts| - 1]), d, acts[|acts| - 1])
  }

  // ---------------------------------------------------------------------------------------
  // Where keys come from, in all runs
  // ---------------------------------------------------------------------------------------

  ghost predicate SessionInv(c: Client, d: Dh, peer: NodeId)
    requires peer in c.sessions
  {
    && peer in c.origin
    && c.origin[peer].0 in c.made
    && (peer, c.origin[peer].1) in c.heard
    && c.sessions[peer] == d.derive(c.origin[peer].0, c.origin[peer].1)
  }

  ghost predicate KeysInv(c: Client, next: PrivateKey) {
    && (forall k :: k in c.made ==> k < next)
    && (forall p :: p in c.pending ==> c.pending[p] in c.made && c.pending[p] !in c.consumed)
    && (forall p, q :: p in c.pending && q in c.pending && c.pending[p] == c.pending[q] ==> p == q)
    && (forall k :: k in c.consumed ==> k in c.made && c.consumed[k] == 1)
  }

  ghost predicate ClientInv(c: Client, d: Dh, next: PrivateKey) {
    KeysInv(c, next) && forall peer :: peer in c.sessions ==> SessionInv(c, d, peer)
  }

  lemma InitiateInv(c: Client, d: Dh, target: NodeId, next: PrivateKey)
    requires ClientInv(c, d, next)
    ensures ClientInv(DoInitiate(c, target, next), d, next + 1)
  {
    var v := DoInitiate(c, target, next);
    forall peer | peer in v.sessions ensures SessionInv(v, d, peer) { assert SessionInv(c, d, peer); }
  }

  lemma InitInv(c: Client, d: Dh, sender: NodeId, key: PublicKey, next: PrivateKey)
    requires ClientInv(c, d, next)
    ensures ClientInv(DoInit(c, d, sender, key, next), d, next + 1)
  {
    var v := DoInit(c, d, sender, key, next);
    forall peer | peer in v.sessions ensures SessionInv(v, d, peer) {
      if peer != sender { assert SessionInv(c, d, peer); }
    }
  }

  lemma AckInv(c: Client, d: Dh, sender: NodeId, key: PublicKey, next: PrivateKey)
    requires ClientInv(c, d, next)
    ensures ClientInv(DoAck(c, d, sender, key), d, next)
  {
    var v := DoAck(c, d, sender, key);
    forall peer | peer in v.sessions ensures SessionInv(v, d, peer) {
      if peer != sender || sender !in c.pending { assert SessionInv(c, d, peer); }
    }
  }

  ghost predicate WorldInv(w: World, d: Dh) {
    forall n :: n in w.clients ==> ClientInv(w.clients[n], d, w.next)
  }

  lemma NextLater(c: Client, d: Dh, next: PrivateKey)
    requires ClientInv(c, d, next)
    ensures ClientInv(c, d, next + 1)
  {
    forall peer | peer in c.sessions ensures SessionInv(c, d, peer) { assert SessionInv(c, d, peer); }
  }

  /** What a step does to a client: nothing, or the one handler that runs there. */
  function ClientAfter(w: World, d: Dh, a: Action, n: NodeId): Client {
    var c := ClientOf(w, n);
    if a.Initiate? && a.a == n then DoInitiate(c, a.b, w.next)
    else if a.Deliver? && a.m in w.net && a.m.to == n then
      if a.m.Init? then DoInit(c, d, a.m.from, a.m.key, w.next) else DoAck(c, d, a.m.from, a.m.key)
    else c
  }

  lemma ActOnClient(w: World, d: Dh, a: Action, n: NodeId)
    ensures ClientOf(Act(w, d, a), n) == ClientAfter(w, d, a, n)
  {
  }

  lemma ClientStep(w: World, d: Dh, a: Action, n: NodeId)
    requires ClientInv(ClientOf(w, n), d, w.next)
    ensures ClientInv(ClientOf(Act(w, d, a), n), d, Act(w, d, a).next)
  {
    NextLater(ClientOf(w, n), d, w.next);
    if a.Initiate? && n == a.a { InitiateInv(ClientOf(w, n), d, a.b, w.next); }
    if a.Deliver? && a.m in w.net && n == a.m.to {
      if a.m.Init? { InitInv(ClientOf(w, n), d, a.m.from, a.m.key, w.next); }
      else { AckInv(ClientOf(w, n), d, a.m.from, a.m.key, w.next); }
    }
  }

  lemma WorldStep(w: World, d: Dh, a: Action)
    requires WorldInv(w, d)
    ensures WorldInv(Act(w, d, a), d)
  {
    var v := Act(w, d, a);
    forall n | n in v.clients ensures ClientInv(v.clients[n], d, v.next) {
      assert ClientInv(ClientOf(w, n), d, w.next);
      ClientStep(w, d, a, n);
    }
  }

  lemma {:induction false} WorldExec(d: Dh, acts: seq<Action>)
    ensures WorldInv(Exec(d, acts), d)
  {
    if acts != [] {
      WorldExec(d, acts[..|acts| - 1]);
      WorldStep(Exec(d, acts[..|acts| - 1]), d, acts[|acts| - 1]);
    }
  }

  /** Step `i` of the run delivers to `n` a message under way from `peer` with public key `theirs`. */
  ghost predicate Delivers(d: Dh, acts: seq<Action>, i: nat, n: NodeId, peer: NodeId, theirs: PublicKey)
    requires i < |acts|
  {
    && acts[i].Deliver? && acts[i].m in Exec(d, acts[..i]).net
    && acts[i].m.from == peer && acts[i].m.to == n && acts[i].m.key == theirs
  }

  ghost predicate Received(d: Dh, acts: seq<Action>, n: NodeId, peer: NodeId, theirs: PublicKey) {
    exists i :: 0 <= i < |acts| && Delivers(d, acts, i, n, peer, theirs)
  }

  /** In step `i` of the run `n` generates the private key `mine`: it initiates, or answers an init. */
  ghost predicate Generates(d: Dh, acts: seq<Action>, i: nat, n: NodeId, mine: PrivateKey)
    requires i < |acts|
  {
    && Exec(d, acts[..i]).next == mine
    && ((acts[i].Initiate? && acts[i].a == n)
        || (acts[i].Deliver? && acts[i].m in Exec(d, acts[..i]).net && acts[i].m.Init? && acts[i].m.to == n))
  }

  ghost predicate Generated(d: Dh, acts: seq<Action>, n: NodeId, mine: PrivateKey) {
    exists i :: 0 <= i < |acts| && Generates(d, acts, i, n, mine)
  }

  lemma EarlierSteps(d: Dh, acts: seq<Action>, n: NodeId, peer: NodeId, theirs: PublicKey, mine: PrivateKey)
    requires acts != []
    ensures Received(d, acts[..|acts| - 1], n, peer, theirs) ==> Received(d, acts, n, peer, theirs)
    ensures Generated(d, acts[..|acts| - 1], n, mine) ==> Generated(d, acts, n, mine)
  {
    var before := acts[..|acts| - 1];
    if Received(d, before, n, peer, theirs) {
      var i :| 0 <= i < |before| && Delivers(d, before, i, n, peer, theirs);
      assert before[..i] == acts[..i] && Delivers(d, acts, i, n, peer, theirs);
    }
    if Generated(d, before, n, mine) {
      var i :| 0 <= i < |before| && Generates(d, before, i, n, mine);
      assert before[..i] == acts[..i] && Generates(d, acts, i, n, mine);
    }
  }

  lemma LastStep(d: Dh, acts: seq<Action>, n: NodeId, peer: NodeId, theirs: PublicKey, mine: PrivateKey)
    requires acts != []
    ensures var c := ClientOf(Exec(d, acts[..|acts| - 1]), n);
            && ((peer, theirs) in ClientOf(Exec(d, acts), n).heard && (peer, theirs) !in c.heard ==>
                  Delivers(d, acts, |acts| - 1, n, peer, theirs))
            && (mine in ClientOf(Exec(d, acts), n).made && mine !in c.made ==> Generates(d, acts, |acts| - 1, n, mine))
  {
    ActOnClient(Exec(d, acts[..|acts| - 1]), d, acts[|acts| - 1], n);
  }

  /** The histories of a client are what the run's steps did. */
  lemma {:induction false} HistoryIsReal(d: Dh, acts: seq<Action>, n: NodeId, peer: NodeId, theirs: PublicKey, mine: PrivateKey)
    ensures (peer, theirs) in ClientOf(Exec(d, acts), n).heard ==> Received(d, acts, n, peer, theirs)
    ensures mine in ClientOf(Exec(d, acts), n).made ==> Generated(d, acts, n, mine)
  {
    if acts != [] {
      HistoryIsReal(d, acts[..|acts| - 1], n, peer, theirs, mine);
      EarlierSteps(d, acts, n, peer, theirs, mine);
      LastStep(d, acts, n, peer, theirs, mine);
    }
  }

  /** A key derived from a private key that a step of `n` generated and a public key that a step delivered from `peer`. */
  ghost predicate Provenance(d: Dh, acts: seq<Action>, n: NodeId, peer: NodeId, key: Option<SharedKey>) {
    exists mine, theirs ::
      Generated(d, acts, n, mine) && Received(d, acts, n, peer, theirs) && key == d.derive(mine, theirs)
  }

  /**
   In all runs, whatever is lost, reordered or forged: every stored session key was derived from a
   private key that a step of this client generated and a public key that a step delivered to it from
   that peer, and every pending pair is used up at most once.
  */
  lemma KeysHaveProvenance(d: Dh, acts: seq<Action>, n: NodeId, peer: NodeId)
    requires n in Exec(d, acts).clients
    ensures var c := Exec(d, acts).clients[n];
            && (peer in c.sessions ==> Provenance(d, acts, n, peer, c.sessions[peer]))
            && (forall k :: c.consumed[k] <= 1)
            && (peer in c.pending ==> Generated(d, acts, n, c.pending[peer]) && c.pending[peer] !in c.consumed)
  {
    WorldExec(d, acts);
    var c := Exec(d, acts).clients[n];
    assert ClientInv(c, d, Exec(d, acts).next);
    if peer in c.sessions {
      assert SessionInv(c, d, peer);
      var mine, theirs := c.origin[peer].0, c.origin[peer].1;
      HistoryIsReal(d, acts, n, peer, theirs, mine);
      assert Generated(d, acts, n, mine) && Received(d, acts, n, peer, theirs) && c.sessions[peer] == d.derive(mine, theirs);
    }
    if peer in c.pending {
      HistoryIsReal(d, acts, n, peer, [], c.pending[peer]);
    }
    forall k ensures c.consumed[k] <= 1 {
      if k in c.consumed { assert c.consumed[k] == 1; }
    }
  }

  // ---------------------------------------------------------------------------------------
  // Agreement with one initiator
  // ---------------------------------------------------------------------------------------

  predicate Between(m: Message, a: NodeId, b: NodeId) {
    (m.from == a && m.to == b) || (m.from == b && m.to == a)
  }

  /** `b` never initiates with `a`, `a` waits for its pending handshake with `b`, nobody forges their messages. */
  predicate Disciplined(w: World, a: NodeId, b: NodeId, act: Action) {
    && (act.Initiate? && act.a == b ==> act.b != a)
    && (act.Initiate? && act.a == a && act.b == b ==> b !in ClientOf(w, a).pending)
    && (act.Forge? ==> !Between(act.m, a, b))
  }

  ghost predicate DisciplinedRun(d: Dh, acts: seq<Action>, a: NodeId, b: NodeId) {
    forall i :: 0 <= i < |acts| ==> Disciplined(Exec(d, acts[..i]), a, b, acts[i])
  }

  /** Equal session keys, or neither side has one. */
  ghost predicate Agree(w: World, a: NodeId, b: NodeId) {
    && (b in ClientOf(w, a).sessions <==> a in ClientOf(w, b).sessions)
    && (b in ClientOf(w, a).sessions ==> ClientOf(w, a).sessions[b] == ClientOf(w, b).sessions[a])
  }

  /** The message of a pending handshake that may be under way: the init, or the answer to it. */
  ghost predicate Expected(w: World, d: Dh, a: NodeId, b: NodeId, m: Message)
    requires b in ClientOf(w, a).pending
  {
    var k, responder := ClientOf(w, a).pending[b], ClientOf(w, b);
    || m == Init(a, b, d.public(k))
    || (&& m.Ack? && m.from == b && m.to == a
        && a in responder.sessions && a in responder.origin
        && m.key == d.public(responder.origin[a].0)
        && responder.sessions[a] == d.derive(responder.origin[a].0, d.public(k)))
  }

  ghost predicate PairInv(w: World, d: Dh, a: NodeId, b: NodeId) {
    if b in ClientOf(w, a).pending then
      && (forall m :: m in w.net && Between(m, a, b) ==> Expected(w, d, a, b, m) && w.net[m] == 1)
      && (forall m, l :: m in w.net && l in w.net && Between(m, a, b) && Between(l, a, b) ==> m == l)
    else
      Agree(w, a, b) && forall m :: m in w.net ==> !Between(m, a, b)
  }

  lemma PairInitiate(w: World, d: Dh, a: NodeId, b: NodeId, act: Action)
    requires a != b && PairInv(w, d, a, b) && act.Initiate? && Disciplined(w, a, b, act)
    ensures PairInv(Act(w, d, act), d, a, b)
  {
    if act.a == a && act.b == b {
      PairStarts(w, d, a, b);
    } else {
      PairFrame(w, Act(w, d, act), d, a, b);
    }
  }

  lemma PairStarts(w: World, d: Dh, a: NodeId, b: NodeId)
    requires a != b && PairInv(w, d, a, b) && b !in ClientOf(w, a).pending
    ensures PairInv(Act(w, d, Initiate(a, b)), d, a, b)
  {
    var v, sent := Act(w, d, Initiate(a, b)), Init(a, b, d.public(w.next));
    forall m | m in v.net && Between(m, a, b) ensures m == sent {
      assert m in w.net || m == sent;
    }
  }

  /** Steps of others: the pair's messages and both sides' entries for each other are unchanged. */
  lemma PairFrame(w: World, v: World, d: Dh, a: NodeId, b: NodeId)
    requires PairInv(w, d, a, b)
    requires forall m :: Between(m, a, b) ==> v.net[m] == w.net[m]
    requires SameEntry(ClientOf(w, a), ClientOf(v, a), b) && SameEntry(ClientOf(w, b), ClientOf(v, b), a)
    ensures PairInv(v, d, a, b)
  {
    forall m | Between(m, a, b) ensures m in v.net <==> m in w.net {
      assert v.net[m] == w.net[m];
    }
  }

  predicate SameEntry(c: Client, e: Client, peer: NodeId) {
    && (peer in c.sessions <==> peer in e.sessions) && (peer in c.sessions ==> c.sessions[peer] == e.sessions[peer])
    && (peer in c.pending <==> peer in e.pending) && (peer in c.pending ==> c.pending[peer] == e.pending[peer])
    && (peer in c.origin <==> peer in e.origin) && (peer in c.origin ==> c.origin[peer] == e.origin[peer])
  }

  /** The responder answers the only message under way, and its answer becomes the only one. */
  lemma PairInit(w: World, d: Dh, a: NodeId, b: NodeId, m: Message)
    requires a != b && PairInv(w, d, a, b) && m in w.net && m.Init? && Between(m, a, b)
    ensures PairInv(Act(w, d, Deliver(m)), d, a, b)
  {
    var v := Act(w, d, Deliver(m));
    var answer := Ack(m.to, m.from, d.public(w.next));
    assert Expected(w, d, a, b, m);
    forall l | l in v.net && Between(l, a, b) ensures l == answer {
      assert l in w.net || l == answer;
    }
    assert v.net[answer] == 1 by {
      assert answer !in w.net;
    }
  }

  /** The initiator completes: by symmetry it derives the responder's key, and nothing is under way. */
  lemma PairAck(w: World, d: Dh, a: NodeId, b: NodeId, m: Message)
    requires Symmetric(d) && a != b && PairInv(w, d, a, b) && m in w.net && m.Ack? && Between(m, a, b)
    ensures PairInv(Act(w, d, Deliver(m)), d, a, b)
  {
    var v := Act(w, d, Deliver(m));
    assert Expected(w, d, a, b, m);
    assert Swaps(d, ClientOf(w, a).pending[b], ClientOf(w, b).origin[a].0);
    forall l | l in v.net ensures !Between(l, a, b) {
      assert l in w.net;
    }
  }

  lemma PairStep(w: World, d: Dh, a: NodeId, b: NodeId, act: Action)
    requires Symmetric(d) && a != b && PairInv(w, d, a, b) && Disciplined(w, a, b, act)
    ensures PairInv(Act(w, d, act), d, a, b)
  {
    match act
    case Initiate(from, to) => PairInitiate(w, d, a, b, act);
    case Deliver(m) =>
      if m in w.net {
        if Between(m, a, b) {
          if m.Init? { PairInit(w, d, a, b, m); } else { PairAck(w, d, a, b, m); }
        } else {
          PairOther(w, d, a, b, m);
        }
      }
    case Lose(m) => PairLose(w, d, a, b, m);
    case Forge(m) => PairForge(w, d, a, b, m);
  }

  lemma OtherEntry(w: World, d: Dh, a: NodeId, b: NodeId, m: Message)
    requires !(m.from == b && m.to == a)
    ensures SameEntry(ClientOf(w, a), ClientOf(Act(w, d, Deliver(m)), a), b)
  {
    if m in w.net && m.to == a {
      OtherPeer(ClientOf(w, a), d, m, w.next, b);
    }
  }

  lemma OtherPeer(c: Client, d: Dh, m: Message, fresh': PrivateKey, b: NodeId)
    requires m.from != b
    ensures SameEntry(c, DoInit(c, d, m.from, m.key, fresh'), b) && SameEntry(c, DoAck(c, d, m.from, m.key), b)
  {
  }

  lemma PairOther(w: World, d: Dh, a: NodeId, b: NodeId, m: Message)
    requires PairInv(w, d, a, b) && m in w.net && !Between(m, a, b)
    ensures PairInv(Act(w, d, Deliver(m)), d, a, b)
  {
    var v := Act(w, d, Deliver(m));
    assert !Between(Ack(m.to, m.from, d.public(w.next)), a, b);
    forall l | Between(l, a, b) ensures v.net[l] == w.net[l] {
    }
    OtherEntry(w, d, a, b, m);
    OtherEntry(w, d, b, a, m);
    PairFrame(w, v, d, a, b);
  }

  lemma PairForge(w: World, d: Dh, a: NodeId, b: NodeId, m: Message)
    requires PairInv(w, d, a, b) && !Between(m, a, b)
    ensures PairInv(Act(w, d, Forge(m)), d, a, b)
  {
    var v := Act(w, d, Forge(m));
    forall l | Between(l, a, b) ensures v.net[l] == w.net[l] {
    }
    PairFrame(w, v, d, a, b);
  }

  lemma PairLose(w: World, d: Dh, a: NodeId, b: NodeId, m: Message)
    requires PairInv(w, d, a, b)
    ensures PairInv(Act(w, d, Lose(m)), d, a, b)
  {
    var v := Act(w, d, Lose(m));
    forall l | l in v.net ensures l in w.net && v.net[l] <= w.net[l] && v.net[l] >= 1 {
    }
  }

  lemma {:induction false} PairExec(d: Dh, acts: seq<Action>, a: NodeId, b: NodeId)
    requires Symmetric(d) && a != b && DisciplinedRun(d, acts, a, b)
    ensures PairInv(Exec(d, acts), d, a, b)
  {
    if acts != [] {
      var before := acts[..|acts| - 1];
      forall i | 0 <= i < |before| ensures Disciplined(Exec(d, before[..i]), a, b, before[i]) {
        assert before[..i] == acts[..i] && Disciplined(Exec(d, acts[..i]), a, b, acts[i]);
      }
      PairExec(d, before, a, b);
      assert Disciplined(Exec(d, acts[..|acts| - 1]), a, b, acts[|acts| - 1]);
      PairStep(Exec(d, before), d, a, b, acts[|acts| - 1]);
    }
  }

  /**
   Handshake agreement: with one initiator for the pair and no new init while one is pending, in every
   run with delay, reordering or loss and any activity of other clients, whenever the initiator has
   nothing pending the two sides hold equal session keys or neither has one.
  */
  lemma HandshakeAgreement(d: Dh, acts: seq<Action>, a: NodeId, b: NodeId)
    requires Symmetric(d) && a != b && DisciplinedRun(d, acts, a, b)
    requires b !in ClientOf(Exec(d, acts), a).pending
    ensures Agree(Exec(d, acts), a, b)
  {
    PairExec(d, acts, a, b);
  }

  // ---------------------------------------------------------------------------------------
  // When keys agree, exactly
  // ---------------------------------------------------------------------------------------

  /** Only the same two private keys give the same shared key. */
  ghost predicate Separating(d: Dh) {
    forall i: PrivateKey, j: PrivateKey, k: PrivateKey, l: PrivateKey ::
      d.derive(i, d.public(j)) == d.derive(k, d.public(l)) ==> {i, j} == {k, l}
  }

  /** Nobody forges messages between `a` and `b`; inits may cross, repeat, be lost and be reordered. */
  ghost predicate Unforged(acts: seq<Action>, a: NodeId, b: NodeId) {
    forall i :: 0 <= i < |acts| && acts[i].Forge? ==> !Between(acts[i].m, a, b)
  }

  /** The public half of a key that client `c` generated. */
  ghost predicate HalfOf(d: Dh, c: Client, key: PublicKey) {
    exists k :: k in c.made && key == d.public(k)
  }

  ghost predicate PeerHalf(w: World, d: Dh, x: NodeId, y: NodeId) {
    y in ClientOf(w, x).sessions ==>
      y in ClientOf(w, x).origin && HalfOf(d, ClientOf(w, y), ClientOf(w, x).origin[y].1)
  }

  /** A message carries a half of its sender's; who answers has a session. */
  ghost predicate FairMessage(w: World, d: Dh, m: Message) {
    HalfOf(d, ClientOf(w, m.from), m.key) && (m.Ack? ==> m.to in ClientOf(w, m.from).sessions)
  }

  ghost predicate FairInv(w: World, d: Dh, a: NodeId, b: NodeId) {
    && ClientOf(w, a).made !! ClientOf(w, b).made
    && (forall m :: m in w.net && Between(m, a, b) ==> FairMessage(w, d, m))
    && PeerHalf(w, d, a, b) && PeerHalf(w, d, b, a)
  }

  lemma GrowsAfter(w: World, d: Dh, act: Action, n: NodeId)
    ensures var c, e := ClientOf(w, n), ClientAfter(w, d, act, n);
            && c.made <= e.made <= c.made + {w.next}
            && (w.next in e.made && w.next !in c.made ==>
                  (act.Initiate? && act.a == n) || (act.Deliver? && act.m.to == n))
            && c.sessions.Keys <= e.sessions.Keys
  {
  }

  /** What a step does to one client's keys and sessions. */
  lemma Grows(w: World, d: Dh, act: Action, n: NodeId)
    ensures var c, e := ClientOf(w, n), ClientOf(Act(w, d, act), n);
            && c.made <= e.made <= c.made + {w.next}
            && (w.next in e.made && w.next !in c.made ==>
                  (act.Initiate? && act.a == n) || (act.Deliver? && act.m.to == n))
            && c.sessions.Keys <= e.sessions.Keys
  {
    ActOnClient(w, d, act, n);
    GrowsAfter(w, d, act, n);
  }

  lemma HalfStays(w: World, d: Dh, act: Action, n: NodeId, key: PublicKey)
    requires HalfOf(d, ClientOf(w, n), key)
    ensures HalfOf(d, ClientOf(Act(w, d, act), n), key)
  {
    Grows(w, d, act, n);
    var k :| k in ClientOf(w, n).made && key == d.public(k);
    assert k in ClientOf(Act(w, d, act), n).made;
  }

  /** A message under way after a step was under way before, is forged, or carries the step's new key. */
  lemma NewMessage(w: World, d: Dh, act: Action, m: Message)
    requires m in Act(w, d, act).net && m !in w.net
    ensures act == Forge(m)
            || (&& m.key == d.public(w.next) && w.next in ClientOf(Act(w, d, act), m.from).made
                && (m.Ack? ==> m.to in ClientOf(Act(w, d, act), m.from).sessions))
  {
  }

  lemma FairMessageStep(w: World, d: Dh, act: Action, m: Message)
    requires m in Act(w, d, act).net && act != Forge(m)
    requires m in w.net ==> FairMessage(w, d, m)
    ensures FairMessage(Act(w, d, act), d, m)
  {
    if m in w.net {
      HalfStays(w, d, act, m.from, m.key);
      Grows(w, d, act, m.from);
    } else {
      NewMessage(w, d, act, m);
    }
  }

  lemma NewOriginAfter(w: World, d: Dh, act: Action, x: NodeId, y: NodeId)
    ensures var c, e := ClientOf(w, x), ClientAfter(w, d, act, x);
            || SameOrigin(c, e, y)
            || (&& act.Deliver? && act.m in w.net && act.m.from == y && act.m.to == x
                && y in e.origin && e.origin[y].1 == act.m.key)
  {
  }

  /** A step that changes what `x` derived its key for `y` from is a delivery from `y` to `x`. */
  lemma NewOrigin(w: World, d: Dh, act: Action, x: NodeId, y: NodeId)
    ensures var c, e := ClientOf(w, x), ClientOf(Act(w, d, act), x);
            || SameOrigin(c, e, y)
            || (&& act.Deliver? && act.m in w.net && act.m.from == y && act.m.to == x
                && y in e.origin && e.origin[y].1 == act.m.key)
  {
    ActOnClient(w, d, act, x);
    NewOriginAfter(w, d, act, x, y);
  }

  predicate SameOrigin(c: Client, e: Client, y: NodeId) {
    && (y in c.sessions <==> y in e.sessions)
    && (y in c.origin <==> y in e.origin) && (y in c.origin ==> c.origin[y] == e.origin[y])
  }

  lemma PeerHalfStep(w: World, d: Dh, act: Action, x: NodeId, y: NodeId)
    requires PeerHalf(w, d, x, y)
    requires forall m :: m in w.net && m.from == y && m.to == x ==> FairMessage(w, d, m)
    ensures PeerHalf(Act(w, d, act), d, x, y)
  {
    NewOrigin(w, d, act, x, y);
    var c, e := ClientOf(w, x), ClientOf(Act(w, d, act), x);
    if SameOrigin(c, e, y) {
      if y in e.sessions { HalfStays(w, d, act, y, c.origin[y].1); }
    } else {
      HalfStays(w, d, act, y, act.m.key);
    }
  }

  lemma DisjointStep(w: World, d: Dh, act: Action, a: NodeId, b: NodeId)
    requires a != b && WorldInv(w, d) && ClientOf(w, a).made !! ClientOf(w, b).made
    ensures ClientOf(Act(w, d, act), a).made !! ClientOf(Act(w, d, act), b).made
  {
    Grows(w, d, act, a);
    Grows(w, d, act, b);
    assert ClientInv(ClientOf(w, a), d, w.next) && ClientInv(ClientOf(w, b), d, w.next);
  }

  lemma FairStep(w: World, d: Dh, act: Action, a: NodeId, b: NodeId)
    requires a != b && WorldInv(w, d) && FairInv(w, d, a, b) && (act.Forge? ==> !Between(act.m, a, b))
    ensures FairInv(Act(w, d, act), d, a, b)
  {
    DisjointStep(w, d, act, a, b);
    PeerHalfStep(w, d, act, a, b);
    PeerHalfStep(w, d, act, b, a);
    forall m | m in Act(w, d, act).net && Between(m, a, b) ensures FairMessage(Act(w, d, act), d, m) {
      FairMessageStep(w, d, act, m);
    }
  }

  lemma {:induction false} FairExec(d: Dh, acts: seq<Action>, a: NodeId, b: NodeId)
    requires a != b && Unforged(acts, a, b)
    ensures FairInv(Exec(d, acts), d, a, b)
  {
    if acts != [] {
      FairExec(d, acts[..|acts| - 1], a, b);
      WorldExec(d, acts[..|acts| - 1]);
      FairStep(Exec(d, acts[..|acts| - 1]), d, acts[|acts| - 1], a, b);
    }
  }

  /** Each side's key was derived with the public half of the very key that the other side derived its own from. */
  ghost predicate Mirrored(w: World, d: Dh, a: NodeId, b: NodeId) {
    var x, y := ClientOf(w, a), ClientOf(w, b);
    && b in x.origin && a in y.origin
    && x.origin[b].1 == d.public(y.origin[a].0) && y.origin[a].1 == d.public(x.origin[b].0)
  }

  /** The algebra of agreement: `i` and `j` are keys of one side, `k` and `q` of the other. */
  lemma SameDerivation(d: Dh, i: PrivateKey, k: PrivateKey, q: PrivateKey, j: PrivateKey)
    requires Symmetric(d) && Separating(d) && i != q && k != j && i != k && j != q
    ensures d.derive(i, d.public(k)) == d.derive(q, d.public(j)) <==> d.public(k) == d.public(q) && d.public(j) == d.public(i)
  {
    if d.derive(i, d.public(k)) == d.derive(q, d.public(j)) {
      assert i in {q, j} && k in {q, j};
    }
    assert Swaps(d, i, q);
  }

  lemma EqualKeys(w: World, d: Dh, a: NodeId, b: NodeId)
    requires Symmetric(d) && Separating(d) && WorldInv(w, d) && FairInv(w, d, a, b)
    requires b in ClientOf(w, a).sessions && a in ClientOf(w, b).sessions
    ensures ClientOf(w, a).sessions[b] == ClientOf(w, b).sessions[a] <==> Mirrored(w, d, a, b)
  {
    var x, y := ClientOf(w, a), ClientOf(w, b);
    assert ClientInv(x, d, w.next) && ClientInv(y, d, w.next);
    assert SessionInv(x, d, b) && SessionInv(y, d, a);
    var i, q := x.origin[b].0, y.origin[a].0;
    var k :| k in y.made && x.origin[b].1 == d.public(k);
    var j :| j in x.made && y.origin[a].1 == d.public(j);
    SameDerivation(d, i, k, q, j);
  }

  /**
   When the two sides agree, exactly: in every run without forged messages between them, however inits
   cross, repeat, are lost or reordered, they agree if and only if neither has a key or the
   derivations of the two keys mirror each other.
  */
  lemma AgreeExactly(d: Dh, acts: seq<Action>, a: NodeId, b: NodeId)
    requires a != b && Symmetric(d) && Separating(d) && Unforged(acts, a, b)
    ensures var w := Exec(d, acts);
            var hasA, hasB := b in ClientOf(w, a).sessions, a in ClientOf(w, b).sessions;
            Agree(w, a, b) <==> (!hasA && !hasB) || (hasA && hasB && Mirrored(w, d, a, b))
  {
    var w := Exec(d, acts);
    FairExec(d, acts, a, b);
    WorldExec(d, acts);
    if b in ClientOf(w, a).sessions && a in ClientOf(w, b).sessions {
      EqualKeys(w, d, a, b);
    }
  }

  /**
   When a completed handshake agrees, exactly: an answer from `b` that `a` completes with its pending
   pair leaves both with the same key if and only if `b` derived its latest key for the init that is
   pending now and the answer is the one `b` sent for that key. Both can be checked before delivery.
  */
  lemma CompletionAgreesExactly(d: Dh, acts: seq<Action>, a: NodeId, b: NodeId, key: PublicKey)
    requires a != b && Symmetric(d) && Separating(d) && Unforged(acts, a, b)
    requires Ack(b, a, key) in Exec(d, acts).net && b in ClientOf(Exec(d, acts), a).pending
    ensures a in ClientOf(Exec(d, acts), b).sessions && a in ClientOf(Exec(d, acts), b).origin
    ensures var w := Exec(d, acts);
            var (own, theirs) := ClientOf(w, b).origin[a];
            Agree(Act(w, d, Deliver(Ack(b, a, key))), a, b) <==>
            theirs == d.public(ClientOf(w, a).pending[b]) && key == d.public(own)
  {
    var w, m := Exec(d, acts), Ack(b, a, key);
    FairExec(d, acts, a, b);
    assert FairMessage(w, d, m);
    WorldExec(d, acts);
    WorldStep(w, d, Deliver(m));
    FairStep(w, d, Deliver(m), a, b);
    EqualKeys(Act(w, d, Deliver(m)), d, a, b);
  }

  // ---------------------------------------------------------------------------------------
  // Runs without the discipline
  // ---------------------------------------------------------------------------------------

  /** Zero bytes; keys of this form are told apart by their length. */
  function Zeros(n: nat): (r: seq<bv8>)
    ensures |r| == n && forall i :: 0 <= i < n ==> r[i] == 0
  {
    seq(n, _ => 0)
  }

  /** Two numbers in one key. */
  function Coded(sum: nat, max: nat): SharedKey {
    Zeros(sum) + [1] + Zeros(max)
  }

  lemma CodedAt(sum: nat, max: nat)
    ensures |Coded(sum, max)| == sum + 1 + max && Coded(sum, max)[sum] == 1
    ensures forall i :: 0 <= i < sum ==> Coded(sum, max)[i] == 0
  {
  }

  lemma CodedDiffers(sum: nat, max: nat, sum': nat, max': nat)
    requires Coded(sum, max) == Coded(sum', max')
    ensures sum == sum' && max == max'
  {
    CodedAt(sum, max);
    CodedAt(sum', max');
  }

  /** The shared key says the sum and the maximum of the two private keys. */
  function SumMax(k: PrivateKey, p: PublicKey): Option<SharedKey> {
    Some(Coded(k + |p|, Maximum(k, |p|)))
  }

  /** A key function that is symmetric and separating. */
  function SumMaxDh(): Dh {
    Dh(Zeros, SumMax)
  }

  function Maximum(i: nat, j: nat): nat {
    if i < j then j else i
  }

  lemma SumMaxDhDerives(i: PrivateKey, j: PrivateKey)
    ensures SumMaxDh().derive(i, SumMaxDh().public(j)) == Some(Coded(i + j, Maximum(i, j)))
  {
  }

  lemma SumMaxDhSwaps(i: PrivateKey, j: PrivateKey)
    ensures Swaps(SumMaxDh(), i, j)
  {
    SumMaxDhDerives(i, j);
    SumMaxDhDerives(j, i);
    assert i + j == j + i && Maximum(i, j) == Maximum(j, i);
  }

  lemma SumMaxDhSymmetric()
    ensures Symmetric(SumMaxDh())
  {
    forall i: PrivateKey, j: PrivateKey ensures Swaps(SumMaxDh(), i, j) {
      SumMaxDhSwaps(i, j);
    }
  }

  lemma SumMaxDhSeparates()
    ensures Separating(SumMaxDh())
  {
    var d := SumMaxDh();
    forall i: PrivateKey, j: PrivateKey, k: PrivateKey, l: PrivateKey | d.derive(i, d.public(j)) == d.derive(k, d.public(l))
      ensures {i, j} == {k, l}
    {
      SumMaxDhDerives(i, j);
      SumMaxDhDerives(k, l);
      CodedDiffers(i + j, Maximum(i, j), k + l, Maximum(k, l));
    }
  }

  lemma PublicHalvesDiffer(d: Dh, i: PrivateKey, j: PrivateKey)
    requires Separating(d) && i != j
    ensures d.public(i) != d.public(j)
  {
    assert j in {i, j} && j !in {i, i};
    assert d.derive(i, d.public(i)) == d.derive(i, d.public(j)) ==> {i, i} == {i, j};
  }

  lemma Extend(d: Dh, acts: seq<Action>, w: World, a: Action)
    requires Exec(d, acts) == w
    ensures Exec(d, acts + [a]) == Act(w, d, a)
  {
    assert (acts + [a])[..|acts|] == acts;
  }

  /** Two initiations from the start. */
  lemma TwoInits(d: Dh, a: NodeId, b: NodeId, c: NodeId, e: NodeId) returns (acts: seq<Action>, w: World)
    ensures Exec(d, acts) == w && acts == [Initiate(a, b), Initiate(c, e)] && w.next == 2
    ensures w.net == multiset{Init(a, b, d.public(0)), Init(c, e, d.public(1))}
    ensures e in ClientOf(w, c).pending && ClientOf(w, c).pending[e] == 1
    ensures a != c ==> b in ClientOf(w, a).pending && ClientOf(w, a).pending[b] == 0
  {
    acts, w := [], START;
    Extend(d, acts, w, Initiate(a, b));
    acts, w := acts + [Initiate(a, b)], Act(w, d, Initiate(a, b));
    Extend(d, acts, w, Initiate(c, e));
    acts, w := acts + [Initiate(c, e)], Act(w, d, Initiate(c, e));
  }

  /** Delivering an init that is under way: its answer replaces it, and both sides' pending pairs stay. */
  lemma Answer(d: Dh, acts: seq<Action>, w: World, a: NodeId, b: NodeId, k: PublicKey) returns (v: World)
    requires Exec(d, acts) == w && Init(a, b, k) in w.net
    ensures Exec(d, acts + [Deliver(Init(a, b, k))]) == v && v.next == w.next + 1
    ensures v.net == w.net - multiset{Init(a, b, k)} + multiset{Ack(b, a, d.public(w.next))}
    ensures forall n :: ClientOf(v, n).pending == ClientOf(w, n).pending
    ensures a in ClientOf(v, b).origin && ClientOf(v, b).origin[a] == (w.next, k)
  {
    var act := Deliver(Init(a, b, k));
    Extend(d, acts, w, act);
    v := Act(w, d, act);
    forall n ensures ClientOf(v, n).pending == ClientOf(w, n).pending { ActOnClient(w, d, act, n); }
    ActOnClient(w, d, act, b);
  }

  /** Delivering an answer to a pending init completes it; the other clients do not change. */
  lemma Complete(d: Dh, acts: seq<Action>, w: World, a: NodeId, b: NodeId, k: PublicKey) returns (v: World)
    requires Exec(d, acts) == w && Ack(b, a, k) in w.net && b in ClientOf(w, a).pending
    ensures Exec(d, acts + [Deliver(Ack(b, a, k))]) == v == Act(w, d, Deliver(Ack(b, a, k)))
    ensures v.net == w.net - multiset{Ack(b, a, k)} && b !in ClientOf(v, a).pending
    ensures b in ClientOf(v, a).origin && ClientOf(v, a).origin[b] == (ClientOf(w, a).pending[b], k)
    ensures forall n :: n != a ==> ClientOf(v, n) == ClientOf(w, n)
  {
    Extend(d, acts, w, Deliver(Ack(b, a, k)));
    v := Act(w, d, Deliver(Ack(b, a, k)));
  }

  /** Every init is one from `a` to `b`. */
  ghost predicate OneInitiator(acts: seq<Action>, a: NodeId, b: NodeId) {
    forall i :: 0 <= i < |acts| && acts[i].Initiate? ==> acts[i] == Initiate(a, b)
  }

  /** A repeated initiation whose first init is answered. */
  lemma RepeatedAnswer(d: Dh, a: NodeId, b: NodeId) returns (acts: seq<Action>, w: World)
    requires a != b
    ensures Exec(d, acts) == w && Ack(b, a, d.public(2)) in w.net
    ensures Unforged(acts, a, b) && OneInitiator(acts, a, b)
    ensures b in ClientOf(w, a).pending && ClientOf(w, a).pending[b] == 1
    ensures a in ClientOf(w, b).origin && ClientOf(w, b).origin[a] == (2, d.public(0))
  {
    acts, w := TwoInits(d, a, b, a, b);
    w := Answer(d, acts, w, a, b, d.public(0));
    acts := acts + [Deliver(Init(a, b, d.public(0)))];
  }

  /** Crossed initiations, the first of them answered. */
  lemma CrossedAnswer(d: Dh, a: NodeId, b: NodeId) returns (acts: seq<Action>, w: World)
    requires a != b
    ensures Exec(d, acts) == w && w.net == multiset{Init(b, a, d.public(1)), Ack(b, a, d.public(2))} && w.next == 3
    ensures Unforged(acts, a, b)
    ensures b in ClientOf(w, a).pending && ClientOf(w, a).pending[b] == 0
    ensures a in ClientOf(w, b).pending && ClientOf(w, b).pending[a] == 1
  {
    acts, w := TwoInits(d, a, b, b, a);
    w := Answer(d, acts, w, a, b, d.public(0));
    acts := acts + [Deliver(Init(a, b, d.public(0)))];
  }

  /** Crossed initiations, each answered. */
  lemma CrossedAnswers(d: Dh, a: NodeId, b: NodeId) returns (acts: seq<Action>, w: World)
    requires a != b
    ensures Exec(d, acts) == w && w.net == multiset{Ack(b, a, d.public(2)), Ack(a, b, d.public(3))}
    ensures Unforged(acts, a, b)
    ensures b in ClientOf(w, a).pending && ClientOf(w, a).pending[b] == 0
    ensures a in ClientOf(w, b).pending && ClientOf(w, b).pending[a] == 1
  {
    acts, w := CrossedAnswer(d, a, b);
    w := Answer(d, acts, w, b, a, d.public(1));
    acts := acts + [Deliver(Init(b, a, d.public(1)))];
  }

  /** Completing when the responder's latest key is not for the pending init: afterwards the keys differ. */
  lemma StaleAnswer(d: Dh, acts: seq<Action>, w: World, a: NodeId, b: NodeId, key: PublicKey, answered: PrivateKey)
      returns (v: World)
    requires a != b && Symmetric(d) && Separating(d) && Exec(d, acts) == w && Unforged(acts, a, b)
    requires Ack(b, a, key) in w.net && b in ClientOf(w, a).pending && ClientOf(w, a).pending[b] != answered
    requires a in ClientOf(w, b).origin && ClientOf(w, b).origin[a].1 == d.public(answered)
    ensures Exec(d, acts + [Deliver(Ack(b, a, key))]) == v && !Agree(v, a, b)
    ensures b !in ClientOf(v, a).pending && ClientOf(v, b) == ClientOf(w, b)
  {
    CompletionAgreesExactly(d, acts, a, b, key);
    PublicHalvesDiffer(d, answered, ClientOf(w, a).pending[b]);
    v := Complete(d, acts, w, a, b, key);
  }

  /** Crossed initiations, each answered, and one of them completed. */
  lemma CrossedHalf(d: Dh, a: NodeId, b: NodeId) returns (acts: seq<Action>, w: World)
    requires a != b
    ensures Exec(d, acts) == w && Unforged(acts, a, b) && Ack(a, b, d.public(3)) in w.net
    ensures b !in ClientOf(w, a).pending && a in ClientOf(w, b).pending && ClientOf(w, b).pending[a] == 1
    ensures b in ClientOf(w, a).origin && ClientOf(w, a).origin[b] == (0, d.public(2))
  {
    acts, w := CrossedAnswers(d, a, b);
    w := Complete(d, acts, w, a, b, d.public(2));
    acts := acts + [Deliver(Ack(b, a, d.public(2)))];
    assert w.net == multiset{Ack(a, b, d.public(3))};
  }

  /**
   Both sides initiate at once and both handshakes complete: for every symmetric, separating key
   function and every pair, nothing is pending and the keys differ.
  */
  lemma CrossedInitsDisagree(d: Dh, a: NodeId, b: NodeId) returns (acts: seq<Action>)
    requires Symmetric(d) && Separating(d) && a != b
    ensures Unforged(acts, a, b) && b !in ClientOf(Exec(d, acts), a).pending && a !in ClientOf(Exec(d, acts), b).pending
    ensures !Agree(Exec(d, acts), a, b)
  {
    var w;
    acts, w := CrossedHalf(d, a, b);
    w := StaleAnswer(d, acts, w, b, a, d.public(3), 2);
    acts := acts + [Deliver(Ack(a, b, d.public(3)))];
  }

  /** A second init while the first is pending: likewise, although only one side initiates. */
  lemma RepeatedInitDisagrees(d: Dh, a: NodeId, b: NodeId) returns (acts: seq<Action>)
    requires Symmetric(d) && Separating(d) && a != b
    ensures Unforged(acts, a, b) && OneInitiator(acts, a, b) && b !in ClientOf(Exec(d, acts), a).pending
    ensures !Agree(Exec(d, acts), a, b)
  {
    var w;
    acts, w := RepeatedAnswer(d, a, b);
    w := StaleAnswer(d, acts, w, a, b, d.public(2), 0);
    acts := acts + [Deliver(Ack(b, a, d.public(2)))];
  }

  // ---------------------------------------------------------------------------------------
  // The client itself
  // ---------------------------------------------------------------------------------------

  class EnxameClient {
    const nodeID: NodeId
    var e2eSessions: map<NodeId, Option<SharedKey>>
    var e2ePendingKeys: map<NodeId, PrivateKey>
    ghost var made: set<PrivateKey>
    ghost var heard: set<(NodeId, PublicKey)>
    ghost var origin: map<NodeId, (PrivateKey, PublicKey)>
    ghost var consumed: multiset<PrivateKey>

    ghost function Contents(): Client
      reads this
    {
      Client(e2eSessions, e2ePendingKeys, made, heard, origin, consumed)
    }

    constructor (nodeID: NodeId)
      ensures Contents() == NEW_CLIENT && this.nodeID == nodeID
    {
      this.nodeID := nodeID;
      e2eSessions, e2ePendingKeys, made, heard, origin, consumed := map[], map[], {}, {}, map[], multiset{};
    }

    method InitiateHandshake(d: Dh, target: NodeId, key: PrivateKey) returns (m: Message)
      modifies this
      ensures Contents() == DoInitiate(old(Contents()), target, key) && m == Init(nodeID, target, d.public(key))
    {
      e2ePendingKeys := e2ePendingKeys[target := key];
      made := made + {key};
      return Init(nodeID, target, d.public(key));
    }

    method HandleKeyExchangeInit(d: Dh, sender: NodeId, peerKey: PublicKey, key: PrivateKey) returns (m: Message)
      modifies this
      ensures Contents() == DoInit(old(Contents()), d, sender, peerKey, key) && m == Ack(nodeID, sender, d.public(key))
    {
      var secret := d.derive(key, peerKey);
      e2eSessions := e2eSessions[sender := secret];
      made, heard, origin := made + {key}, heard + {(sender, peerKey)}, origin[sender := (key, peerKey)];
      return Ack(nodeID, sender, d.public(key));
    }

    method HandleKeyExchangeAck(d: Dh, sender: NodeId, peerKey: PublicKey)
      modifies this
      ensures Contents() == DoAck(old(Contents()), d, sender, peerKey)
    {
      if sender !in e2ePendingKeys {
        return;
      }
      var key := e2ePendingKeys[sender];
      var secret := d.derive(key, peerKey);
      e2eSessions := e2eSessions[sender := secret];
      e2ePendingKeys := e2ePendingKeys - {sender};
      heard, origin, consumed := heard + {(sender, peerKey)}, origin[sender := (key, peerKey)], consumed + multiset{key};
    }
  }
}
