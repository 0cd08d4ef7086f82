/**
 Choosing relays from the presence store: the eligible relays are split by preferred region, each
 part is shuffled in place, and the concatenation is cut to the limit. Key order and shuffle are
 arbitrary; what is proved holds for every outcome.
*/
module RelaySelection {
  import opened Common
  import opened Presence

  // ---------------------------------------------------------------------------------------
  // What a selection must be
  // ---------------------------------------------------------------------------------------

  /** Every node is stored under its own identifier. */
  ghost predicate Keyed(store: Store) {
    forall id :: id in store ==> store[id].node.id == id
  }

  predicate IsEligible(store: Store, now: int, exclude: set<NodeId>, id: NodeId) {
    id in store && id !in exclude && Live(store[id], now) && store[id].node.kind == Relay
  }

  /** The live relays that are not excluded. */
  function Eligible(store: Store, now: int, exclude: set<NodeId>): set<Node> {
    set id | id in store && IsEligible(store, now, exclude, id) :: store[id].node
  }

  predicate IsPreferred(region: string, node: Node) {
    region != "" && node.region == region
  }

  /** How many of `n` relays a limit lets through; a non-positive limit means all. */
  function Limited(n: nat, limit: int): int {
    if limit > 0 then Min(n, limit) else n
  }

  /** Preferred relays come first, and one is left out only if everything returned is preferred. */
  ghost predicate PrefersRegion(relays: seq<Node>, eligible: set<Node>, region: string) {
    && (forall i, j :: 0 <= i < j < |relays| && IsPreferred(region, relays[j]) ==> IsPreferred(region, relays[i]))
    && ((exists x :: x in eligible && IsPreferred(region, x) && x !in relays) ==>
          forall i :: 0 <= i < |relays| ==> IsPreferred(region, relays[i]))
  }

  ghost predicate IsSelection(relays: seq<Node>, store: Store, now: int, region: string, limit: int, exclude: set<NodeId>) {
    && (forall i, j :: 0 <= i < j < |relays| ==> relays[i].id != relays[j].id)
    && (forall i :: 0 <= i < |relays| ==>
          IsEligible(store, now, exclude, relays[i].id) && relays[i] == store[relays[i].id].node)
    && |relays| == Limited(|Eligible(store, now, exclude)|, limit)
    && PrefersRegion(relays, Eligible(store, now, exclude), region)
  }

  // ---------------------------------------------------------------------------------------
  // Permutations
  // ---------------------------------------------------------------------------------------

  lemma DistinctCounts(s: seq<Node>, x: Node)
    requires Distinct(s)
    ensures multiset(s)[x] <= 1
    decreases |s|
  {
    if s != [] {
      ElementsInit(s);
      DistinctCounts(s[..|s| - 1], x);
      assert s == s[..|s| - 1] + [s[|s| - 1]];
      if x == s[|s| - 1] {
        assert x !in s[..|s| - 1];
      }
    }
  }

  /** A rearrangement of a sequence without repetitions has none either, and the same elements. */
  lemma PermutationKeeps(s: seq<Node>, t: seq<Node>)
    requires multiset(s) == multiset(t) && Distinct(s)
    ensures Distinct(t) && Elements(s) == Elements(t)
  {
    forall i, j | 0 <= i < j < |t| ensures t[i] != t[j] {
      DistinctCounts(s, t[i]);
      assert t == t[..i] + [t[i]] + t[i + 1..j] + [t[j]] + t[j + 1..];
      assert multiset(t) == multiset(t[..i]) + multiset{t[i]} + multiset(t[i + 1..j]) + multiset{t[j]} + multiset(t[j + 1..]);
    }
    forall x ensures x in Elements(s) <==> x in Elements(t) {
      assert x in s <==> x in multiset(s);
      assert x in t <==> x in multiset(t);
    }
  }

  /** rand.Shuffle: exchanges each element, from the last down, with a random one not after it. */
  method Shuffle(relays: array<Node>)
    modifies relays
    ensures multiset(relays[..]) == old(multiset(relays[..]))
  {
    var i := relays.Length - 1;
    while i > 0
      invariant i < relays.Length
      invariant multiset(relays[..]) == old(multiset(relays[..]))
      decreases i
    {
      var j :| 0 <= j <= i;
      relays[i], relays[j] := relays[j], relays[i];
      i := i - 1;
    }
  }

  method ShuffleRelays(relays: seq<Node>) returns (shuffled: seq<Node>)
    requires Distinct(relays)
    ensures Distinct(shuffled) && Elements(shuffled) == Elements(relays)
  {
    var a := new Node[|relays|](i requires 0 <= i < |relays| => relays[i]);
    assert a[..] == relays;
    Shuffle(a);
    shuffled := a[..];
    PermutationKeeps(relays, shuffled);
  }

  // ---------------------------------------------------------------------------------------
  // Assembling the result
  // ---------------------------------------------------------------------------------------

  /** What the collecting loop has gathered after some of the keys. */
  ghost predicate Collected(preferred: seq<Node>, others: seq<Node>, store: Store, now: int, region: string,
                            exclude: set<NodeId>, seen: set<NodeId>) {
    && Distinct(preferred) && Distinct(others)
    && (forall x :: x in Elements(preferred) <==>
          IsEligible(store, now, exclude, x.id) && x == store[x.id].node && x.id in seen && IsPreferred(region, x))
    && (forall x :: x in Elements(others) <==>
          IsEligible(store, now, exclude, x.id) && x == store[x.id].node && x.id in seen && !IsPreferred(region, x))
  }

  lemma CollectNode(list: seq<Node>, x: Node)
    requires Distinct(list) && x !in Elements(list)
    ensures Distinct(list + [x]) && Elements(list + [x]) == Elements(list) + {x}
  {
  }

  /** All eligible relays: the preferred ones followed by the others. */
  ghost predicate Complete(all: seq<Node>, p: nat, store: Store, now: int, region: string, exclude: set<NodeId>) {
    && Distinct(all) && Elements(all) == Eligible(store, now, exclude) && p <= |all|
    && (forall i :: 0 <= i < |all| ==> (IsPreferred(region, all[i]) <==> i < p))
  }

  lemma CompleteWhenAllSeen(preferred: seq<Node>, others: seq<Node>, store: Store, now: int, region: string,
                            exclude: set<NodeId>, seen: set<NodeId>)
    requires Keyed(store) && Collected(preferred, others, store, now, region, exclude, seen)
    requires forall id :: id in store && Live(store[id], now) ==> id in seen
    ensures Complete(preferred + others, |preferred|, store, now, region, exclude)
  {
    var all := preferred + others;
    forall i | 0 <= i < |all| ensures IsPreferred(region, all[i]) <==> i < |preferred| {
      if i < |preferred| {
        assert all[i] in Elements(preferred);
      } else {
        assert all[i] == others[i - |preferred|] && all[i] in Elements(others);
      }
    }
    assert Distinct(all);
    AllEligible(preferred, others, store, now, region, exclude, seen);
  }

  lemma AllEligible(preferred: seq<Node>, others: seq<Node>, store: Store, now: int, region: string,
                    exclude: set<NodeId>, seen: set<NodeId>)
    requires Keyed(store) && Collected(preferred, others, store, now, region, exclude, seen)
    requires forall id :: id in store && Live(store[id], now) ==> id in seen
    ensures Elements(preferred + others) == Eligible(store, now, exclude)
  {
    forall x ensures x in Elements(preferred + others) <==> x in Eligible(store, now, exclude) {
      assert x in Elements(preferred + others) <==> x in Elements(preferred) || x in Elements(others);
      if x in Eligible(store, now, exclude) {
        var id :| id in store && IsEligible(store, now, exclude, id) && store[id].node == x;
      }
    }
  }

  /** Any cut of a complete list is a selection. */
  lemma CutIsSelection(all: seq<Node>, p: nat, store: Store, now: int, region: string, limit: int, exclude: set<NodeId>)
    requires Keyed(store) && Complete(all, p, store, now, region, exclude)
    ensures IsSelection(if limit > 0 && |all| > limit then all[..limit] else all, store, now, region, limit, exclude)
  {
    var relays := if limit > 0 && |all| > limit then all[..limit] else all;
    DistinctSize(all);
    forall i | 0 <= i < |all|
      ensures IsEligible(store, now, exclude, all[i].id) && all[i] == store[all[i].id].node
    {
      assert all[i] in Elements(all);
      var id :| id in store && IsEligible(store, now, exclude, id) && store[id].node == all[i];
    }
    CutPrefers(all, p, relays, Eligible(store, now, exclude), region);
  }

  lemma CutPrefers(all: seq<Node>, p: nat, relays: seq<Node>, eligible: set<Node>, region: string)
    requires relays <= all && Elements(all) == eligible && p <= |all|
    requires forall i :: 0 <= i < |all| ==> (IsPreferred(region, all[i]) <==> i < p)
    ensures PrefersRegion(relays, eligible, region)
  {
    forall x | x in eligible && IsPreferred(region, x) && x !in relays
      ensures forall i :: 0 <= i < |relays| ==> IsPreferred(region, relays[i])
    {
      assert x in Elements(all);
      var k :| 0 <= k < |all| && all[k] == x;
      assert k >= |relays| && k < p;
    }
  }

  // ---------------------------------------------------------------------------------------
  // The methods
  // ---------------------------------------------------------------------------------------

  /**
   The loop over the key listing. `keys` is what the store listed: every live key is there, in any
   order and once; some may have expired since.
  */
  method Collect(m: NodeManager, keys: seq<NodeId>, now: int, region: string, exclude: set<NodeId>)
      returns (preferred: seq<Node>, others: seq<Node>)
    requires Keyed(m.store) && Distinct(keys)
    ensures Collected(preferred, others, m.store, now, region, exclude, Elements(keys))
  {
    preferred, others := [], [];
    for i := 0 to |keys|
      invariant Collected(preferred, others, m.store, now, region, exclude, Elements(keys[..i]))
    {
      var id := keys[i];
      ElementsInit(keys[..i + 1]);
      assert keys[..i + 1][..i] == keys[..i];
      assert id !in Elements(keys[..i]);
      var node := GetNode(m.store, id, now);
      if id !in exclude && node.Some? && node.value.kind == Relay {
        var x := node.value;
        assert x !in Elements(preferred) && x !in Elements(others);
        if region != "" && x.region == region {
          CollectNode(preferred, x);
          preferred := preferred + [x];
        } else {
          CollectNode(others, x);
          others := others + [x];
        }
      }
    }
    assert keys[..|keys|] == keys;
  }

  method GetActiveRelays(m: NodeManager, keys: seq<NodeId>, now: int, region: string, limit: int, excludeIDs: seq<NodeId>)
      returns (relays: seq<Node>)
    requires Keyed(m.store) && Distinct(keys)
    requires forall id :: id in m.store && Live(m.store[id], now) ==> id in keys
    ensures IsSelection(relays, m.store, now, region, limit, Elements(excludeIDs))
  {
    var exclude := Elements(excludeIDs);
    var preferred, others := Collect(m, keys, now, region, exclude);
    preferred := ShuffleRelays(preferred);
    others := ShuffleRelays(others);
    relays := preferred + others;
    CompleteWhenAllSeen(preferred, others, m.store, now, region, exclude, Elements(keys));
    CutIsSelection(relays, |preferred|, m.store, now, region, limit, exclude);
    if limit > 0 && |relays| > limit {
      relays := relays[..limit];
    }
  }

  /** The service's entry point clamps the limit to the configured maximum. */
  method ServiceGetActiveRelays(m: NodeManager, maxRelays: int, keys: seq<NodeId>, now: int, region: string, limit: int,
                                excludeIDs: seq<NodeId>) returns (relays: seq<Node>)
    requires Keyed(m.store) && Distinct(keys)
    requires forall id :: id in m.store && Live(m.store[id], now) ==> id in keys
    ensures IsSelection(relays, m.store, now, region,
                        if limit <= 0 || limit > maxRelays then maxRelays else limit, Elements(excludeIDs))
    ensures maxRelays > 0 ==> |relays| <= maxRelays
  {
    var clamped := limit;
    if limit <= 0 || limit > maxRelays {
      clamped := maxRelays;
    }
    relays := GetActiveRelays(m, keys, now, region, clamped, excludeIDs);
  }

  // ---------------------------------------------------------------------------------------
  // Selection after a run
  // ---------------------------------------------------------------------------------------

  lemma {:induction false} RunKeyed(ops: seq<Op>, ttl: int)
    ensures Keyed(Run(ops, ttl).store)
  {
    if ops != [] {
      RunKeyed(ops[..|ops| - 1], ttl);
      KeyedStep(Run(ops[..|ops| - 1], ttl), ops[|ops| - 1], ttl);
    }
  }

  lemma KeyedStep(s: State, op: Op, ttl: int)
    requires Keyed(s.store)
    ensures Keyed(Apply(s, op, ttl).store)
  {
  }

  /** A banned node is selected by nobody once the time to live has passed since the ban, or at once after a moderator's. */
  lemma BannedNeverSelected(ops: seq<Op>, ttl: int, k: nat, id: NodeId, now: int,
                            relays: seq<Node>, region: string, limit: int, exclude: set<NodeId>)
    requires Monotone(ops, now) && 0 < k <= |ops| && IsBan(ops[k - 1], id) && InForce(ops, k, id)
    requires ops[k - 1].ModeratorBan? || (ttl > 0 && now > ops[k - 1].now + ttl)
    requires IsSelection(relays, Run(ops, ttl).store, now, region, limit, exclude)
    ensures forall i :: 0 <= i < |relays| ==> relays[i].id != id
  {
    if ops[k - 1].ModeratorBan? {
      ModeratorBanRemovesAtOnce(ops, ttl, k, id, now);
    } else {
      BanBoundsPresence(ops, ttl, k, id, now);
    }
  }
}
