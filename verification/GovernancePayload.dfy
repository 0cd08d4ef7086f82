/**
 The text a governance request is signed over, target|role|scope|channel|timestamp, and the
 timestamp window that limits replay.
*/
module GovernancePayload {
  import opened Common
  import opened Decimal

  const ROLE_ADMIN := "ADMIN"
  const ROLE_MODERATOR := "MODERATOR"
  const SCOPE_CHANNEL := "CHANNEL"

  datatype Fields = Fields(target: string, role: string, scope: string, channel: string, timestamp: int)

  function Payload(f: Fields): string {
    f.target + "|" + f.role + "|" + f.scope + "|" + f.channel + "|" + IntText(f.timestamp)
  }

  predicate NoBar(s: string) {
    '|' !in s
  }

  // ---------------------------------------------------------------------------------------
  // Decoding
  // ---------------------------------------------------------------------------------------

  /** Splits at the first bar. */
  function Cut(s: string): Option<(string, string)> {
    if s == [] then None
    else if s[0] == '|' then Some(("", s[1..]))
    else
      match Cut(s[1..])
      case None => None
      case Some((a, b)) => Some(([s[0]] + a, b))
  }

  /** Splits at the last bar. */
  function CutLast(s: string): Option<(string, string)> {
    if s == [] then None
    else if s[|s| - 1] == '|' then Some((s[..|s| - 1], ""))
    else
      match CutLast(s[..|s| - 1])
      case None => None
      case Some((a, b)) => Some((a, b + [s[|s| - 1]]))
  }

  function Decode(text: string): Option<Fields> {
    match Cut(text)
    case None => None
    case Some((target, rest)) =>
      match Cut(rest)
      case None => None
      case Some((role, rest)) =>
        match Cut(rest)
        case None => None
        case Some((scope, rest)) =>
          match CutLast(rest)
          case None => None
          case Some((channel, timestamp)) => Some(Fields(target, role, scope, channel, IntValue(timestamp)))
  }

  lemma {:induction false} CutFinds(a: string, b: string)
    requires NoBar(a)
    ensures Cut(a + "|" + b) == Some((a, b))
  {
    if a == [] {
      assert a + "|" + b == "|" + b;
    } else {
      CutFinds(a[1..], b);
      assert (a + "|" + b)[1..] == a[1..] + "|" + b;
      assert [a[0]] + a[1..] == a;
    }
  }

  lemma {:induction false} CutLastFinds(a: string, b: string)
    requires NoBar(b)
    ensures CutLast(a + "|" + b) == Some((a, b))
  {
    var s := a + "|" + b;
    if b == [] {
      assert s[..|s| - 1] == a;
    } else {
      CutLastFinds(a, b[..|b| - 1]);
      assert s[..|s| - 1] == a + "|" + b[..|b| - 1];
      assert b[..|b| - 1] + [b[|b| - 1]] == b;
    }
  }

  lemma {:induction false} CutHasNoBar(s: string)
    ensures Cut(s).Some? ==> NoBar(Cut(s).value.0)
  {
    if s != [] && s[0] != '|' {
      CutHasNoBar(s[1..]);
    }
  }

  lemma IntTextNoBar(n: int)
    ensures NoBar(IntText(n))
  {
  }

  lemma PayloadShape(f: Fields)
    ensures Payload(f) ==
            f.target + "|" + (f.role + "|" + (f.scope + "|" + (f.channel + "|" + IntText(f.timestamp))))
  {
    var ts := IntText(f.timestamp);
    assert f.scope + "|" + f.channel + "|" + ts == f.scope + "|" + (f.channel + "|" + ts);
    assert f.role + "|" + (f.scope + "|" + f.channel + "|" + ts) == f.role + "|" + f.scope + "|" + f.channel + "|" + ts;
  }

  /**
   Reading target, role and scope up to the first bars and the timestamp after the last one gives the
   fields back exactly when target, role and scope contain no bar; the channel may be any string and
   the timestamp any integer.
  */
  lemma PayloadDecodable(f: Fields)
    ensures Decode(Payload(f)) == Some(f) <==> NoBar(f.target) && NoBar(f.role) && NoBar(f.scope)
  {
    var text := Payload(f);
    var ts := IntText(f.timestamp);
    var afterScope := f.channel + "|" + ts;
    var afterRole := f.scope + "|" + afterScope;
    PayloadShape(f);
    if NoBar(f.target) && NoBar(f.role) && NoBar(f.scope) {
      CutFinds(f.target, f.role + "|" + afterRole);
      CutFinds(f.role, afterRole);
      CutFinds(f.scope, afterScope);
      IntTextNoBar(f.timestamp);
      CutLastFinds(f.channel, ts);
      IntRoundTrip(f.timestamp);
    }
    if Decode(text) == Some(f) {
      CutHasNoBar(text);
      var rest := Cut(text).value.1;
      CutHasNoBar(rest);
      CutHasNoBar(Cut(rest).value.1);
    }
  }

  /** Two bar-free requests that sign the same text are the same request up to the action. */
  lemma PayloadInjective(f: Fields, g: Fields)
    requires NoBar(f.target) && NoBar(f.role) && NoBar(f.scope)
    requires NoBar(g.target) && NoBar(g.role) && NoBar(g.scope)
    requires Payload(f) == Payload(g)
    ensures f == g
  {
    PayloadDecodable(f);
    PayloadDecodable(g);
  }

  /** A scope in the channel can be read as the scope, and what comes before it as part of the role. */
  lemma MoveScope(target: string, role: string, x: string, y: string, ts: int)
    ensures Payload(Fields(target, role, SCOPE_CHANNEL, x + "|" + SCOPE_CHANNEL + "|" + y, ts)) ==
            Payload(Fields(target, role + "|" + SCOPE_CHANNEL + "|" + x, SCOPE_CHANNEL, y, ts))
  {
    var a, scope := target + "|" + role, SCOPE_CHANNEL;
    assert a + "|" + scope + "|" + (x + "|" + scope + "|" + y) == a + "|" + scope + "|" + x + "|" + scope + "|" + y;
    assert target + "|" + (role + "|" + scope + "|" + x) == a + "|" + scope + "|" + x;
  }

  /**
   With bars, two different requests can sign the same text, even in the only scope the server accepts
   and although target, role and scope of the first have no bar.
  */
  lemma BarsMakePayloadsCollide() returns (f: Fields, g: Fields)
    ensures f != g && Payload(f) == Payload(g) && f.scope == g.scope == SCOPE_CHANNEL
    ensures NoBar(f.target) && NoBar(f.role) && NoBar(f.scope)
  {
    f := Fields("bob", ROLE_ADMIN, SCOPE_CHANNEL, "#x" + "|" + SCOPE_CHANNEL + "|" + "#y", 0);
    g := Fields("bob", ROLE_ADMIN + "|" + SCOPE_CHANNEL + "|" + "#x", SCOPE_CHANNEL, "#y", 0);
    MoveScope("bob", ROLE_ADMIN, "#x", "#y", 0);
    assert |f.role| < |g.role|;
  }

  // ---------------------------------------------------------------------------------------
  // Which texts stand for one request, exactly
  // ---------------------------------------------------------------------------------------

  /** No other request signs the same text. */
  ghost predicate Unambiguous(f: Fields) {
    forall g: Fields :: Payload(g) == Payload(f) ==> g == f
  }

  /** No other request in the same scope signs the same text. */
  ghost predicate UnambiguousInScope(f: Fields) {
    forall g: Fields :: g.scope == f.scope && Payload(g) == Payload(f) ==> g == f
  }

  function Bars(s: string): nat {
    if s == [] then 0 else (if s[0] == '|' then 1 else 0) + Bars(s[1..])
  }

  lemma {:induction false} BarsAdd(s: string, t: string)
    ensures Bars(s + t) == Bars(s) + Bars(t)
  {
    if s == [] {
      assert s + t == t;
    } else {
      BarsAdd(s[1..], t);
      assert (s + t)[1..] == s[1..] + t;
    }
  }

  lemma {:induction false} BarsNone(s: string)
    ensures Bars(s) == 0 <==> NoBar(s)
  {
    if s != [] {
      BarsNone(s[1..]);
      assert s == [s[0]] + s[1..];
    }
  }

  lemma BarsJoin(s: string, t: string)
    ensures Bars(s + "|" + t) == Bars(s) + 1 + Bars(t)
  {
    BarsAdd(s, "|");
    BarsAdd(s + "|", t);
    assert Bars("|") == 1 + Bars("|"[1..]);
  }

  lemma BarsOfPayload(f: Fields)
    ensures Bars(Payload(f)) == 4 + Bars(f.target) + Bars(f.role) + Bars(f.scope) + Bars(f.channel)
  {
    var ts := IntText(f.timestamp);
    IntTextNoBar(f.timestamp);
    BarsNone(ts);
    BarsJoin(f.target, f.role);
    BarsJoin(f.target + "|" + f.role, f.scope);
    BarsJoin(f.target + "|" + f.role + "|" + f.scope, f.channel);
    BarsJoin(f.target + "|" + f.role + "|" + f.scope + "|" + f.channel, ts);
  }

  /** A text with a bar, split there. */
  lemma SplitAtBar(s: string) returns (x: string, y: string)
    requires !NoBar(s)
    ensures s == x + "|" + y
  {
    var k :| 0 <= k < |s| && s[k] == '|';
    x, y := s[..k], s[k + 1..];
  }

  /** A bar in any of the four fields gives another request with the same text. */
  lemma BarCollides(f: Fields) returns (g: Fields)
    requires !NoBar(f.target) || !NoBar(f.role) || !NoBar(f.scope) || !NoBar(f.channel)
    ensures g != f && Payload(g) == Payload(f)
  {
    var ts := IntText(f.timestamp);
    if !NoBar(f.target) {
      var x, y := SplitAtBar(f.target);
      g := Fields(x, y, f.role, f.scope + "|" + f.channel, f.timestamp);
      assert Payload(g) == x + "|" + y + "|" + f.role + "|" + f.scope + "|" + f.channel + "|" + ts;
      assert |g.target| < |f.target|;
    } else if !NoBar(f.role) {
      var x, y := SplitAtBar(f.role);
      g := Fields(f.target, x, y, f.scope + "|" + f.channel, f.timestamp);
      assert Payload(g) == f.target + "|" + (x + "|" + y) + "|" + f.scope + "|" + f.channel + "|" + ts;
      assert |g.role| < |f.role|;
    } else if !NoBar(f.scope) {
      var x, y := SplitAtBar(f.scope);
      g := Fields(f.target, f.role, x, y + "|" + f.channel, f.timestamp);
      assert Payload(g) == f.target + "|" + f.role + "|" + (x + "|" + y) + "|" + f.channel + "|" + ts;
      assert |g.scope| < |f.scope|;
    } else {
      var x, y := SplitAtBar(f.channel);
      g := Fields(f.target + "|" + f.role, f.scope, x, y, f.timestamp);
      assert Payload(g) == f.target + "|" + f.role + "|" + f.scope + "|" + (x + "|" + y) + "|" + ts;
      assert |g.target| > |f.target|;
    }
  }

  /** A text stands for one request if and only if none of the four text fields has a bar. */
  lemma UnambiguousExactly(f: Fields)
    ensures Unambiguous(f) <==> NoBar(f.target) && NoBar(f.role) && NoBar(f.scope) && NoBar(f.channel)
  {
    BarsOfFields(f);
    if NoBar(f.target) && NoBar(f.role) && NoBar(f.scope) && NoBar(f.channel) {
      forall g: Fields | Payload(g) == Payload(f) ensures g == f {
        BarsOfFields(g);
        PayloadInjective(f, g);
      }
    } else {
      var g := BarCollides(f);
    }
  }

  lemma BarsOfFields(f: Fields)
    ensures Bars(Payload(f)) == 4 <==> NoBar(f.target) && NoBar(f.role) && NoBar(f.scope) && NoBar(f.channel)
  {
    BarsOfPayload(f);
    BarsNone(f.target);
    BarsNone(f.role);
    BarsNone(f.scope);
    BarsNone(f.channel);
  }

  // The scope between its two bars, as it stands in the text.
  const MARK := "|CHANNEL|"

  /** A channel in which the scope's text appears again, as a whole part before the last one. */
  ghost predicate RepeatsScope(channel: string) {
    exists p :: 0 <= p <= |channel| + 1 - |MARK| && MarkAt("|" + channel, p)
  }

  predicate MarkAt(s: string, p: int) {
    0 <= p <= |s| - |MARK| && s[p..p + |MARK|] == MARK
  }

  /** The text before the timestamp's bar. */
  function Head(f: Fields): string {
    f.target + "|" + f.role + "|" + f.scope + "|" + f.channel
  }

  lemma SameHead(f: Fields, g: Fields)
    requires Payload(f) == Payload(g)
    ensures Head(f) == Head(g) && f.timestamp == g.timestamp
  {
    IntTextNoBar(f.timestamp);
    IntTextNoBar(g.timestamp);
    CutLastFinds(Head(f), IntText(f.timestamp));
    CutLastFinds(Head(g), IntText(g.timestamp));
    IntRoundTrip(f.timestamp);
    IntRoundTrip(g.timestamp);
  }

  /** In the server's scope: target and role without a bar, and the channel does not repeat the scope. */
  lemma OnlyReading(f: Fields, g: Fields)
    requires f.scope == g.scope == SCOPE_CHANNEL && Payload(f) == Payload(g)
    requires NoBar(f.target) && NoBar(f.role) && !RepeatsScope(f.channel)
    ensures g == f
  {
    SameHead(f, g);
    HeadMark(f);
    HeadMark(g);
    SameParts(f.target, f.role, f.channel, g.target, g.role, g.channel);
  }

  lemma HeadMark(f: Fields)
    requires f.scope == SCOPE_CHANNEL
    ensures Head(f) == f.target + "|" + f.role + MARK + f.channel
  {
    assert MARK == "|" + SCOPE_CHANNEL + "|";
  }

  lemma SameParts(a: string, b: string, channel: string, c: string, d: string, channel': string)
    requires a + "|" + b + MARK + channel == c + "|" + d + MARK + channel'
    requires NoBar(a) && NoBar(b) && !RepeatsScope(channel)
    ensures a == c && b == d && channel == channel'
  {
    var x, y := a + "|" + b, c + "|" + d;
    MarkText(x, channel);
    MarkText(y, channel');
    SecondBar(a, b, MARK[1..] + channel, c, d, MARK[1..] + channel', x + MARK + channel);
    if |x| == |y| {
      SameCut(x, MARK + channel, y, MARK + channel');
      SameCut(MARK, channel, MARK, channel');
      SamePair(a, b, c, d);
    } else {
      MarkInChannel(x, channel, y, channel');
    }
  }

  lemma MarkText(x: string, channel: string)
    ensures x + MARK + channel == x + "|" + (MARK[1..] + channel) == x + (MARK + channel)
  {
    assert MARK == "|" + MARK[1..];
  }

  lemma SameCut(x: string, y: string, x': string, y': string)
    requires x + y == x' + y' && |x| == |x'|
    ensures x == x' && y == y'
  {
    assert (x + y)[..|x|] == x && (x' + y')[..|x|] == x';
    assert (x + y)[|x|..] == y && (x' + y')[|x|..] == y';
  }

  /** With two parts free of bars in front, no other reading of two parts ends before their second bar. */
  lemma SecondBar(a: string, b: string, rest: string, c: string, d: string, rest': string, t: string)
    requires t == a + "|" + b + "|" + rest && t == c + "|" + d + "|" + rest' && NoBar(a) && NoBar(b)
    ensures |c| + 1 + |d| >= |a| + 1 + |b|
  {
    assert t[|c|] == '|' && t[|c| + 1 + |d|] == '|';
    assert forall k :: 0 <= k < |a| ==> t[k] == a[k];
    assert forall k :: 0 <= k < |b| ==> t[|a| + 1 + k] == b[k];
  }

  lemma SamePair(a: string, b: string, c: string, d: string)
    requires a + "|" + b == c + "|" + d && NoBar(a) && NoBar(b)
    ensures a == c && b == d
  {
    var s := a + "|" + b;
    assert s[|c|] == '|';
    assert forall k :: 0 <= k < |a| ==> s[k] == a[k];
    assert forall k :: 0 <= k < |b| ==> s[|a| + 1 + k] == b[k];
    assert |a| == |c|;
    assert s[..|a|] == a == c && s[|a| + 1..] == b == d;
  }

  /** A mark after the first one lies in the channel. */
  lemma MarkInChannel(x: string, channel: string, y: string, channel': string)
    requires x + MARK + channel == y + MARK + channel' && |x| < |y|
    ensures RepeatsScope(channel)
  {
    var t, r, q := x + MARK + channel, "|" + channel, |x| + 8;
    assert t[q..] == r;
    assert forall k :: 0 <= k < |MARK| ==> t[|x| + k] == MARK[k];
    assert t[|y|] == '|' && MARK[1..8] == SCOPE_CHANNEL;
    assert |y| >= q;
    var m := |y| - q;
    assert t[|y|..|y| + |MARK|] == MARK;
    assert t[q..][m..m + |MARK|] == t[|y|..|y| + |MARK|];
    assert MarkAt(r, m);
  }

  /** Another reading in the same scope. */
  lemma ScopeCollides(f: Fields) returns (g: Fields)
    requires f.scope == SCOPE_CHANNEL && (!NoBar(f.target) || !NoBar(f.role) || RepeatsScope(f.channel))
    ensures g != f && g.scope == f.scope && Payload(g) == Payload(f)
  {
    var ts := IntText(f.timestamp);
    if !NoBar(f.target) {
      var x, y := SplitAtBar(f.target);
      g := f.(target := x, role := y + "|" + f.role);
      assert g.target + "|" + g.role == f.target + "|" + f.role;
      assert |g.target| < |f.target|;
    } else if !NoBar(f.role) {
      var x, y := SplitAtBar(f.role);
      g := f.(target := f.target + "|" + x, role := y);
      assert g.target + "|" + g.role == f.target + "|" + f.role;
      assert |g.target| > |f.target|;
    } else {
      g := SecondMark(f);
    }
  }

  lemma SecondMark(f: Fields) returns (g: Fields)
    requires f.scope == SCOPE_CHANNEL && RepeatsScope(f.channel)
    ensures g != f && g.scope == f.scope && Payload(g) == Payload(f)
  {
    var r := "|" + f.channel;
    var p :| 0 <= p <= |f.channel| + 1 - |MARK| && MarkAt(r, p);
    var u, v := r[..p], r[p + |MARK|..];
    assert r == u + MARK + v;
    g := f.(role := f.role + "|" + SCOPE_CHANNEL + u, channel := v);
    RegroupMark(f, u, v);
    assert |g.role| > |f.role|;
  }

  lemma RegroupMark(f: Fields, u: string, v: string)
    requires f.scope == SCOPE_CHANNEL && "|" + f.channel == u + MARK + v
    ensures Head(f.(role := f.role + "|" + SCOPE_CHANNEL + u, channel := v)) == Head(f)
  {
    var a, scope := f.target + "|" + f.role, SCOPE_CHANNEL;
    assert MARK == "|" + scope + "|";
    assert Head(f) == a + "|" + scope + ("|" + f.channel);
    assert f.target + "|" + (f.role + "|" + scope + u) == a + "|" + scope + u;
    assert u + MARK + v == u + "|" + scope + "|" + v;
  }

  /**
   In the only scope the server accepts, exactly: a text stands for one request if and only if target
   and role have no bar and the channel does not repeat the scope's text between bars. Other bars in
   the channel do no harm.
  */
  lemma UnambiguousInScopeExactly(f: Fields)
    requires f.scope == SCOPE_CHANNEL
    ensures UnambiguousInScope(f) <==> NoBar(f.target) && NoBar(f.role) && !RepeatsScope(f.channel)
  {
    if NoBar(f.target) && NoBar(f.role) && !RepeatsScope(f.channel) {
      forall g: Fields | g.scope == f.scope && Payload(g) == Payload(f) ensures g == f {
        OnlyReading(f, g);
      }
    } else {
      var g := ScopeCollides(f);
    }
  }

  // ---------------------------------------------------------------------------------------
  // The client's builders
  // ---------------------------------------------------------------------------------------

  /** The client signs promotions to ADMIN or MODERATOR only. */
  function ClientPromoteText(target: string, role: string, channel: string, ts: int): Option<string> {
    if role == ROLE_ADMIN || role == ROLE_MODERATOR then
      Some(target + "|" + role + "|" + SCOPE_CHANNEL + "|" + channel + "|" + IntText(ts))
    else None
  }

  /** Demotions and kicks: the role is left out, the two bars stay. */
  function ClientRemoveText(target: string, channel: string, ts: int): string {
    target + "||" + SCOPE_CHANNEL + "|" + channel + "|" + IntText(ts)
  }

  /** What the client signs is what the server rebuilds from the request it receives. */
  lemma ClientTextsMatchServer(target: string, role: string, channel: string, ts: int)
    ensures ClientPromoteText(target, role, channel, ts).Some? ==>
              ClientPromoteText(target, role, channel, ts).value == Payload(Fields(target, role, SCOPE_CHANNEL, channel, ts))
    ensures ClientRemoveText(target, channel, ts) == Payload(Fields(target, "", SCOPE_CHANNEL, channel, ts))
  {
    assert target + "||" == target + "|" + "" + "|";
  }

  // ---------------------------------------------------------------------------------------
  // The replay window on 64-bit integers
  // ---------------------------------------------------------------------------------------

  const TWO_63 := 0x8000_0000_0000_0000
  const TWO_64 := 0x1_0000_0000_0000_0000
  const WINDOW := 60_000_000_000

  predicate IsInt64(x: int) {
    -TWO_63 <= x < TWO_63
  }

  /** Two's-complement wrap-around. */
  function Wrap(x: int): (r: int)
    ensures IsInt64(r)
  {
    (x + TWO_63) % TWO_64 - TWO_63
  }

  /** The server's test, with the wrap-around of its two operations. */
  predicate TimestampAccepted(now: int, ts: int) {
    var diff := Wrap(now - ts);
    var magnitude := if diff < 0 then Wrap(-diff) else diff;
    magnitude <= WINDOW
  }

  /** For all 64-bit clocks and timestamps: what the wrapping test accepts. */
  lemma TimestampWindowExact(now: int, ts: int)
    requires IsInt64(now) && IsInt64(ts)
    ensures TimestampAccepted(now, ts) <==>
            var d := if now >= ts then now - ts else ts - now;
            d <= WINDOW || d == TWO_63 || d >= TWO_64 - WINDOW
  {
    var x := now - ts;
    if x >= TWO_63 {
      assert Wrap(x) == x - TWO_64;
    } else if x < -TWO_63 {
      assert Wrap(x) == x + TWO_64;
    } else {
      assert Wrap(x) == x;
    }
  }

  /** For a clock between 1970 and a minute before the end of the range: one timestamp slips through. */
  lemma TimestampWindow(now: int, ts: int)
    requires 0 <= now < TWO_63 - WINDOW && IsInt64(ts)
    ensures TimestampAccepted(now, ts) <==> -WINDOW <= now - ts <= WINDOW || ts == now - TWO_63
  {
    TimestampWindowExact(now, ts);
  }
}
