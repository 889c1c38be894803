/** Invariants of the scan that links parens and braces, one lemma for each kind of token. */
module MatchState {
  import opened Nest
  import opened Ops
  import opened Links

  /** The brace of paren `x` is open. */
  ghost predicate Hidden(s: seq<Op>, x: nat)
    requires x < |s|
  {
    s[x].kind == IRep1 && 0 <= s[x].mate < |s| && s[s[x].mate].inner == -1
  }

  /** The instruction that opened the half of paren `x` that is being read. */
  ghost function Opener(s: seq<Op>, x: nat): int
    requires x < |s|
  {
    if s[x].kind == IRep1 && 0 <= s[x].mate < |s| then s[s[x].mate].inner else x
  }

  /** The paren that a half-opening instruction belongs to. */
  ghost function Owner(s: seq<Op>, o: nat): int
    requires o < |s|
  {
    if s[o].kind == Inner2 && 0 <= s[o].inner < |s| then s[s[o].inner].mate else o
  }

  /** Kinds change only by marking the parens that have a brace. */
  ghost predicate SameToken(r: Op, o: Op)
  {
    match r.kind
    case Rep1 => (o.kind.Rep1? || o.kind.IRep1?)
    case Rep2 => (o.kind.Rep2? || o.kind.IRep2?) && o.count == r.count
    case Inner1 => o.kind == Inner1
    case Inner2 => o.kind == Inner2
    case _ => o == r
  }

  /** Instruction `i` has been read: its links are right as far as they are known, and the missing
      ones are those of the tokens still open. */
  ghost predicate Seen(raw: seq<Op>, s: seq<Op>, at: nat, cs: seq<nat>, i: nat)
    requires i < at <= |s| == |raw|
  {
    && SameToken(raw[i], s[i]) && Link(s, i, at)
    && (i in cs ==> (raw[i].kind.Rep1? || raw[i].kind.Inner1?))
    && (s[i].kind == Rep1 ==> (s[i].mate == -1 <==> i in cs))
    && ((s[i].kind.IRep1? || s[i].kind.Inner1?) ==> (s[i].inner == -1 <==> i in cs))
    && (s[i].kind == Inner2 ==> (s[i].mate == -1 <==> Owner(s, i) in cs))
  }

  /** The half of open paren `x` that is being read is waiting, unless its brace is open. */
  ghost predicate Waiting(raw: seq<Op>, s: seq<Op>, cs: seq<nat>, du: seq<nat>, x: nat)
    requires x < |s| == |raw|
  {
    x in cs && raw[x].kind != Inner1 && !Hidden(s, x) ==> Opener(s, x) in du
  }

  ghost predicate AllSeen(raw: seq<Op>, s: seq<Op>, at: nat, cs: seq<nat>)
    requires at <= |s| == |raw|
  {
    forall i: nat {:trigger Seen(raw, s, at, cs, i)} :: i < at ==> Seen(raw, s, at, cs, i)
  }

  /** A waiting half begins with `(` or `}`. */
  ghost predicate HalfOpen(s: seq<Op>, du: seq<nat>, o: nat)
  {
    o in du ==> o < |s| && s[o].mate == -1 && (s[o].kind.Rep1? || s[o].kind.Inner2?)
  }

  ghost predicate Unread(raw: seq<Op>, s: seq<Op>, i: nat)
    requires i < |s| == |raw|
  {
    s[i] == raw[i] && RawAt(raw, i)
  }

  ghost predicate AllUnread(raw: seq<Op>, s: seq<Op>, at: nat)
    requires at <= |s| == |raw|
  {
    forall i: nat {:trigger Unread(raw, s, i)} :: at <= i < |s| ==> Unread(raw, s, i)
  }

  ghost predicate AllWaiting(raw: seq<Op>, s: seq<Op>, at: nat, cs: seq<nat>, du: seq<nat>)
    requires at <= |s| == |raw|
  {
    && (forall x: nat {:trigger Waiting(raw, s, cs, du, x)} :: x < at ==> Waiting(raw, s, cs, du, x))
    && (forall o: nat {:trigger HalfOpen(s, du, o)} :: HalfOpen(s, du, o))
  }

  /** State of the scan before position `at`: `cs` holds the open parens and braces, `du` the open
      halves. */
  ghost predicate State(raw: seq<Op>, s: seq<Op>, at: nat, cs: seq<nat>, du: seq<nat>)
  {
    && at <= |s| == |raw|
    && AllUnread(raw, s, at)
    && AllSeen(raw, s, at, cs)
    && AllWaiting(raw, s, at, cs, du)
    && Scan(Blocks(s), cs, at)
    && Scan(Halves(s), du, at)
  }

  /** A half `ox` of a visible paren `x` was opened after the half `o` of a paren `y` further out,
      whose brace is (`i1`, `o`). */
  lemma HalvesInOrder(hs: seq<int>, bs: seq<int>, du: seq<nat>, cs: seq<nat>, at: nat,
                      y: nat, i1: nat, o: nat, x: nat, ox: nat)
    requires at <= |hs| == |bs| && Scan(hs, du, at) && Scan(bs, cs, at)
    requires y < x <= ox < at && o < at && y < i1 < o && hs[y] == i1 && bs[i1] == o
    requires x in cs && ox in du
    requires x == ox || (x < hs[x] < at && bs[hs[x]] == ox)
    ensures o <= ox
  {
    assert Awaits(bs, cs, at, x) && Awaits(hs, du, at, ox);
    assert Clear(bs, i1, x) && Clear(hs, y, ox);
    assert x != ox ==> Apart(hs, y, x) && Apart(bs, hs[x], i1) && Joined(bs, at, hs[x]);
  }

  /** The half opened last belongs to the innermost paren whose brace is not open. */
  lemma InnermostHalf(raw: seq<Op>, s: seq<Op>, at: nat, cs: seq<nat>, du: seq<nat>, x: nat)
    requires State(raw, s, at, cs, du)
    requires x in cs && x < at && raw[x].kind != Inner1 && !Hidden(s, x)
    requires forall y :: y in cs && y < at && raw[y].kind != Inner1 && y > x ==> Hidden(s, y)
    ensures |du| > 0 && du[|du| - 1] == Opener(s, x)
  {
    var ox := Opener(s, x);
    assert Seen(raw, s, at, cs, x) && Waiting(raw, s, cs, du, x);
    assert s[x].kind == IRep1 ==> Seen(raw, s, at, cs, s[x].mate);
    var o := du[|du| - 1];
    assert o in du && HalfOpen(s, du, o) && Awaits(Halves(s), du, at, o);
    assert ox <= o by {
      assert du == du[..|du| - 1] + [o];
      LastIsLargest(du[..|du| - 1], o);
    }
    if o != ox {
      assert Seen(raw, s, at, cs, o);
      assert s[o].kind == Rep1 ==> o in cs;
      var i1: nat := s[o].inner;
      assert Seen(raw, s, at, cs, i1);
      var y: nat := s[i1].mate;
      assert Seen(raw, s, at, cs, y) && y in cs;
      HalvesInOrder(Halves(s), Blocks(s), du, cs, at, y, i1, o, x, ox);
    }
  }

  lemma UnreadFrame(raw: seq<Op>, s: seq<Op>, s': seq<Op>, at: nat)
    requires at < |s| == |s'| == |raw| && AllUnread(raw, s, at)
    requires forall i :: at < i < |s| ==> s'[i] == s[i]
    ensures AllUnread(raw, s', at + 1)
  {
    forall i: nat {:trigger Unread(raw, s', i)} | at < i < |s|
      ensures Unread(raw, s', i)
    {
      assert Unread(raw, s, i);
    }
  }

  /** The token being read is not among the open ones. */
  lemma NewToken(ps: seq<int>, st: seq<nat>, at: nat)
    requires at <= |ps| && Scan(ps, st, at)
    ensures at !in st
  {
    assert Awaits(ps, st, at, at);
  }

  lemma SeenUnchanged(raw: seq<Op>, s: seq<Op>, at: nat, cs: seq<nat>, cs': seq<nat>)
    requires at < |s| == |raw| && Unread(raw, s, at) && AllSeen(raw, s, at, cs)
    requires at !in cs
    requires if Costed(s[at].kind) then cs' == cs else s[at].kind == Rep1 && cs' == cs + [at]
    ensures AllSeen(raw, s, at + 1, cs')
  {
    forall i: nat {:trigger Seen(raw, s, at + 1, cs', i)} | i < at + 1
      ensures Seen(raw, s, at + 1, cs', i)
    {
      if i < at {
        assert Seen(raw, s, at, cs, i);
        assert s[i].kind == Inner2 ==> Seen(raw, s, at, cs, s[i].inner);
      }
    }
  }

  lemma ReadPlain(raw: seq<Op>, s: seq<Op>, at: nat, cs: seq<nat>, du: seq<nat>)
    requires State(raw, s, at, cs, du) && at < |s| && Costed(s[at].kind)
    ensures State(raw, s, at + 1, cs, du)
  {
    assert Unread(raw, s, at);
    NewToken(Blocks(s), cs, at);
    SeenUnchanged(raw, s, at, cs, cs);
    UnreadFrame(raw, s, s, at);
    assert Waiting(raw, s, cs, du, at);
    ScanPlain(Blocks(s), Blocks(s), cs, at);
    ScanPlain(Halves(s), Halves(s), du, at);
  }

  lemma ReadOpen(raw: seq<Op>, s: seq<Op>, at: nat, cs: seq<nat>, du: seq<nat>)
    requires State(raw, s, at, cs, du) && at < |s| && s[at].kind == Rep1
    ensures State(raw, s, at + 1, cs + [at], du + [at])
  {
    assert Unread(raw, s, at);
    NewToken(Blocks(s), cs, at);
    SeenUnchanged(raw, s, at, cs, cs + [at]);
    UnreadFrame(raw, s, s, at);
    ScanPush(Blocks(s), Blocks(s), cs, at);
    ScanPush(Halves(s), Halves(s), du, at);
    forall x: nat {:trigger Waiting(raw, s, cs + [at], du + [at], x)} | x < at + 1
      ensures Waiting(raw, s, cs + [at], du + [at], x)
    {
      assert x < at ==> Waiting(raw, s, cs, du, x);
    }
    forall o: nat {:trigger HalfOpen(s, du + [at], o)}
      ensures HalfOpen(s, du + [at], o)
    {
      assert HalfOpen(s, du, o);
    }
  }

  /** `{` at position `at` is bound to paren `q`, which has no brace yet. */
  function BraceOpened(s: seq<Op>, at: nat, q: nat): seq<Op>
    requires q < at < |s|
  {
    s[at := s[at].(mate := q, inner := -1)][q := s[q].(kind := IRep1, mate := at)]
  }

  lemma SeenBraceOpen(raw: seq<Op>, s: seq<Op>, at: nat, cs: seq<nat>, q: nat)
    requires at < |s| == |raw| && Unread(raw, s, at) && AllSeen(raw, s, at, cs)
    requires s[at].kind == Inner1 && q < at && q in cs && raw[q].kind == Rep1 && s[q].mate == -1
    ensures AllSeen(raw, BraceOpened(s, at, q), at + 1, cs + [at])
  {
    var s', cs' := BraceOpened(s, at, q), cs + [at];
    assert Seen(raw, s, at, cs, q);
    forall i: nat {:trigger Seen(raw, s', at + 1, cs', i)} | i < at + 1
      ensures Seen(raw, s', at + 1, cs', i)
    {
      if i < at {
        assert Seen(raw, s, at, cs, i);
        assert s[i].kind == Inner2 ==> Seen(raw, s, at, cs, s[i].inner);
      }
    }
  }

  lemma WaitingBraceOpen(raw: seq<Op>, s: seq<Op>, at: nat, cs: seq<nat>, du: seq<nat>, q: nat)
    requires at < |s| == |raw| && Unread(raw, s, at) && s[at].kind == Inner1
    requires AllSeen(raw, s, at, cs) && AllWaiting(raw, s, at, cs, du + [q])
    requires q < at && q in cs && raw[q].kind == Rep1 && s[q].mate == -1
    requires forall o :: o in du ==> o != q
    ensures AllWaiting(raw, BraceOpened(s, at, q), at + 1, cs + [at], du)
  {
    var s', cs' := BraceOpened(s, at, q), cs + [at];
    assert Seen(raw, s, at, cs, q);
    forall x: nat {:trigger Waiting(raw, s', cs', du, x)} | x < at + 1
      ensures Waiting(raw, s', cs', du, x)
    {
      if x < at {
        assert Waiting(raw, s, cs, du + [q], x);
        assert Seen(raw, s, at, cs, x);
        assert s[x].kind == IRep1 ==> Seen(raw, s, at, cs, s[x].mate);
      }
    }
    forall o: nat {:trigger HalfOpen(s', du, o)}
      ensures HalfOpen(s', du, o)
    {
      assert HalfOpen(s, du + [q], o);
    }
  }

  lemma ReadBraceOpen(raw: seq<Op>, s: seq<Op>, at: nat, cs: seq<nat>, du: seq<nat>, q: nat)
    requires State(raw, s, at, cs, du + [q]) && at < |s| && s[at].kind == Inner1
    requires q in cs && q < at && raw[q].kind == Rep1 && s[q].mate == -1
    ensures State(raw, BraceOpened(s, at, q), at + 1, cs + [at], du)
  {
    var s' := BraceOpened(s, at, q);
    assert Unread(raw, s, at);
    UnreadFrame(raw, s, s', at);
    assert Seen(raw, s, at, cs, q);
    SeenBraceOpen(raw, s, at, cs, q);
    ScanPush(Blocks(s), Blocks(s'), cs, at);
    ScanPop(Halves(s), Halves(s'), du, q, at);
    LastIsLargest(du, q);
    WaitingBraceOpen(raw, s, at, cs, du, q);
  }

  /** `}` at position `at` ends the brace opened at `b`. */
  function BraceClosed(s: seq<Op>, at: nat, b: nat): seq<Op>
    requires b < at < |s|
  {
    s[at := s[at].(mate := -1, inner := b)][b := s[b].(inner := at)]
  }

  lemma SeenBraceClose(raw: seq<Op>, s: seq<Op>, at: nat, cs: seq<nat>, b: nat)
    requires at < |s| == |raw| && Unread(raw, s, at) && AllSeen(raw, s, at, cs + [b])
    requires s[at].kind == Inner2 && b < at && raw[b].kind == Inner1 && b !in cs && at !in cs
    ensures AllSeen(raw, BraceClosed(s, at, b), at + 1, cs)
  {
    var s', cs' := BraceClosed(s, at, b), cs + [b];
    assert b in cs' && Seen(raw, s, at, cs', b);
    var q: nat := s[b].mate;
    assert Seen(raw, s, at, cs', q);
    assert s[q].inner != -1 ==> Seen(raw, s, at, cs', s[q].inner);
    forall i: nat {:trigger Seen(raw, s', at + 1, cs, i)} | i < at + 1
      ensures Seen(raw, s', at + 1, cs, i)
    {
      if i < at {
        assert Seen(raw, s, at, cs', i);
        assert s[i].kind == Inner2 ==> Seen(raw, s, at, cs', s[i].inner);
      }
    }
  }

  lemma WaitingBraceClose(raw: seq<Op>, s: seq<Op>, at: nat, cs: seq<nat>, du: seq<nat>, b: nat)
    requires at < |s| == |raw| && Unread(raw, s, at) && s[at].kind == Inner2
    requires AllSeen(raw, s, at, cs + [b]) && AllWaiting(raw, s, at, cs + [b], du)
    requires b < at && raw[b].kind == Inner1
    ensures AllWaiting(raw, BraceClosed(s, at, b), at + 1, cs, du + [at])
  {
    var s', cs' := BraceClosed(s, at, b), cs + [b];
    forall o: nat {:trigger HalfOpen(s', du + [at], o)}
      ensures HalfOpen(s', du + [at], o)
    {
      assert HalfOpen(s, du, o);
    }
    assert b in cs' && Seen(raw, s, at, cs', b);
    forall x: nat {:trigger Waiting(raw, s', cs, du + [at], x)} | x < at + 1
      ensures Waiting(raw, s', cs, du + [at], x)
    {
      if x < at {
        assert Waiting(raw, s, cs', du, x);
        assert Seen(raw, s, at, cs', x);
        assert s[x].kind == IRep1 ==> Seen(raw, s, at, cs', s[x].mate);
      }
    }
  }

  lemma ReadBraceClose(raw: seq<Op>, s: seq<Op>, at: nat, cs: seq<nat>, du: seq<nat>, b: nat)
    requires State(raw, s, at, cs + [b], du) && at < |s| && s[at].kind == Inner2
    requires b < at && raw[b].kind == Inner1
    ensures State(raw, BraceClosed(s, at, b), at + 1, cs, du + [at])
  {
    var s' := BraceClosed(s, at, b);
    assert Unread(raw, s, at);
    UnreadFrame(raw, s, s', at);
    NewToken(Blocks(s), cs + [b], at);
    assert b in cs + [b] && Seen(raw, s, at, cs + [b], b);
    LastIsLargest(cs, b);
    assert forall o :: o in cs ==> o in cs + [b];
    SeenBraceClose(raw, s, at, cs, b);
    ScanPop(Blocks(s), Blocks(s'), cs, b, at);
    ScanPush(Halves(s), Halves(s'), du, at);
    WaitingBraceClose(raw, s, at, cs, du, b);
  }

  /** `)` at position `at` ends paren `p`, which has no brace. */
  function ParenClosed(s: seq<Op>, at: nat, p: nat): seq<Op>
    requires p < at < |s|
  {
    s[at := s[at].(mate := p, inner := -1)][p := s[p].(mate := at, count := s[at].count)]
  }

  lemma SeenClose(raw: seq<Op>, s: seq<Op>, at: nat, cs: seq<nat>, p: nat)
    requires at < |s| == |raw| && Unread(raw, s, at) && AllSeen(raw, s, at, cs + [p])
    requires s[at].kind == Rep2 && p < at && s[p].kind == Rep1 && p !in cs && at !in cs
    ensures AllSeen(raw, ParenClosed(s, at, p), at + 1, cs)
  {
    var s', cs' := ParenClosed(s, at, p), cs + [p];
    assert p in cs' && Seen(raw, s, at, cs', p);
    forall i: nat {:trigger Seen(raw, s', at + 1, cs, i)} | i < at + 1
      ensures Seen(raw, s', at + 1, cs, i)
    {
      if i < at {
        assert Seen(raw, s, at, cs', i);
        assert s[i].kind == Inner2 ==> Seen(raw, s, at, cs', s[i].inner);
      }
    }
  }

  lemma WaitingClose(raw: seq<Op>, s: seq<Op>, at: nat, cs: seq<nat>, du: seq<nat>, p: nat)
    requires at < |s| == |raw| && Unread(raw, s, at) && s[at].kind == Rep2
    requires AllSeen(raw, s, at, cs + [p]) && AllWaiting(raw, s, at, cs + [p], du + [p])
    requires p < at && s[p].kind == Rep1 && p !in cs && at !in cs && p !in du
    ensures AllWaiting(raw, ParenClosed(s, at, p), at + 1, cs, du)
  {
    var s', cs' := ParenClosed(s, at, p), cs + [p];
    assert p in cs' && Seen(raw, s, at, cs', p);
    forall x: nat {:trigger Waiting(raw, s', cs, du, x)} | x < at + 1
      ensures Waiting(raw, s', cs, du, x)
    {
      if x < at {
        assert Waiting(raw, s, cs', du + [p], x);
        assert Seen(raw, s, at, cs', x);
        assert s[x].kind == IRep1 ==> Seen(raw, s, at, cs', s[x].mate);
      }
    }
    forall o: nat {:trigger HalfOpen(s', du, o)}
      ensures HalfOpen(s', du, o)
    {
      assert HalfOpen(s, du + [p], o);
    }
  }

  lemma ReadClose(raw: seq<Op>, s: seq<Op>, at: nat, cs: seq<nat>, du: seq<nat>, p: nat)
    requires State(raw, s, at, cs + [p], du + [p]) && at < |s| && s[at].kind == Rep2
    requires p < at && s[p].kind == Rep1
    ensures State(raw, ParenClosed(s, at, p), at + 1, cs, du)
  {
    var s' := ParenClosed(s, at, p);
    assert Unread(raw, s, at);
    UnreadFrame(raw, s, s', at);
    NewToken(Blocks(s), cs + [p], at);
    assert p in cs + [p] && Seen(raw, s, at, cs + [p], p);
    LastIsLargest(cs, p);
    LastIsLargest(du, p);
    assert forall o :: o in cs ==> o in cs + [p];
    SeenClose(raw, s, at, cs, p);
    ScanPop(Blocks(s), Blocks(s'), cs, p, at);
    ScanPop(Halves(s), Halves(s'), du, p, at);
    WaitingClose(raw, s, at, cs, du, p);
  }

  /** `)` at position `at` ends paren `p`, whose brace is (`i1`, `i2`). */
  function BracedParenClosed(s: seq<Op>, at: nat, p: nat, i1: nat, i2: nat): seq<Op>
    requires p < i1 < i2 < at < |s|
  {
    var c := s[at].count;
    s[at := s[at].(kind := IRep2, inner := p, mate := i2)]
     [p := s[p].(inner := at, count := c)]
     [i1 := s[i1].(count := c)]
     [i2 := s[i2].(mate := at, count := c)]
  }

  ghost predicate BracedParen(s: seq<Op>, at: nat, p: nat, i1: int, i2: int)
    requires at < |s|
  {
    p < i1 < i2 < at && s[p].kind == IRep1 && s[p].mate == i1 && s[i1].inner == i2
  }

  lemma SeenBracedClose(raw: seq<Op>, s: seq<Op>, at: nat, cs: seq<nat>, p: nat, i1: nat, i2: nat)
    requires at < |s| == |raw| && Unread(raw, s, at) && AllSeen(raw, s, at, cs + [p])
    requires s[at].kind == Rep2 && BracedParen(s, at, p, i1, i2) && p !in cs && at !in cs
    ensures AllSeen(raw, BracedParenClosed(s, at, p, i1, i2), at + 1, cs)
  {
    var s' := BracedParenClosed(s, at, p, i1, i2);
    forall i: nat {:trigger Seen(raw, s', at + 1, cs, i)} | i < at + 1
      ensures Seen(raw, s', at + 1, cs, i)
    {
      SeenBracedCloseAt(raw, s, at, cs, p, i1, i2, i);
    }
  }

  lemma SeenBracedCloseAt(raw: seq<Op>, s: seq<Op>, at: nat, cs: seq<nat>, p: nat, i1: nat, i2: nat, i: nat)
    requires at < |s| == |raw| && Unread(raw, s, at) && AllSeen(raw, s, at, cs + [p]) && i <= at
    requires s[at].kind == Rep2 && BracedParen(s, at, p, i1, i2) && p !in cs && at !in cs
    ensures Seen(raw, BracedParenClosed(s, at, p, i1, i2), at + 1, cs, i)
  {
    var cs' := cs + [p];
    assert p in cs' && Seen(raw, s, at, cs', p);
    assert Seen(raw, s, at, cs', i1) && Seen(raw, s, at, cs', i2);
    if i < at {
      assert Seen(raw, s, at, cs', i);
      assert s[i].kind == Inner2 ==> Seen(raw, s, at, cs', s[i].inner);
    }
  }

  lemma WaitingBracedClose(raw: seq<Op>, s: seq<Op>, at: nat, cs: seq<nat>, du: seq<nat>,
                           p: nat, i1: nat, i2: nat)
    requires at < |s| == |raw| && Unread(raw, s, at) && s[at].kind == Rep2
    requires AllSeen(raw, s, at, cs + [p]) && AllWaiting(raw, s, at, cs + [p], du + [i2])
    requires BracedParen(s, at, p, i1, i2) && p !in cs && at !in cs && i2 !in du
    ensures AllWaiting(raw, BracedParenClosed(s, at, p, i1, i2), at + 1, cs, du)
  {
    var s', cs' := BracedParenClosed(s, at, p, i1, i2), cs + [p];
    assert p in cs' && Seen(raw, s, at, cs', p);
    assert Seen(raw, s, at, cs', i1) && Seen(raw, s, at, cs', i2);
    forall x: nat {:trigger Waiting(raw, s', cs, du, x)} | x < at + 1
      ensures Waiting(raw, s', cs, du, x)
    {
      if x < at {
        assert Waiting(raw, s, cs', du + [i2], x);
        assert Seen(raw, s, at, cs', x);
        assert s[x].kind == IRep1 ==> Seen(raw, s, at, cs', s[x].mate);
      }
    }
    forall o: nat {:trigger HalfOpen(s', du, o)}
      ensures HalfOpen(s', du, o)
    {
      assert HalfOpen(s, du + [i2], o);
    }
  }

  lemma ReadBracedClose(raw: seq<Op>, s: seq<Op>, at: nat, cs: seq<nat>, du: seq<nat>, p: nat, i1: nat, i2: nat)
    requires State(raw, s, at, cs + [p], du + [i2]) && at < |s| && s[at].kind == Rep2
    requires BracedParen(s, at, p, i1, i2)
    ensures State(raw, BracedParenClosed(s, at, p, i1, i2), at + 1, cs, du)
  {
    var s' := BracedParenClosed(s, at, p, i1, i2);
    assert Unread(raw, s, at);
    UnreadFrame(raw, s, s', at);
    NewToken(Blocks(s), cs + [p], at);
    assert p in cs + [p] && Seen(raw, s, at, cs + [p], p);
    assert Seen(raw, s, at, cs + [p], i1) && Seen(raw, s, at, cs + [p], i2);
    LastIsLargest(cs, p);
    LastIsLargest(du, i2);
    assert forall o :: o in cs ==> o in cs + [p];
    SeenBracedClose(raw, s, at, cs, p, i1, i2);
    ScanPop(Blocks(s), Blocks(s'), cs, p, at);
    ScanPop(Halves(s), Halves(s'), du, i2, at);
    WaitingBracedClose(raw, s, at, cs, du, p, i1, i2);
  }
}
