/** Which lists the linking scan accepts. */
module Acceptance {
  import opened Nest
  import opened Ops
  import opened Links
  import opened MatchState
  import opened Levels
  import opened MatchSteps
  import opened Binding

  // What a scan knows about every proper pairing of all tokens.

  /** `qs` has its openers and closers where the scan has seen them. */
  ghost predicate AgreesAt(ps: seq<int>, st: seq<nat>, qs: seq<int>, i: nat)
  {
    i < |ps| == |qs| ==>
      if i in st then qs[i] > i
      else (ps[i] == -1 <==> qs[i] == -1) && (ps[i] > i <==> qs[i] > i)
  }

  ghost predicate Extends(ps: seq<int>, st: seq<nat>, n: nat, qs: seq<int>)
    requires n <= |ps|
  {
    && |qs| == |ps| && Paired(qs, |qs|)
    && forall i: nat {:trigger AgreesAt(ps, st, qs, i)} :: i < n ==> AgreesAt(ps, st, qs, i)
  }

  /** A completed pair is a pair of every pairing that extends the scan. */
  lemma {:induction false} PairKept(ps: seq<int>, st: seq<nat>, n: nat, qs: seq<int>, j: nat)
    requires n <= |ps| && Scan(ps, st, n) && Extends(ps, st, n, qs) && j < n && 0 <= ps[j] < j
    ensures qs[j] == ps[j]
    decreases j, 1
  {
    assert Awaits(ps, st, n, j) && AgreesAt(ps, st, qs, j) && Joined(ps, n, j) && Joined(qs, |qs|, j);
    if ps[j] < qs[j] {
      InsideKept(ps, st, n, qs, j, qs[j]);
    } else if qs[j] < ps[j] {
      InsideOther(ps, st, n, qs, j, ps[j]);
    }
  }

  lemma {:induction false} InsideKept(ps: seq<int>, st: seq<nat>, n: nat, qs: seq<int>, j: nat, m: nat)
    requires n <= |ps| && Scan(ps, st, n) && Extends(ps, st, n, qs)
    requires j < n && 0 <= ps[j] < m < j && m < qs[m]
    ensures qs[m] == ps[m] < j
    decreases j, 0
  {
    assert m in st ==> Clear(ps, ps[j], m);
    assert Joined(ps, n, j) && AgreesAt(ps, st, qs, m);
    assert Joined(ps, n, m) && Apart(ps, ps[j], m);
    var p: nat := ps[m];
    PairKept(ps, st, n, qs, p);
    assert Joined(qs, |qs|, p);
  }

  lemma {:induction false} InsideOther(ps: seq<int>, st: seq<nat>, n: nat, qs: seq<int>, j: nat, m: nat)
    requires n <= |ps| && Scan(ps, st, n) && Extends(ps, st, n, qs)
    requires j < n && 0 <= qs[j] < m < j && m < ps[m]
    ensures ps[m] == qs[m] < j
    decreases j, 0
  {
    assert Joined(ps, n, m) && Joined(qs, |qs|, j) && Awaits(ps, st, n, m) && AgreesAt(ps, st, qs, m);
    assert Joined(qs, |qs|, m) && Apart(qs, qs[j], m);
    var p: nat := qs[m];
    assert AgreesAt(ps, st, qs, p) && Joined(ps, n, p);
    PairKept(ps, st, n, qs, p);
  }

  lemma OpenerKept(ps: seq<int>, st: seq<nat>, n: nat, qs: seq<int>, m: nat)
    requires n <= |ps| && Scan(ps, st, n) && Extends(ps, st, n, qs) && m < n && m !in st && m < qs[m]
    ensures qs[m] == ps[m] < n
  {
    assert AgreesAt(ps, st, qs, m) && Joined(ps, n, m);
    PairKept(ps, st, n, qs, ps[m]);
    assert Joined(qs, |qs|, ps[m]);
  }

  /** The partner of the next closer is the opener that has been waiting for the shortest time. */
  lemma NextCloser(ps: seq<int>, st: seq<nat>, n: nat, qs: seq<int>)
    requires n < |ps| && Scan(ps, st, n) && Extends(ps, st, n, qs) && 0 <= qs[n] < n
    ensures st != [] && qs[n] == st[|st| - 1]
  {
    var m: nat := qs[n];
    assert Joined(qs, |qs|, n);
    if m !in st { OpenerKept(ps, st, n, qs, m); }
    forall l | l in st
      ensures l <= m
    {
      if l > m { WaitingIsLast(ps, st, n, qs, l); }
    }
    LastInOrder(st, m);
  }

  lemma WaitingIsLast(ps: seq<int>, st: seq<nat>, n: nat, qs: seq<int>, l: nat)
    requires n < |ps| && Scan(ps, st, n) && Extends(ps, st, n, qs) && 0 <= qs[n] < n && l in st
    ensures l <= qs[n]
  {
    assert Awaits(ps, st, n, l) && AgreesAt(ps, st, qs, l) && Joined(qs, |qs|, l) && Joined(qs, |qs|, n);
    if l > qs[n] {
      assert Apart(qs, qs[n], l);
      StillOpen(ps, st, n, qs, l);
    }
  }

  /** An opener that waits is not paired within the part that has been scanned. */
  lemma StillOpen(ps: seq<int>, st: seq<nat>, n: nat, qs: seq<int>, l: nat)
    requires n <= |ps| && Scan(ps, st, n) && Extends(ps, st, n, qs) && l in st
    ensures l < n && n <= qs[l] < |qs|
  {
    assert Awaits(ps, st, n, l) && AgreesAt(ps, st, qs, l) && Joined(qs, |qs|, l);
    var p: nat := qs[l];
    if p < n {
      assert AgreesAt(ps, st, qs, p) && Joined(ps, n, p);
      PairKept(ps, st, n, qs, p);
    }
  }

  lemma LastInOrder(st: seq<nat>, m: nat)
    requires Increasing(st) && m in st && forall l :: l in st ==> l <= m
    ensures |st| > 0 && st[|st| - 1] == m
  {
    var k :| 0 <= k < |st| && st[k] == m;
    assert Ordered(st, k, |st| - 1) && st[|st| - 1] in st;
  }

  // Counting back.

  /** The open tokens after another one. */
  function After(k: Kind, at: nat, c: Open): Open
  {
    if k == Rep1 then Frame(at, c)
    else if k == Inner1 then Counted(at, c)
    else if (k == Inner2 || k == Rep2) && c != Nothing then c.outer
    else c
  }

  /** The open tokens before position `at`. */
  function Scanned(raw: seq<Op>, at: nat): Open
    requires at <= |raw|
  {
    if at == 0 then Nothing else After(raw[at - 1].kind, at - 1, Scanned(raw, at - 1))
  }

  /** The brace at `b` belongs to the paren found by counting back: as many open parens further out
      than the innermost one as there are braces open since that one. */
  ghost predicate CountsBackAt(raw: seq<Op>, t: seq<Op>, b: nat)
  {
    b < |raw| == |t| && raw[b].kind == Inner1 ==>
      var c := Scanned(raw, b);
      Level(c) < |Frames(c)| && t[b].mate == Frames(c)[|Frames(c)| - 1 - Level(c)]
  }

  /** `t` links the tokens `raw`, and each brace belongs to the paren found by counting back. */
  ghost predicate Linking(raw: seq<Op>, t: seq<Op>)
  {
    Linked(t) && SameTexts(raw, t) && forall b: nat {:trigger CountsBackAt(raw, t, b)} :: CountsBackAt(raw, t, b)
  }

  /** The braces read so far. */
  ghost predicate CountedBack(raw: seq<Op>, s: seq<Op>, at: nat)
  {
    forall b: nat {:trigger CountsBackAt(raw, s, b)} :: b < at ==> CountsBackAt(raw, s, b)
  }

  // What a linking of the tokens says about a token that the scan is about to read.

  lemma BlocksExtend(raw: seq<Op>, s: seq<Op>, at: nat, cs: seq<nat>, du: seq<nat>, t: seq<Op>)
    requires State(raw, s, at, cs, du) && Linked(t) && SameTexts(raw, t)
    ensures Extends(Blocks(s), cs, at, Blocks(t))
  {
    forall i: nat {:trigger AgreesAt(Blocks(s), cs, Blocks(t), i)} | i < at
      ensures AgreesAt(Blocks(s), cs, Blocks(t), i)
    {
      assert Seen(raw, s, at, cs, i) && SameText(raw, t, i) && LinkedAt(t, i);
    }
  }

  /** `}` ends the innermost open token, which is a brace, and `)` the innermost, which is a paren. */
  lemma EndsInnermost(raw: seq<Op>, s: seq<Op>, at: nat, c: Open, du: seq<nat>, t: seq<Op>)
    requires State(raw, s, at, Positions(c), du) && Bound(raw, s, at, c) && Linked(t) && SameTexts(raw, t)
    requires at < |raw| && (raw[at].kind == Inner2 || raw[at].kind == Rep2)
    ensures if raw[at].kind == Inner2 then c.Counted? else c.Frame?
  {
    BlocksExtend(raw, s, at, Positions(c), du, t);
    assert SameText(raw, t, at) && LinkedAt(t, at);
    NextCloser(Blocks(s), Positions(c), at, Blocks(t));
    var x := c.at;
    assert Blocks(t)[at] == x;
    assert SameText(raw, t, x) && LinkedAt(t, x);
  }

  /** The paren found by counting back has no brace yet. */
  lemma FirstBrace(raw: seq<Op>, s: seq<Op>, at: nat, cs: seq<nat>, c: Open, t: seq<Op>, q: nat)
    requires at < |raw| == |s| && AllSeen(raw, s, at, cs) && CountedBack(raw, s, at) && Linking(raw, t)
    requires raw[at].kind == Inner1 && c == Scanned(raw, at)
    requires Level(c) < |Frames(c)| && q == Frames(c)[|Frames(c)| - 1 - Level(c)] < at && raw[q].kind == Rep1 && q in cs
    ensures s[q].mate == -1
  {
    assert CountsBackAt(raw, t, at) && SameText(raw, t, at) && LinkedAt(t, at);
    assert Seen(raw, s, at, cs, q);
    if s[q].mate != -1 { OwnsBrace(raw, s, at, cs, t, q, s[q].mate); }
  }

  /** The brace that a paren has already is its brace in every linking. */
  lemma OwnsBrace(raw: seq<Op>, s: seq<Op>, at: nat, cs: seq<nat>, t: seq<Op>, q: nat, b: int)
    requires at < |raw| == |s| && AllSeen(raw, s, at, cs) && CountedBack(raw, s, at) && Linking(raw, t)
    requires q < at && raw[q].kind == Rep1 && s[q].mate == b != -1 && q in cs
    ensures 0 <= b < at && |t| == |raw| && t[q].mate == b
  {
    assert Seen(raw, s, at, cs, q);
    assert Seen(raw, s, at, cs, b) && CountsBackAt(raw, s, b) && CountsBackAt(raw, t, b);
    assert SameText(raw, t, b) && LinkedAt(t, b);
  }

  /** At the end of the tokens nothing is open. */
  lemma NothingLeft(raw: seq<Op>, s: seq<Op>, c: Open, du: seq<nat>, t: seq<Op>)
    requires State(raw, s, |raw|, Positions(c), du) && Linked(t) && SameTexts(raw, t)
    ensures c == Nothing
  {
    BlocksExtend(raw, s, |raw|, Positions(c), du, t);
    if c != Nothing {
      OpenIsPosition(c);
      StillOpen(Blocks(s), Positions(c), |raw|, Blocks(t), c.at);
    }
  }

  lemma OpenIsPosition(c: Open)
    requires c != Nothing
    ensures c.at in Positions(c)
  {
  }

  /** No linking of the tokens `raw` exists in which each brace belongs to the paren found by counting back. */
  ghost predicate Unlinkable(raw: seq<Op>)
  {
    forall t: seq<Op> :: !Linking(raw, t)
  }

  // The scan keeps track, and rejects nothing that can be linked.

  lemma KeepsCounting(raw: seq<Op>, s: seq<Op>, s': seq<Op>, at: nat)
    requires at < |raw| == |s| == |s'| && CountedBack(raw, s, at)
    requires forall b :: 0 <= b < at && raw[b].kind == Inner1 ==> s'[b].mate == s[b].mate
    requires CountsBackAt(raw, s', at)
    ensures CountedBack(raw, s', at + 1)
  {
    forall b: nat {:trigger CountsBackAt(raw, s', b)} | b < at + 1
      ensures CountsBackAt(raw, s', b)
    {
      assert b < at ==> CountsBackAt(raw, s, b);
    }
  }

  /** The paren found by counting back is an open one. */
  lemma CountedParen(raw: seq<Op>, s: seq<Op>, at: nat, c: Open, q: nat)
    requires at < |raw| == |s| && Bound(raw, s, at, c) && AllSeen(raw, s, at, Positions(c)) && q in Frames(c)
    ensures q < at && q in Positions(c) && raw[q].kind == Rep1
  {
    OpenToken(raw, s, at, c, q);
    assert Seen(raw, s, at, Positions(c), q);
  }

  /** Ending a paren changes no mate of a brace. */
  lemma EndKeepsMates(raw: seq<Op>, s: seq<Op>, at: nat, cs: seq<nat>, p: nat, x: nat)
    requires p < at < |s| == |raw| && AllSeen(raw, s, at, cs) && x < at && raw[x].kind == Inner1
    requires s[p].kind == IRep1 ==> 0 <= s[p].mate < |s| && BracedParen(s, at, p, s[p].mate, s[s[p].mate].inner)
    requires s[p].kind == IRep1 || s[p].kind == Rep1
    ensures ParenEnded(s, at, p)[x].mate == s[x].mate
  {
    assert Seen(raw, s, at, cs, x) && Seen(raw, s, at, cs, p);
    if s[p].kind == IRep1 { assert Seen(raw, s, at, cs, s[p].mate); }
  }

  /** Nothing is left to count back to. */
  lemma RejectBrace(raw: seq<Op>, at: nat, c: Open)
    requires at < |raw| && raw[at].kind == Inner1 && c == Scanned(raw, at) && Level(c) >= |Frames(c)|
    ensures Unlinkable(raw)
  {
    forall t: seq<Op>
      ensures !Linking(raw, t)
    {
      assert |t| == |raw| ==> !CountsBackAt(raw, t, at);
    }
  }

  /** The paren found by counting back has a brace already. */
  lemma RejectSecond(raw: seq<Op>, s: seq<Op>, at: nat, cs: seq<nat>, c: Open, q: nat)
    requires at < |raw| == |s| && AllSeen(raw, s, at, cs) && CountedBack(raw, s, at)
    requires raw[at].kind == Inner1 && c == Scanned(raw, at)
    requires Level(c) < |Frames(c)| && q == Frames(c)[|Frames(c)| - 1 - Level(c)] < at && raw[q].kind == Rep1 && q in cs
    requires s[q].mate != -1
    ensures Unlinkable(raw)
  {
    forall t: seq<Op>
      ensures !Linking(raw, t)
    {
      if Linking(raw, t) { FirstBrace(raw, s, at, cs, c, t, q); }
    }
  }

  /** The innermost open token is not the one that is to be ended. */
  lemma RejectEnd(raw: seq<Op>, s: seq<Op>, at: nat, c: Open, du: seq<nat>)
    requires State(raw, s, at, Positions(c), du) && Bound(raw, s, at, c)
    requires at < |raw| && ((raw[at].kind == Inner2 && !c.Counted?) || (raw[at].kind == Rep2 && !c.Frame?))
    ensures Unlinkable(raw)
  {
    forall t: seq<Op>
      ensures !Linking(raw, t)
    {
      if Linking(raw, t) { EndsInnermost(raw, s, at, c, du, t); }
    }
  }

  /** A token is not ended. */
  lemma RejectOpen(raw: seq<Op>, s: seq<Op>, c: Open, du: seq<nat>)
    requires State(raw, s, |raw|, Positions(c), du) && c != Nothing
    ensures Unlinkable(raw)
  {
    forall t: seq<Op>
      ensures !Linking(raw, t)
    {
      if Linking(raw, t) { NothingLeft(raw, s, c, du, t); }
    }
  }

  /** What an accepted list is. */
  lemma AcceptedLinking(raw: seq<Op>, s: seq<Op>)
    requires Linked(s) && |s| == |raw| && CountedBack(raw, s, |raw|) && Raw(raw)
    requires forall i :: 0 <= i < |s| ==> SameToken(raw[i], s[i])
    ensures Linking(raw, s)
  {
    forall i: nat {:trigger SameText(raw, s, i)}
      ensures SameText(raw, s, i)
    {
      assert i < |raw| ==> RawAt(raw, i);
    }
    forall b: nat {:trigger CountsBackAt(raw, s, b)}
      ensures CountsBackAt(raw, s, b)
    {
      assert b < |raw| ==> CountsBackAt(raw, s, b);
    }
  }

  // The scan is stricter than nesting: `(({({{}})}))`, whose innermost brace belongs to the outermost
  // paren, but counting back leads to the paren in between, which has a brace already.

  function Strict(): (s: seq<Op>)
    ensures |s| == 13
  {
    [Op(IRep1, 5, 11, 1), Op(IRep1, 2, 10, 1), Op(Inner1, 1, 9, 1), Op(IRep1, 4, 8, 1), Op(Inner1, 3, 7, 1),
     Op(Inner1, 0, 6, 1), Op(Inner2, 11, 5, 1), Op(Inner2, 8, 4, 1), Op(IRep2, 7, 3, 1), Op(Inner2, 10, 2, 1),
     Op(IRep2, 9, 1, 1), Op(IRep2, 6, 0, 1), Op(Done, -1, -1, -1)]
  }

  /** The tokens that `s` was written as. */
  function Unlinked(s: seq<Op>): (raw: seq<Op>)
    ensures |raw| == |s|
  {
    seq(|s|, i requires 0 <= i < |s| => Op(Token(s[i].kind), -1, -1, s[i].count))
  }

  lemma UnlinkedRaw(s: seq<Op>)
    requires Linked(s) && EndsDone(s)
    ensures Raw(Unlinked(s)) && SameTexts(Unlinked(s), s)
  {
    var raw := Unlinked(s);
    forall i: nat {:trigger RawAt(raw, i)} | i < |raw|
      ensures RawAt(raw, i)
    {
      assert LinkedAt(s, i);
    }
  }

  lemma SixPaired(six: seq<int>)
    requires six == [5, 2, 1, 4, 3, 0]
    ensures Paired(six, 6)
  {
  }

  /** Two pairings side by side. */
  lemma TwicePaired(six: seq<int>, ps: seq<int>)
    requires |six| == 6 && Paired(six, 6) && |ps| == 13 && ps[12] == -1 && forall i :: 0 <= i < 6 ==> six[i] != -1
    requires forall i :: 0 <= i < 6 ==> ps[i] == six[i] && ps[i + 6] == six[i] + 6
    ensures Paired(ps, 13)
  {
    forall i: nat {:trigger Joined(ps, 13, i)} | i < 13
      ensures Joined(ps, 13, i)
    {
      assert i < 6 ==> Joined(six, 6, i);
      assert 6 <= i < 12 ==> Joined(six, 6, i - 6);
    }
    forall i: nat, j: nat {:trigger Apart(ps, i, j)} | i < 13 && j < 13
      ensures Apart(ps, i, j)
    {
      assert i < 6 && j < 6 ==> Apart(six, i, j) && Joined(six, 6, i);
      assert i < 6 ==> Joined(six, 6, i);
      assert 6 <= i < 12 && 6 <= j < 12 ==> Apart(six, i - 6, j - 6);
      assert 6 <= i < 12 ==> Joined(six, 6, i - 6);
    }
  }

  lemma StrictHalves()
    ensures Paired(Halves(Strict()), 13)
  {
    var six, ps := [5, 2, 1, 4, 3, 0], [5, 2, 1, 4, 3, 0, 11, 8, 7, 10, 9, 6, -1];
    assert Halves(Strict()) == ps;
    SixPaired(six);
    TwicePaired(six, ps);
  }

  lemma StrictBlocks()
    ensures Paired(Blocks(Strict()), 13)
  {
    var ps := Blocks(Strict());
    assert ps == [11, 10, 9, 8, 7, 6, 5, 4, 3, 2, 1, 0, -1];
    assert forall i :: 0 <= i < 12 ==> ps[i] == 11 - i;
  }

  lemma StrictLinks()
    ensures var t := Strict();
            && LinkedAt(t, 0) && LinkedAt(t, 1) && LinkedAt(t, 2) && LinkedAt(t, 3) && LinkedAt(t, 4) && LinkedAt(t, 5)
            && LinkedAt(t, 6) && LinkedAt(t, 7) && LinkedAt(t, 8) && LinkedAt(t, 9) && LinkedAt(t, 10) && LinkedAt(t, 11)
  {
  }

  lemma StrictLinked()
    ensures Linked(Strict()) && EndsDone(Strict())
  {
    var t := Strict();
    StrictHalves();
    StrictBlocks();
    StrictLinks();
    forall i: nat {:trigger LinkedAt(t, i)} | i < |t|
      ensures LinkedAt(t, i)
    {
    }
  }

  /** Counting back from the innermost brace leads to the second paren. */
  lemma StrictCounts()
    ensures Scanned(Unlinked(Strict()), 5) == Counted(4, Frame(3, Counted(2, Frame(1, Frame(0, Nothing)))))
  {
    var raw := Unlinked(Strict());
    assert Scanned(raw, 1) == Frame(0, Nothing);
    assert Scanned(raw, 2) == Frame(1, Frame(0, Nothing));
    assert Scanned(raw, 3) == Counted(2, Frame(1, Frame(0, Nothing)));
    assert Scanned(raw, 4) == Frame(3, Counted(2, Frame(1, Frame(0, Nothing))));
  }

  /** These tokens can be linked, but not so that each brace belongs to the paren found by counting back. */
  lemma StricterThanNesting()
    ensures Linked(Strict()) && EndsDone(Strict()) && SameTexts(Unlinked(Strict()), Strict())
    ensures Raw(Unlinked(Strict())) && Unlinkable(Unlinked(Strict()))
  {
    var raw, t := Unlinked(Strict()), Strict();
    StrictLinked();
    UnlinkedRaw(t);
    StrictCounts();
    var c := Scanned(raw, 5);
    assert Frames(c) == [0, 1, 3] && Level(c) == 1;
    forall u: seq<Op>
      ensures !Linking(raw, u)
    {
      if Linking(raw, u) {
        assert CountsBackAt(raw, u, 5);
        OnlyLinking(raw, t, u, 5);
      }
    }
  }

  lemma OnlyLinking(raw: seq<Op>, t: seq<Op>, u: seq<Op>, i: nat)
    requires Linked(t) && Linked(u) && SameTexts(raw, t) && SameTexts(raw, u) && i < |t| && !Costed(t[i].kind)
    ensures u[i] == t[i]
  {
    forall j: nat {:trigger SameText(t, u, j)}
      ensures SameText(t, u, j)
    {
      assert SameText(raw, t, j) && SameText(raw, u, j);
    }
    LinksUnique(t, u, i);
  }
}
