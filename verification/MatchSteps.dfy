/** The linking scan with the parser's own stacks: what each token does to them. */
module MatchSteps {
  import opened Nest
  import opened Ops
  import opened Links
  import opened MatchState
  import opened Levels

  /** Each open brace is bound to the paren found by counting back from the innermost one. */
  ghost predicate Bound(raw: seq<Op>, s: seq<Op>, at: nat, c: Open)
    requires at <= |raw| == |s|
  {
    match c
    case Nothing => true
    case Frame(x, outer) =>
      x < at && raw[x].kind != Inner1 && Bound(raw, s, at, outer)
    case Counted(x, outer) =>
      && x < at && raw[x].kind == Inner1 && Bound(raw, s, at, outer)
      && Level(outer) < |Frames(outer)| && s[x].mate == Frames(outer)[|Frames(outer)| - 1 - Level(outer)]
  }

  lemma {:induction false} OpenToken(raw: seq<Op>, s: seq<Op>, at: nat, c: Open, x: nat)
    requires at <= |raw| == |s| && Bound(raw, s, at, c)
    ensures x in Positions(c) ==> x < at
    ensures x in Frames(c) <==> x in Positions(c) && raw[x].kind != Inner1
  {
    if c != Nothing {
      OpenToken(raw, s, at, c.outer, x);
    }
  }

  lemma {:induction false} FramesSorted(raw: seq<Op>, s: seq<Op>, at: nat, c: Open)
    requires at <= |raw| == |s| && Bound(raw, s, at, c) && Increasing(Positions(c))
    ensures Increasing(Frames(c))
  {
    if c != Nothing {
      LastIsLargest(Positions(c.outer), c.at);
      FramesSorted(raw, s, at, c.outer);
      if c.Frame? {
        forall x | x in Frames(c.outer)
          ensures x < c.at
        {
          OpenToken(raw, s, at, c.outer, x);
        }
        AppendLargest(Frames(c.outer), c.at);
      }
    }
  }

  lemma {:induction false} BoundFrame(raw: seq<Op>, s: seq<Op>, s': seq<Op>, at: nat, at': nat, c: Open)
    requires at <= at' <= |raw| == |s| == |s'| && Bound(raw, s, at, c)
    requires forall x :: x in Positions(c) && x < |s| && raw[x].kind == Inner1 ==> s'[x].mate == s[x].mate
    ensures Bound(raw, s', at', c)
  {
    if c != Nothing {
      assert c.at in Positions(c);
      BoundFrame(raw, s, s', at, at', c.outer);
    }
  }

  /** The braces opened since the innermost paren are bound to the innermost parens. */
  lemma {:induction false} LevelBinds(raw: seq<Op>, s: seq<Op>, at: nat, c: Open, k: nat) returns (b: nat)
    requires at <= |raw| == |s| && Bound(raw, s, at, c) && 1 <= k <= Level(c)
    ensures Level(c) <= |Frames(c)|
    ensures b in Positions(c) && b < at && raw[b].kind == Inner1 && s[b].mate == Frames(c)[|Frames(c)| - k]
  {
    if k == Level(c) {
      b := c.at;
    } else {
      b := LevelBinds(raw, s, at, c.outer, k);
    }
  }

  lemma CountFromTop(par: seq<nat>, e: nat, y: nat) returns (k: nat)
    requires Increasing(par) && y in par && (e < |par| ==> y > par[|par| - 1 - e])
    ensures 1 <= k <= e && k <= |par| && par[|par| - k] == y
  {
    var j :| 0 <= j < |par| && par[j] == y;
    k := |par| - j;
    assert e < |par| ==> Ordered(par, j, |par| - 1 - e);
  }

  /** Every paren further in than the one found by counting back has an open brace. */
  lemma HiddenAbove(raw: seq<Op>, s: seq<Op>, at: nat, c: Open, y: nat)
    requires at <= |raw| == |s| && Increasing(Positions(c))
    requires AllSeen(raw, s, at, Positions(c)) && Bound(raw, s, at, c)
    requires y in Positions(c) && y < at && raw[y].kind != Inner1
    requires var par, e := Frames(c), Level(c); e < |par| ==> y > par[|par| - 1 - e]
    ensures Hidden(s, y)
  {
    FramesSorted(raw, s, at, c);
    OpenToken(raw, s, at, c, y);
    var k := CountFromTop(Frames(c), Level(c), y);
    var b := LevelBinds(raw, s, at, c, k);
    assert Seen(raw, s, at, Positions(c), b);
  }

  /** The parser's stacks are functions of the open tokens, and no deeper than allowed. */
  ghost predicate Stacks(raw: seq<Op>, s: seq<Op>, at: nat, c: Open, du: seq<nat>,
                         stack: seq<nat>, idstack: seq<nat>, istack: seq<nat>, idepth: nat)
  {
    && at <= |raw| == |s|
    && Bound(raw, s, at, c)
    && stack == Frames(c) && idstack == Saved(c) && istack == CountedTokens(c) && idepth == Level(c)
    && |du| + |istack| == |stack| <= MAXNEST
    && Depth(raw, at) == |du|
    && forall j: nat {:trigger Depth(raw, j)} :: j <= at ==> Depth(raw, j) <= MAXNEST
  }

  lemma StepPlain(raw: seq<Op>, s: seq<Op>, at: nat, c: Open, du: seq<nat>,
                  stack: seq<nat>, idstack: seq<nat>, istack: seq<nat>, idepth: nat)
    requires State(raw, s, at, Positions(c), du) && Stacks(raw, s, at, c, du, stack, idstack, istack, idepth)
    requires at < |s| && Costed(s[at].kind)
    ensures State(raw, s, at + 1, Positions(c), du)
    ensures Stacks(raw, s, at + 1, c, du, stack, idstack, istack, idepth)
  {
    assert Unread(raw, s, at);
    ReadPlain(raw, s, at, Positions(c), du);
    BoundFrame(raw, s, s, at, at + 1, c);
  }

  lemma StepOpen(raw: seq<Op>, s: seq<Op>, at: nat, c: Open, du: seq<nat>,
                 stack: seq<nat>, idstack: seq<nat>, istack: seq<nat>, idepth: nat)
    requires State(raw, s, at, Positions(c), du) && Stacks(raw, s, at, c, du, stack, idstack, istack, idepth)
    requires at < |s| && s[at].kind == Rep1 && |stack| < MAXNEST
    ensures State(raw, s, at + 1, Positions(Frame(at, c)), du + [at])
    ensures Stacks(raw, s, at + 1, Frame(at, c), du + [at], stack + [at], idstack + [idepth], istack, 0)
  {
    assert Unread(raw, s, at);
    ReadOpen(raw, s, at, Positions(c), du);
    BoundFrame(raw, s, s, at, at + 1, c);
  }

  /** The paren that `{` is bound to is the one whose half is being read. */
  lemma BraceParen(raw: seq<Op>, s: seq<Op>, at: nat, c: Open, du: seq<nat>, q: nat)
    requires State(raw, s, at, Positions(c), du) && Bound(raw, s, at, c)
    requires at < |s| && Level(c) < |Frames(c)| && q == Frames(c)[|Frames(c)| - 1 - Level(c)]
    requires q < |s| && s[q].mate == -1
    ensures q < at && q in Positions(c) && raw[q].kind == Rep1 && |du| > 0 && du[|du| - 1] == q
  {
    OpenToken(raw, s, at, c, q);
    assert Seen(raw, s, at, Positions(c), q);
    forall y | y in Positions(c) && y < at && raw[y].kind != Inner1 && y > q
      ensures Hidden(s, y)
    {
      HiddenAbove(raw, s, at, c, y);
    }
    InnermostHalf(raw, s, at, Positions(c), du, q);
  }

  lemma StepBraceOpen(raw: seq<Op>, s: seq<Op>, at: nat, c: Open, du: seq<nat>,
                      stack: seq<nat>, idstack: seq<nat>, istack: seq<nat>, idepth: nat, q: nat)
    requires State(raw, s, at, Positions(c), du) && Stacks(raw, s, at, c, du, stack, idstack, istack, idepth)
    requires at < |s| && s[at].kind == Inner1 && idepth < |stack|
    requires q == stack[|stack| - 1 - idepth] < at && s[q].mate == -1
    ensures |du| > 0
    ensures State(raw, BraceOpened(s, at, q), at + 1, Positions(Counted(at, c)), du[..|du| - 1])
    ensures Stacks(raw, BraceOpened(s, at, q), at + 1, Counted(at, c), du[..|du| - 1],
                   stack, idstack, istack + [at], idepth + 1)
  {
    BraceParen(raw, s, at, c, du, q);
    NewToken(Blocks(s), Positions(c), at);
    assert Unread(raw, s, at) && Seen(raw, s, at, Positions(c), q);
    assert du == du[..|du| - 1] + [q];
    ReadBraceOpen(raw, s, at, Positions(c), du[..|du| - 1], q);
    StacksBraceOpen(raw, s, at, c, du, stack, idstack, istack, idepth, q);
  }

  lemma StacksBraceOpen(raw: seq<Op>, s: seq<Op>, at: nat, c: Open, du: seq<nat>,
                        stack: seq<nat>, idstack: seq<nat>, istack: seq<nat>, idepth: nat, q: nat)
    requires Stacks(raw, s, at, c, du, stack, idstack, istack, idepth) && at !in Positions(c)
    requires at < |s| && raw[at].kind == Inner1 && idepth < |stack| && |du| > 0
    requires q == stack[|stack| - 1 - idepth] < at && raw[q].kind == Rep1
    ensures Stacks(raw, BraceOpened(s, at, q), at + 1, Counted(at, c), du[..|du| - 1],
                   stack, idstack, istack + [at], idepth + 1)
  {
    BoundFrame(raw, s, BraceOpened(s, at, q), at, at + 1, c);
  }

  lemma StepBraceClose(raw: seq<Op>, s: seq<Op>, at: nat, c: Open, du: seq<nat>,
                       stack: seq<nat>, idstack: seq<nat>, istack: seq<nat>, idepth: nat)
    requires State(raw, s, at, Positions(c), du) && Stacks(raw, s, at, c, du, stack, idstack, istack, idepth)
    requires at < |s| && s[at].kind == Inner2 && idepth > 0
    ensures c.Counted? && |istack| > 0 && istack[|istack| - 1] == c.at < at
    ensures State(raw, BraceClosed(s, at, c.at), at + 1, Positions(c.outer), du + [at])
    ensures Stacks(raw, BraceClosed(s, at, c.at), at + 1, c.outer, du + [at],
                   stack, idstack, istack[..|istack| - 1], idepth - 1)
  {
    assert Unread(raw, s, at);
    StacksBraceClose(raw, s, at, c, du, stack, idstack, istack, idepth);
    ReadBraceClose(raw, s, at, Positions(c.outer), du, c.at);
  }

  lemma StacksBraceClose(raw: seq<Op>, s: seq<Op>, at: nat, c: Open, du: seq<nat>,
                         stack: seq<nat>, idstack: seq<nat>, istack: seq<nat>, idepth: nat)
    requires Increasing(Positions(c)) && Stacks(raw, s, at, c, du, stack, idstack, istack, idepth)
    requires at < |s| && raw[at].kind == Inner2 && idepth > 0
    ensures c.Counted? && |istack| > 0 && istack[|istack| - 1] == c.at < at
    ensures Stacks(raw, BraceClosed(s, at, c.at), at + 1, c.outer, du + [at],
                   stack, idstack, istack[..|istack| - 1], idepth - 1)
  {
    CountedOuter(c);
    LastIsLargest(Positions(c.outer), c.at);
    BoundFrame(raw, s, BraceClosed(s, at, c.at), at, at + 1, c.outer);
    assert Depth(raw, at + 1) == Depth(raw, at) + 1;
  }

  /** The innermost open token, when it is a paren, has no open brace. */
  lemma VisibleParen(raw: seq<Op>, s: seq<Op>, at: nat, cs: seq<nat>, p: nat)
    requires at < |s| == |raw| && AllSeen(raw, s, at, cs)
    requires p in cs && p < at && raw[p].kind != Inner1 && forall x :: x in cs ==> x <= p
    ensures (s[p].kind.Rep1? || s[p].kind.IRep1?) && !Hidden(s, p)
    ensures s[p].kind == IRep1 ==>
              0 <= s[p].mate < |s| && BracedParen(s, at, p, s[p].mate, s[s[p].mate].inner)
  {
    assert Seen(raw, s, at, cs, p);
    assert s[p].kind == IRep1 ==> Seen(raw, s, at, cs, s[p].mate);
  }

  /** When no brace is open since the innermost paren, the half being read is that paren's. */
  lemma ClosingParen(raw: seq<Op>, s: seq<Op>, at: nat, c: Open, du: seq<nat>)
    requires State(raw, s, at, Positions(c), du) && Bound(raw, s, at, c)
    requires at < |s| && c.Frame?
    ensures var p := c.at;
            && p < at && (s[p].kind.Rep1? || s[p].kind.IRep1?)
            && |du| > 0 && du[|du| - 1] == Opener(s, p)
            && (s[p].kind == IRep1 ==> 0 <= s[p].mate < |s| && BracedParen(s, at, p, s[p].mate, s[s[p].mate].inner))
  {
    LastIsLargest(Positions(c.outer), c.at);
    assert forall x :: x in Positions(c) ==> x in Positions(c.outer) || x == c.at;
    VisibleParen(raw, s, at, Positions(c), c.at);
    InnermostHalf(raw, s, at, Positions(c), du, c.at);
  }

  /** What `)` at position `at` does to the list. */
  function ParenEnded(s: seq<Op>, at: nat, p: nat): seq<Op>
    requires p < at < |s|
    requires s[p].kind == IRep1 ==> 0 <= s[p].mate < |s| && BracedParen(s, at, p, s[p].mate, s[s[p].mate].inner)
  {
    if s[p].kind == IRep1 then BracedParenClosed(s, at, p, s[p].mate, s[s[p].mate].inner)
    else ParenClosed(s, at, p)
  }

  lemma ReadParenEnd(raw: seq<Op>, s: seq<Op>, at: nat, c: Open, du: seq<nat>)
    requires State(raw, s, at, Positions(c), du) && Bound(raw, s, at, c)
    requires at < |s| && s[at].kind == Rep2 && c.Frame?
    ensures |du| > 0 && c.at < at
    ensures s[c.at].kind == IRep1 ==>
              0 <= s[c.at].mate < |s| && BracedParen(s, at, c.at, s[c.at].mate, s[s[c.at].mate].inner)
    ensures State(raw, ParenEnded(s, at, c.at), at + 1, Positions(c.outer), du[..|du| - 1])
    ensures forall x :: x in Positions(c) && x < |s| && raw[x].kind == Inner1 ==> ParenEnded(s, at, c.at)[x].mate == s[x].mate
  {
    NewToken(Blocks(s), Positions(c), at);
    assert Unread(raw, s, at);
    ClosingParen(raw, s, at, c, du);
    var p, du' := c.at, du[..|du| - 1];
    assert du == du' + [Opener(s, p)];
    if s[p].kind == IRep1 {
      ReadBracedClose(raw, s, at, Positions(c.outer), du', p, s[p].mate, s[s[p].mate].inner);
      assert Seen(raw, s, at, Positions(c), p) && Seen(raw, s, at, Positions(c), s[p].mate)
          && Seen(raw, s, at, Positions(c), s[s[p].mate].inner);
    } else {
      ReadClose(raw, s, at, Positions(c.outer), du', p);
      assert Seen(raw, s, at, Positions(c), p);
    }
  }

  lemma StepParenEnd(raw: seq<Op>, s: seq<Op>, at: nat, c: Open, du: seq<nat>,
                     stack: seq<nat>, idstack: seq<nat>, istack: seq<nat>)
    requires State(raw, s, at, Positions(c), du) && Stacks(raw, s, at, c, du, stack, idstack, istack, 0)
    requires at < |s| && s[at].kind == Rep2 && |stack| > 0
    ensures |du| > 0 && c.Frame? && |idstack| == |stack| && stack[|stack| - 1] == c.at < at
    ensures s[c.at].kind == IRep1 ==>
              0 <= s[c.at].mate < |s| && BracedParen(s, at, c.at, s[c.at].mate, s[s[c.at].mate].inner)
    ensures State(raw, ParenEnded(s, at, c.at), at + 1, Positions(c.outer), du[..|du| - 1])
    ensures Stacks(raw, ParenEnded(s, at, c.at), at + 1, c.outer, du[..|du| - 1],
                   stack[..|stack| - 1], idstack[..|stack| - 1], istack, idstack[|stack| - 1])
  {
    assert Unread(raw, s, at);
    ReadParenEnd(raw, s, at, c, du);
    StacksParenEnd(raw, s, ParenEnded(s, at, c.at), at, c, du, stack, idstack, istack);
  }

  lemma StacksParenEnd(raw: seq<Op>, s: seq<Op>, s': seq<Op>, at: nat, c: Open, du: seq<nat>,
                       stack: seq<nat>, idstack: seq<nat>, istack: seq<nat>)
    requires Stacks(raw, s, at, c, du, stack, idstack, istack, 0) && c.Frame?
    requires at < |s| == |s'| && raw[at].kind == Rep2 && |du| > 0
    requires forall x :: x in Positions(c) && x < |s| && raw[x].kind == Inner1 ==> s'[x].mate == s[x].mate
    ensures Stacks(raw, s', at + 1, c.outer, du[..|du| - 1],
                   stack[..|stack| - 1], idstack[..|stack| - 1], istack, idstack[|stack| - 1])
  {
    BoundFrame(raw, s, s', at, at + 1, c.outer);
  }

  /** Marking parens does not change the depth. */
  lemma {:induction false} DepthSame(raw: seq<Op>, s: seq<Op>, i: nat)
    requires i <= |raw| == |s| && forall k :: 0 <= k < |s| ==> SameToken(raw[k], s[k])
    ensures Depth(s, i) == Depth(raw, i)
  {
    if i > 0 {
      DepthSame(raw, s, i - 1);
      assert SameToken(raw[i - 1], s[i - 1]);
    }
  }

  /** When every token has been read and no paren is open, the list is fully linked. */
  lemma MatchDone(raw: seq<Op>, s: seq<Op>, c: Open, du: seq<nat>,
                  stack: seq<nat>, idstack: seq<nat>, istack: seq<nat>, idepth: nat)
    requires State(raw, s, |s|, Positions(c), du) && Stacks(raw, s, |s|, c, du, stack, idstack, istack, idepth)
    requires stack == []
    ensures Linked(s) && Shallow(s) && Depth(s, |s|) == 0
    ensures forall i :: 0 <= i < |s| ==> SameToken(raw[i], s[i])
  {
    NothingOpen(c);
    forall i: nat {:trigger LinkedAt(s, i)} | i < |s|
      ensures LinkedAt(s, i)
    {
      assert Seen(raw, s, |s|, [], i);
    }
    forall i | 0 <= i < |s|
      ensures SameToken(raw[i], s[i])
    {
      assert Seen(raw, s, |s|, [], i);
    }
    forall j: nat {:trigger Depth(s, j)} | j <= |s|
      ensures Depth(s, j) == Depth(raw, j)
    {
      DepthSame(raw, s, j);
    }
  }
}
