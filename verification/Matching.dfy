/** Ordinary bracket matching on expanded code, and how it relates to the static links. */
module Matching {
  import opened Nest
  import opened Ops
  import opened Links
  import opened Loops
  import opened Expansion
  import opened BracketCopies
  import opened RepMachine

  /** The position of the `]` that ends the `d`-th enclosing loop, scanning right from `i`. */
  function CloseOf(code: seq<Kind>, i: nat, d: nat): (j: nat)
    requires i <= |code|
    ensures j <= |code|
    decreases |code| - i
  {
    if i == |code| then i
    else if code[i] == Loop1 then CloseOf(code, i + 1, d + 1)
    else if code[i] == Loop2 then if d <= 1 then i else CloseOf(code, i + 1, d - 1)
    else CloseOf(code, i + 1, d)
  }

  /** The position of the `[` that begins the `d`-th enclosing loop, scanning left from `i`; -1 if there is none. */
  function OpenOf(code: seq<Kind>, i: nat, d: nat): (j: int)
    requires i <= |code|
    ensures -1 <= j < i
  {
    if i == 0 then -1
    else if code[i - 1] == Loop2 then OpenOf(code, i - 1, d + 1)
    else if code[i - 1] == Loop1 then if d <= 1 then i - 1 else OpenOf(code, i - 1, d - 1)
    else OpenOf(code, i - 1, d)
  }

  /** Copies of a `[` and of its `]`, made in the same turns. */
  predicate Partners(s: seq<Op>, x: Copy, y: Copy)
  {
    && x.ip < |s| && y.ip < |s| && s[x.ip].kind == Loop1 && s[y.ip].kind == Loop2
    && s[x.ip].mate == y.ip && s[y.ip].mate == x.ip && x.turns == y.turns
  }

  /** Reads copies left to right with a stack of the `[` still open, top last; a `]` must be the
      partner of the top. */
  function Reduce(s: seq<Op>, cs: seq<Copy>, st: seq<Copy>): Option<seq<Copy>>
    decreases |cs|
  {
    if cs == [] then Some(st)
    else if KindOf(s, cs[0]) == Loop1 then Reduce(s, cs[1..], st + [cs[0]])
    else if KindOf(s, cs[0]) == Loop2 then
      if st != [] && Partners(s, st[|st| - 1], cs[0]) then Reduce(s, cs[1..], st[..|st| - 1]) else None
    else Reduce(s, cs[1..], st)
  }

  lemma {:induction false} ReduceAppend(s: seq<Op>, a: seq<Copy>, b: seq<Copy>, st: seq<Copy>)
    ensures Reduce(s, a + b, st) == match Reduce(s, a, st) { case None => None case Some(st') => Reduce(s, b, st') }
    decreases |a|
  {
    if a == [] {
      assert a + b == b;
    } else {
      assert (a + b)[1..] == a[1..] + b;
      if KindOf(s, a[0]) == Loop1 {
        ReduceAppend(s, a[1..], b, st + [a[0]]);
      } else if KindOf(s, a[0]) == Loop2 {
        if st != [] { ReduceAppend(s, a[1..], b, st[..|st| - 1]); }
      } else {
        ReduceAppend(s, a[1..], b, st);
      }
    }
  }

  /** Brackets balance, and each pair consists of partners. */
  ghost predicate Balanced(s: seq<Op>, cs: seq<Copy>)
  {
    forall st :: Reduce(s, cs, st) == Some(st)
  }

  lemma BalancedAppend(s: seq<Op>, a: seq<Copy>, b: seq<Copy>)
    requires Balanced(s, a) && Balanced(s, b)
    ensures Balanced(s, a + b)
  {
    forall st
      ensures Reduce(s, a + b, st) == Some(st)
    {
      ReduceAppend(s, a, b, st);
    }
  }

  lemma BalancedLoop(s: seq<Op>, x: Copy, a: seq<Copy>, y: Copy)
    requires Balanced(s, a) && Partners(s, x, y)
    ensures Balanced(s, [x] + a + [y])
  {
    forall st
      ensures Reduce(s, [x] + a + [y], st) == Some(st)
    {
      ReduceAppend(s, [x] + a, [y], st);
      assert ([x] + a)[1..] == a;
      assert (st + [x])[..|st|] == st;
    }
  }

  lemma {:induction false} PlugBalanced(s: seq<Op>, lo: nat, hi: nat, turns: seq<Turn>, fill: seq<Copy>)
    requires Linked(s) && Bracketing(s, Brackets(s)) && lo <= hi <= |s| && Closed(Brackets(s), lo, hi)
    requires Balanced(s, fill)
    ensures Balanced(s, Plug(s, lo, hi, turns, fill))
    decreases hi - lo, 1
  {
    if lo < hi {
      ItemSplit(s, lo, hi);
      ItemBalanced(s, lo, turns, fill);
      PlugBalanced(s, ItemEnd(s, lo), hi, turns, fill);
      BalancedAppend(s, Item(s, lo, turns, fill), Plug(s, ItemEnd(s, lo), hi, turns, fill));
    }
  }

  lemma {:induction false} ItemBalanced(s: seq<Op>, lo: nat, turns: seq<Turn>, fill: seq<Copy>)
    requires Linked(s) && Bracketing(s, Brackets(s)) && lo < |s| && lo < ItemEnd(s, lo)
    requires Balanced(s, fill)
    ensures Balanced(s, Item(s, lo, turns, fill))
    decreases ItemEnd(s, lo) - lo, 0
  {
    BlockInside(s, lo);
    assert LinkedAt(s, lo) && BracketAt(s, Brackets(s), lo);
    assert s[lo].kind != Loop2;
    match s[lo].kind
    case Loop1 =>
      var m: nat := s[lo].mate;
      assert Joined(Brackets(s), |s|, lo);
      PlugBalanced(s, lo + 1, m, turns, fill);
      BalancedLoop(s, Copy(lo, turns), Plug(s, lo + 1, m, turns, fill), Copy(m, turns));
    case Rep1 =>
      TurnsBalanced(s, lo, s[lo].count, turns, fill);
    case IRep1 =>
      BraceInside(s, lo);
      PlugBalanced(s, s[lo].mate + 1, s[s[lo].mate].inner, turns, fill);
      WrapBalanced(s, lo, s[lo].count, turns, Plug(s, s[lo].mate + 1, s[s[lo].mate].inner, turns, fill));
    case _ =>
  }

  lemma {:induction false} TurnsBalanced(s: seq<Op>, o: nat, k: int, turns: seq<Turn>, fill: seq<Copy>)
    requires Linked(s) && Bracketing(s, Brackets(s)) && o < |s| && s[o].kind == Rep1
    requires Balanced(s, fill)
    ensures Balanced(s, PlugTurns(s, o, k, turns, fill))
    decreases s[o].mate - o, if k < 0 then 0 else k
  {
    assert LinkedAt(s, o);
    BlockInside(s, o);
    if k > 0 {
      PlugBalanced(s, o + 1, s[o].mate, [Turn(o, k)] + turns, fill);
      TurnsBalanced(s, o, k - 1, turns, fill);
      BalancedAppend(s, Plug(s, o + 1, s[o].mate, [Turn(o, k)] + turns, fill), PlugTurns(s, o, k - 1, turns, fill));
    }
  }

  lemma {:induction false} WrapBalanced(s: seq<Op>, o: nat, k: int, turns: seq<Turn>, core: seq<Copy>)
    requires Linked(s) && Bracketing(s, Brackets(s)) && o < |s| && s[o].kind == IRep1
    requires Balanced(s, core)
    ensures Balanced(s, Wrap(s, o, k, turns, core))
    decreases s[o].inner - o, if k < 0 then 0 else k
  {
    BraceInside(s, o);
    BlockInside(s, o);
    if k > 0 {
      WrapBalanced(s, o, k - 1, turns, core);
      PlugBalanced(s, o + 1, s[o].inner, [Turn(o, k)] + turns, Wrap(s, o, k - 1, turns, core));
    }
  }

  // From the stack of open brackets to matching by scanning.

  lemma {:induction false} FindClose(s: seq<Op>, cs: seq<Copy>, i: nat, st: seq<Copy>, x: Copy, over: seq<Copy>)
    requires i <= |cs| && Reduce(s, cs[i..], st + [x] + over).Some?
    requires |Reduce(s, cs[i..], st + [x] + over).value| <= |st|
    ensures var j := CloseOf(Kinds(s, cs), i, |over| + 1); j < |cs| && Partners(s, x, cs[j])
    decreases |cs| - i
  {
    var all := st + [x] + over;
    if i < |cs| {
      assert cs[i..][1..] == cs[i + 1..];
      if KindOf(s, cs[i]) == Loop1 {
        assert all + [cs[i]] == st + [x] + (over + [cs[i]]);
        FindClose(s, cs, i + 1, st, x, over + [cs[i]]);
      } else if KindOf(s, cs[i]) == Loop2 {
        if over != [] {
          assert all[..|all| - 1] == st + [x] + over[..|over| - 1];
          FindClose(s, cs, i + 1, st, x, over[..|over| - 1]);
        }
      } else {
        FindClose(s, cs, i + 1, st, x, over);
      }
    }
  }

  lemma {:induction false} FindOpen(s: seq<Op>, cs: seq<Copy>, i: nat, d: nat)
    requires i <= |cs| && Reduce(s, cs[..i], []).Some? && 1 <= d <= |Reduce(s, cs[..i], []).value|
    ensures var j, st := OpenOf(Kinds(s, cs), i, d), Reduce(s, cs[..i], []).value; 0 <= j && cs[j] == st[|st| - d]
    decreases i
  {
    if i > 0 {
      assert cs[..i] == cs[..i - 1] + [cs[i - 1]];
      ReduceAppend(s, cs[..i - 1], [cs[i - 1]], []);
      if KindOf(s, cs[i - 1]) == Loop1 {
        if d > 1 { FindOpen(s, cs, i - 1, d - 1); }
      } else if KindOf(s, cs[i - 1]) == Loop2 {
        FindOpen(s, cs, i - 1, d + 1);
      } else {
        FindOpen(s, cs, i - 1, d);
      }
    }
  }

  /** In balanced copies, scanning finds the partner. */
  lemma MatchingPartner(s: seq<Op>, cs: seq<Copy>, i: nat)
    requires Balanced(s, cs) && i < |cs|
    ensures KindOf(s, cs[i]) == Loop1 ==>
              var j := CloseOf(Kinds(s, cs), i + 1, 1); j < |cs| && Partners(s, cs[i], cs[j])
    ensures KindOf(s, cs[i]) == Loop2 ==>
              var j := OpenOf(Kinds(s, cs), i, 1); 0 <= j && Partners(s, cs[j], cs[i])
  {
    assert Reduce(s, cs, []) == Some([]);
    assert cs == cs[..i] + cs[i..];
    ReduceAppend(s, cs[..i], cs[i..], []);
    var st := Reduce(s, cs[..i], []).value;
    assert cs[i..][1..] == cs[i + 1..];
    if KindOf(s, cs[i]) == Loop1 {
      assert st + [cs[i]] == st + [cs[i]] + [];
      FindClose(s, cs, i + 1, st, cs[i], []);
    } else if KindOf(s, cs[i]) == Loop2 {
      FindOpen(s, cs, i, 1);
    }
  }

  /** The copies that make up a whole program are balanced. */
  lemma ProgramBalanced(s: seq<Op>)
    requires Linked(s) && Bracketing(s, Brackets(s)) && EndsDone(s)
    ensures Closed(Halves(s), 0, |s| - 1) && Balanced(s, Copies(s, 0, |s| - 1, []))
  {
    WholeClosed(s);
    WholeNested(s);
    CopiesBalanced(s, |s| - 1);
  }

  lemma WholeNested(s: seq<Op>)
    requires Linked(s) && Bracketing(s, Brackets(s)) && EndsDone(s)
    ensures Closed(Brackets(s), 0, |s| - 1)
  {
    var n: nat := |s| - 1;
    forall i: nat {:trigger Inside(Brackets(s), 0, n, i)} | i < n
      ensures Inside(Brackets(s), 0, n, i)
    {
      assert Joined(Brackets(s), |s|, i) && BracketAt(s, Brackets(s), i) && LinkedAt(s, i);
    }
  }

  lemma CopiesBalanced(s: seq<Op>, n: nat)
    requires Linked(s) && Bracketing(s, Brackets(s)) && n <= |s| && Closed(Halves(s), 0, n) && Closed(Brackets(s), 0, n)
    ensures Balanced(s, Copies(s, 0, n, []))
  {
    assert Balanced(s, []);
    PlugBalanced(s, 0, n, [], []);
    PlugWhole(s, 0, n, [], []);
  }
}
