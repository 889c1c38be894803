/** Brackets in the expansion: a copy of `[` is matched by the copy of its `]` that is made in the
    same turns, even when the two stand in different halves of a paren. */
module BracketCopies {
  import opened Nest
  import opened Ops
  import opened Links
  import opened Loops
  import opened Expansion

  // How written blocks and counted halves overlap.

  /** A segment that no written block leaves is left by halves only through braces whose paren lies
      outside. */
  lemma NoHoleClosed(s: seq<Op>, lo: nat, hi: nat)
    requires Linked(s) && Bracketing(s, Brackets(s)) && lo <= hi <= |s| && Closed(Brackets(s), lo, hi)
    requires forall j :: lo <= j < hi && s[j].kind == Inner1 ==> s[j].mate >= lo
    ensures Closed(Halves(s), lo, hi)
  {
    forall i: nat {:trigger Inside(Halves(s), lo, hi, i)} | lo <= i < hi
      ensures Inside(Halves(s), lo, hi, i)
    {
      assert LinkedAt(s, i) && Inside(Brackets(s), lo, hi, i);
      match s[i].kind
      case IRep1 =>
        assert LinkedAt(s, s[i].mate) && LinkedAt(s, s[i].inner);
      case Inner2 =>
        assert LinkedAt(s, s[i].inner);
        var p := s[s[i].inner].mate;
        assert LinkedAt(s, p) && Inside(Brackets(s), lo, hi, p);
        assert LinkedAt(s, s[p].inner);
      case IRep2 =>
        assert LinkedAt(s, s[i].inner);
      case _ =>
    }
  }

  /** Where the first item of a segment ends: the item is a plain instruction, a loop or a block. */
  function ItemEnd(s: seq<Op>, lo: nat): int
    requires lo < |s|
  {
    if Brackets(s)[lo] == -1 then lo + 1 else Brackets(s)[lo] + 1
  }

  lemma ItemSplit(s: seq<Op>, lo: nat, hi: nat)
    requires Bracketing(s, Brackets(s)) && lo < hi <= |s| && Closed(Brackets(s), lo, hi)
    ensures lo < ItemEnd(s, lo) <= hi && Closed(Brackets(s), lo, ItemEnd(s, lo)) && Closed(Brackets(s), ItemEnd(s, lo), hi)
    ensures Brackets(s)[lo] != -1 ==> lo < Brackets(s)[lo] && Closed(Brackets(s), lo + 1, Brackets(s)[lo])
  {
    var ps := Brackets(s);
    ClosedTail(ps, lo, hi);
    ClosedLeft(ps, lo, ItemEnd(s, lo), hi);
  }

  /** The segment is complete up to `h`, where the brace of a paren further out stands, or the
      segment has no such brace and `h` is its end. */
  ghost predicate Shape(s: seq<Op>, lo: nat, hi: nat, h: nat)
  {
    && lo <= h <= hi <= |s| && Closed(Halves(s), lo, h)
    && (h < hi ==>
          && s[h].kind == Inner1 && s[h].mate < lo && h < s[h].inner < hi
          && Closed(Halves(s), s[h].inner + 1, hi))
  }

  /** The item before the brace is complete, and so is what lies between. */
  lemma ItemBeforeHole(s: seq<Op>, lo: nat, hi: nat, h: nat)
    requires Linked(s) && Bracketing(s, Brackets(s)) && lo < hi <= |s| && Closed(Brackets(s), lo, hi)
    requires Shape(s, lo, hi, h) && ItemEnd(s, lo) <= h
    ensures lo < ItemEnd(s, lo) && Closed(Halves(s), lo, ItemEnd(s, lo)) && Shape(s, ItemEnd(s, lo), hi, h)
  {
    ItemSplit(s, lo, hi);
    var e := ItemEnd(s, lo);
    forall j | lo <= j < e && s[j].kind == Inner1
      ensures s[j].mate >= lo
    {
      assert Inside(Halves(s), lo, h, j) && LinkedAt(s, j);
    }
    NoHoleClosed(s, lo, e);
    ClosedRight(Halves(s), lo, e, h);
  }

  /** What follows the item with the brace is complete. */
  lemma AfterHole(s: seq<Op>, lo: nat, hi: nat, h: nat)
    requires Linked(s) && Bracketing(s, Brackets(s)) && lo < hi <= |s| && Closed(Brackets(s), lo, hi)
    requires Shape(s, lo, hi, h) && h < ItemEnd(s, lo) && h < hi
    ensures s[h].inner < ItemEnd(s, lo) <= hi && Closed(Halves(s), ItemEnd(s, lo), hi)
    ensures Closed(Halves(s), s[h].inner + 1, ItemEnd(s, lo))
  {
    ItemSplit(s, lo, hi);
    var e := ItemEnd(s, lo);
    assert LinkedAt(s, h) && Inside(Brackets(s), lo, e, h);
    forall j | e <= j < hi && s[j].kind == Inner1
      ensures s[j].mate >= e
    {
      assert Inside(Halves(s), s[h].inner + 1, hi, j) && LinkedAt(s, j);
      var p := s[j].mate;
      assert LinkedAt(s, p);
      assert p < e ==> Inside(Brackets(s), lo, e, p);
    }
    NoHoleClosed(s, e, hi);
    ClosedLeft(Halves(s), s[h].inner + 1, e, hi);
  }

  // The expansion seen block by block: the copies of a paren wrap around the copies of its brace.

  /** The copies of a segment that no written block leaves. If the brace of a paren further out stands
      in it, `fill` takes the place of that brace. */
  ghost function Plug(s: seq<Op>, lo: nat, hi: nat, turns: seq<Turn>, fill: seq<Copy>): seq<Copy>
    requires Linked(s) && Bracketing(s, Brackets(s)) && lo <= hi <= |s| && Closed(Brackets(s), lo, hi)
    decreases hi - lo, 1
  {
    if lo == hi then []
    else
      ItemSplit(s, lo, hi);
      assert LinkedAt(s, lo);
      Item(s, lo, turns, fill) + Plug(s, ItemEnd(s, lo), hi, turns, fill)
  }

  /** The copies of the item that begins at `lo`. */
  ghost function Item(s: seq<Op>, lo: nat, turns: seq<Turn>, fill: seq<Copy>): seq<Copy>
    requires Linked(s) && Bracketing(s, Brackets(s)) && lo < |s| && lo < ItemEnd(s, lo)
    decreases ItemEnd(s, lo) - lo, 0
  {
    BlockInside(s, lo);
    assert LinkedAt(s, lo) && BracketAt(s, Brackets(s), lo);
    match s[lo].kind
    case Loop1 => [Copy(lo, turns)] + Plug(s, lo + 1, s[lo].mate, turns, fill) + [Copy(s[lo].mate, turns)]
    case Rep1 => PlugTurns(s, lo, s[lo].count, turns, fill)
    case IRep1 =>
      BraceInside(s, lo);
      Wrap(s, lo, s[lo].count, turns, Plug(s, s[lo].mate + 1, s[s[lo].mate].inner, turns, fill))
    case Inner1 => fill
    case _ => if Costed(s[lo].kind) then [Copy(lo, turns)] else []
  }

  lemma BlockInside(s: seq<Op>, lo: nat)
    requires Bracketing(s, Brackets(s)) && lo < |s| && lo < ItemEnd(s, lo)
    ensures Brackets(s)[lo] != -1 ==> lo < Brackets(s)[lo] < |s| && Closed(Brackets(s), lo + 1, Brackets(s)[lo])
  {
    assert Joined(Brackets(s), |s|, lo);
    if Brackets(s)[lo] != -1 {
      InsideClosed(Brackets(s), lo);
    }
  }

  lemma BraceInside(s: seq<Op>, lo: nat)
    requires Linked(s) && Bracketing(s, Brackets(s)) && lo < |s| && s[lo].kind == IRep1
    ensures lo < s[lo].mate < |s| && s[lo].mate < s[s[lo].mate].inner < s[lo].inner < |s|
    ensures s[s[lo].mate].kind == Inner1 && Closed(Brackets(s), s[lo].mate + 1, s[s[lo].mate].inner)
  {
    assert LinkedAt(s, lo) && LinkedAt(s, s[lo].mate) && LinkedAt(s, s[lo].inner);
    InsideClosed(Brackets(s), s[lo].mate);
  }

  ghost function PlugTurns(s: seq<Op>, o: nat, k: int, turns: seq<Turn>, fill: seq<Copy>): seq<Copy>
    requires Linked(s) && Bracketing(s, Brackets(s)) && o < |s| && s[o].kind == Rep1
    decreases s[o].mate - o, if k < 0 then 0 else k
  {
    assert LinkedAt(s, o);
    BlockInside(s, o);
    if k <= 0 then []
    else Plug(s, o + 1, s[o].mate, [Turn(o, k)] + turns, fill) + PlugTurns(s, o, k - 1, turns, fill)
  }

  /** `k` copies of the paren at `o`, without its brace, around `core`. */
  ghost function Wrap(s: seq<Op>, o: nat, k: int, turns: seq<Turn>, core: seq<Copy>): seq<Copy>
    requires Linked(s) && Bracketing(s, Brackets(s)) && o < |s| && s[o].kind == IRep1
    decreases s[o].inner - o, if k < 0 then 0 else k
  {
    BraceInside(s, o);
    BlockInside(s, o);
    if k <= 0 then core
    else Plug(s, o + 1, s[o].inner, [Turn(o, k)] + turns, Wrap(s, o, k - 1, turns, core))
  }

  // Both views give the same copies.

  /** A segment with `fill` in the place of the brace at `h`, if there is one. */
  ghost function Text(s: seq<Op>, lo: nat, hi: nat, h: nat, turns: seq<Turn>, fill: seq<Copy>): seq<Copy>
    requires Linked(s) && Shape(s, lo, hi, h)
  {
    Copies(s, lo, h, turns) + if h < hi then fill + Copies(s, s[h].inner + 1, hi, turns) else []
  }

  lemma {:induction false} PlugText(s: seq<Op>, lo: nat, hi: nat, h: nat, turns: seq<Turn>, fill: seq<Copy>)
    requires Linked(s) && Bracketing(s, Brackets(s)) && lo <= hi <= |s| && Closed(Brackets(s), lo, hi)
    requires Shape(s, lo, hi, h)
    ensures Plug(s, lo, hi, turns, fill) == Text(s, lo, hi, h, turns, fill)
    decreases hi - lo, 2
  {
    if lo < hi {
      ItemSplit(s, lo, hi);
      var e: nat := ItemEnd(s, lo);
      if e <= h {
        ItemBeforeHole(s, lo, hi, h);
        ItemWhole(s, lo, turns, fill);
        PlugText(s, e, hi, h, turns, fill);
        TextBefore(s, lo, e, hi, h, turns, fill);
      } else {
        AfterHole(s, lo, hi, h);
        ItemHole(s, lo, h, turns, fill);
        PlugText(s, e, hi, hi, turns, fill);
        TextAfter(s, lo, e, hi, h, turns, fill);
      }
    }
  }

  lemma TextBefore(s: seq<Op>, lo: nat, e: nat, hi: nat, h: nat, turns: seq<Turn>, fill: seq<Copy>)
    requires Linked(s) && Shape(s, lo, hi, h) && lo <= e <= h && Closed(Halves(s), lo, e) && Shape(s, e, hi, h)
    ensures Copies(s, lo, e, turns) + Text(s, e, hi, h, turns, fill) == Text(s, lo, hi, h, turns, fill)
  {
    CopiesAppend(s, lo, e, h, turns);
    Associative(Copies(s, lo, e, turns), Copies(s, e, h, turns), if h < hi then fill + Copies(s, s[h].inner + 1, hi, turns) else []);
  }

  lemma TextAfter(s: seq<Op>, lo: nat, e: nat, hi: nat, h: nat, turns: seq<Turn>, fill: seq<Copy>)
    requires Linked(s) && Shape(s, lo, hi, h) && h < hi && s[h].inner < e <= hi
    requires Closed(Halves(s), s[h].inner + 1, e) && Closed(Halves(s), e, hi)
    ensures Copies(s, lo, h, turns) + (fill + Copies(s, s[h].inner + 1, e, turns)) + Text(s, e, hi, hi, turns, fill)
         == Text(s, lo, hi, h, turns, fill)
  {
    CopiesAppend(s, s[h].inner + 1, e, hi, turns);
    var a, b, c := Copies(s, lo, h, turns), Copies(s, s[h].inner + 1, e, turns), Copies(s, e, hi, turns);
    assert Text(s, e, hi, hi, turns, fill) == c;
    Associative(a, fill + b, c);
    Associative(fill, b, c);
  }

  /** Without a brace of a paren further out both views agree outright. */
  lemma {:induction false} PlugWhole(s: seq<Op>, lo: nat, hi: nat, turns: seq<Turn>, fill: seq<Copy>)
    requires Linked(s) && Bracketing(s, Brackets(s)) && lo <= hi <= |s| && Closed(Brackets(s), lo, hi)
    requires Closed(Halves(s), lo, hi)
    ensures Plug(s, lo, hi, turns, fill) == Copies(s, lo, hi, turns)
    decreases hi - lo, 3
  {
    PlugText(s, lo, hi, hi, turns, fill);
  }

  /** A costed instruction can be taken off the end of a closed segment. */
  lemma DropLast(s: seq<Op>, lo: nat, m: nat, turns: seq<Turn>)
    requires Linked(s) && lo <= m < |s| && Closed(Halves(s), lo, m + 1) && Costed(s[m].kind)
    ensures Closed(Halves(s), lo, m) && Copies(s, lo, m + 1, turns) == Copies(s, lo, m, turns) + [Copy(m, turns)]
  {
    assert Closed(Halves(s), m, m + 1);
    ClosedLeft(Halves(s), lo, m, m + 1);
    CopiesAppend(s, lo, m, m + 1, turns);
    CopiesHead(s, m, m + 1, turns);
  }

  /** A half can be taken off the end of a closed segment. */
  lemma DropHalf(s: seq<Op>, lo: nat, o: nat, turns: seq<Turn>)
    requires Linked(s) && o < |s| && Opens(s[o].kind) && lo <= o < s[o].mate < |s| && Closed(Halves(s), lo, s[o].mate + 1)
    ensures Closed(Halves(s), lo, o)
    ensures Copies(s, lo, s[o].mate + 1, turns) == Copies(s, lo, o, turns) + Half(s, o, turns)
  {
    var m: nat := s[o].mate;
    HalfClosed(s, o);
    ClosedLeft(Halves(s), lo, o, m + 1);
    CopiesAppend(s, lo, o, m + 1, turns);
    CopiesHead(s, o, m + 1, turns);
  }

  lemma HalfClosed(s: seq<Op>, o: nat)
    requires Linked(s) && o < |s| && Opens(s[o].kind)
    ensures o < s[o].mate < |s| && Closed(Halves(s), o, s[o].mate + 1)
  {
    HalfInside(s, o);
    forall i: nat {:trigger Inside(Halves(s), o, s[o].mate + 1, i)} | o <= i < s[o].mate + 1
      ensures Inside(Halves(s), o, s[o].mate + 1, i)
    {
      assert o < i < s[o].mate ==> Inside(Halves(s), o + 1, s[o].mate, i);
    }
  }

  /** The turns of a plain repeat. */
  lemma {:induction false} PlugTurnsText(s: seq<Op>, o: nat, k: int, turns: seq<Turn>, fill: seq<Copy>)
    requires Linked(s) && Bracketing(s, Brackets(s)) && o < |s| && s[o].kind == Rep1
    ensures PlugTurns(s, o, k, turns, fill) == Downward(s, o, k, turns)
    decreases s[o].mate - o, if k < 0 then 0 else k
  {
    assert LinkedAt(s, o);
    HalfInside(s, o);
    BlockInside(s, o);
    if k > 0 {
      PlugWhole(s, o + 1, s[o].mate, [Turn(o, k)] + turns, fill);
      PlugTurnsText(s, o, k - 1, turns, fill);
    }
  }

  /** Wrapping makes the copies of the first half, then the core, then those of the second half. */
  lemma {:induction false} WrapText(s: seq<Op>, o: nat, k: int, turns: seq<Turn>, core: seq<Copy>)
    requires Linked(s) && Bracketing(s, Brackets(s)) && o < |s| && s[o].kind == IRep1 && 0 <= k <= s[o].count
    ensures BraceOf(s, o)
    ensures var o2 := s[s[o].mate].inner;
            Wrap(s, o, k, turns, core) + Upward(s, o2, k + 1, turns)
            == Downward(s, o, k, turns) + core + Upward(s, o2, 1, turns)
    decreases s[o].inner - o, k
  {
    BraceFacts(s, o);
    BraceInside(s, o);
    BlockInside(s, o);
    if k > 0 {
      var i1: nat, i2: nat, r: nat := s[o].mate, s[s[o].mate].inner, s[o].inner;
      var turns' := [Turn(o, k)] + turns;
      var inside := Wrap(s, o, k - 1, turns, core);
      HalfInside(s, o);
      HalfInside(s, i2);
      PlugText(s, o + 1, r, i1, turns', inside);
      WrapText(s, o, k - 1, turns, core);
      var a, c := Copies(s, o + 1, i1, turns'), Copies(s, i2 + 1, r, turns');
      assert Wrap(s, o, k, turns, core) == a + (inside + c);
      assert Upward(s, i2, k, turns) == c + Upward(s, i2, k + 1, turns);
      assert Downward(s, o, k, turns) == a + Downward(s, o, k - 1, turns);
      Regroup(a, inside, c, Upward(s, i2, k + 1, turns));
      Regroup(a, Downward(s, o, k - 1, turns), core, Upward(s, i2, 1, turns));
    }
  }

  /** The brace of paren `o` and the half that follows it. */
  ghost predicate BraceOf(s: seq<Op>, o: nat)
    requires o < |s|
  {
    && o < s[o].mate < |s| && s[o].mate < s[s[o].mate].inner < s[o].inner < |s|
    && Opens(s[s[s[o].mate].inner].kind) && s[s[s[o].mate].inner].kind == Inner2
    && s[s[s[o].mate].inner].mate == s[o].inner && s[s[s[o].mate].inner].count == s[o].count
  }

  lemma BraceFacts(s: seq<Op>, o: nat)
    requires Linked(s) && o < |s| && s[o].kind == IRep1
    ensures BraceOf(s, o) && Paren(s, s[s[o].mate].inner) == o
  {
    assert LinkedAt(s, o) && LinkedAt(s, s[o].mate) && LinkedAt(s, s[o].inner);
    assert LinkedAt(s, s[s[o].mate].inner);
  }

  lemma Regroup<T>(a: seq<T>, b: seq<T>, c: seq<T>, d: seq<T>)
    ensures (a + (b + c)) + d == a + (b + (c + d))
    ensures (a + b) + c + d == a + (b + c + d)
  {
  }

  lemma Around<T>(a: seq<T>, b: seq<T>, c: seq<T>, d: seq<T>, e: seq<T>)
    ensures a + (b + (c + d)) + e == (a + b) + (c + (d + e))
  {
  }

  /** An item that no half leaves. */
  lemma {:induction false} ItemWhole(s: seq<Op>, lo: nat, turns: seq<Turn>, fill: seq<Copy>)
    requires Linked(s) && Bracketing(s, Brackets(s)) && lo < |s| && lo < ItemEnd(s, lo) <= |s|
    requires Closed(Halves(s), lo, ItemEnd(s, lo))
    ensures Item(s, lo, turns, fill) == Copies(s, lo, ItemEnd(s, lo), turns)
    decreases ItemEnd(s, lo) - lo, 1
  {
    CopiesHead(s, lo, ItemEnd(s, lo), turns);
    assert LinkedAt(s, lo) && BracketAt(s, Brackets(s), lo);
    if s[lo].kind == Loop1 {
      WholeLoop(s, lo, turns, fill);
    } else if s[lo].kind == Rep1 {
      PlugTurnsText(s, lo, s[lo].count, turns, fill);
    } else if s[lo].kind == IRep1 {
      WholeBraced(s, lo, turns, fill);
    }
  }

  lemma {:induction false} WholeLoop(s: seq<Op>, lo: nat, turns: seq<Turn>, fill: seq<Copy>)
    requires Linked(s) && Bracketing(s, Brackets(s)) && lo < |s| && s[lo].kind == Loop1 && lo < s[lo].mate < |s|
    requires Closed(Halves(s), lo, s[lo].mate + 1)
    ensures Item(s, lo, turns, fill) == Copies(s, lo, s[lo].mate + 1, turns)
    decreases s[lo].mate + 1 - lo, 0
  {
    var m: nat := s[lo].mate;
    assert BracketAt(s, Brackets(s), lo);
    BlockInside(s, lo);
    CopiesHead(s, lo, m + 1, turns);
    DropLast(s, lo + 1, m, turns);
    PlugWhole(s, lo + 1, m, turns, fill);
  }

  lemma {:induction false} WholeBraced(s: seq<Op>, lo: nat, turns: seq<Turn>, fill: seq<Copy>)
    requires Linked(s) && Bracketing(s, Brackets(s)) && lo < |s| && s[lo].kind == IRep1 && lo < s[lo].inner < |s|
    requires Closed(Halves(s), lo, s[lo].inner + 1)
    ensures Item(s, lo, turns, fill) == Copies(s, lo, s[lo].inner + 1, turns)
    decreases s[lo].inner + 1 - lo, 0
  {
    BraceFacts(s, lo);
    BraceInside(s, lo);
    var i1: nat, i2: nat, r: nat := s[lo].mate, s[s[lo].mate].inner, s[lo].inner;
    CopiesHead(s, lo, r + 1, turns);
    DropHalf(s, i1 + 1, i2, turns);
    PlugWhole(s, i1 + 1, i2, turns, fill);
    CountBound(s, lo);
    WrapText(s, lo, s[lo].count, turns, Copies(s, i1 + 1, i2, turns));
    assert Upward(s, i2, s[lo].count + 1, turns) == [];
    Associative(Half(s, lo, turns), Copies(s, i1 + 1, i2, turns), Half(s, i2, turns));
  }

  lemma CountBound(s: seq<Op>, o: nat)
    requires Linked(s) && o < |s| && s[o].kind == IRep1
    ensures s[o].count >= 0
  {
    assert LinkedAt(s, o) && LinkedAt(s, s[o].inner);
  }

  /** An item with the brace of a paren further out. */
  lemma {:induction false} ItemHole(s: seq<Op>, lo: nat, h: nat, turns: seq<Turn>, fill: seq<Copy>)
    requires Linked(s) && Bracketing(s, Brackets(s)) && lo <= h < |s| && lo < ItemEnd(s, lo) <= |s|
    requires s[h].kind == Inner1 && s[h].mate < lo && h < s[h].inner < ItemEnd(s, lo)
    requires Closed(Halves(s), lo, h) && Closed(Halves(s), s[h].inner + 1, ItemEnd(s, lo))
    ensures Item(s, lo, turns, fill) == Copies(s, lo, h, turns) + (fill + Copies(s, s[h].inner + 1, ItemEnd(s, lo), turns))
    decreases ItemEnd(s, lo) - lo, 1
  {
    if lo == h {
      assert LinkedAt(s, h);
      assert Copies(s, lo, h, turns) == [] && Copies(s, s[h].inner + 1, ItemEnd(s, lo), turns) == [];
    } else {
      HoleItem(s, lo, h);
      if s[lo].kind == Loop1 {
        HoleLoop(s, lo, h, turns, fill);
      } else {
        HoleBraced(s, lo, h, turns, fill);
      }
    }
  }

  /** The brace of a paren further out stands in a loop or in another braced paren. */
  lemma HoleItem(s: seq<Op>, lo: nat, h: nat)
    requires Linked(s) && Bracketing(s, Brackets(s)) && lo < h < |s| && lo < ItemEnd(s, lo) <= |s|
    requires s[h].kind == Inner1 && s[h].mate < lo && h < s[h].inner < ItemEnd(s, lo)
    requires Closed(Halves(s), lo, h)
    ensures s[lo].kind.Loop1? || s[lo].kind.IRep1?
    ensures ItemEnd(s, lo) == 1 + if s[lo].kind == Loop1 then s[lo].mate else s[lo].inner
  {
    ClosedTail(Halves(s), lo, h);
    assert LinkedAt(s, lo) && LinkedAt(s, h) && BracketAt(s, Brackets(s), lo);
    assert Apart(Halves(s), s[h].mate, lo);
  }

  /** The text inside a loop that has the hole in it. */
  lemma {:induction false} LoopText(s: seq<Op>, lo: nat, h: nat, turns: seq<Turn>, fill: seq<Copy>)
    requires Linked(s) && Bracketing(s, Brackets(s)) && lo < h < |s| && s[lo].kind == Loop1 && lo < s[lo].mate < |s|
    requires s[h].kind == Inner1 && s[h].mate < lo && h < s[h].inner < s[lo].mate + 1
    requires Closed(Halves(s), lo, h) && Closed(Halves(s), s[h].inner + 1, s[lo].mate + 1)
    ensures ItemEnd(s, lo) == s[lo].mate + 1 && Costed(s[s[lo].mate].kind) && s[h].inner < s[lo].mate
    ensures Closed(Halves(s), lo + 1, h) && Closed(Halves(s), s[h].inner + 1, s[lo].mate)
    ensures Item(s, lo, turns, fill)
         == [Copy(lo, turns)] + (Copies(s, lo + 1, h, turns) + (fill + Copies(s, s[h].inner + 1, s[lo].mate, turns)))
            + [Copy(s[lo].mate, turns)]
    decreases s[lo].mate - lo, 9
  {
    var m: nat := s[lo].mate;
    assert BracketAt(s, Brackets(s), lo) && LinkedAt(s, h);
    assert LinkedAt(s, s[h].inner);
    BlockInside(s, lo);
    CopiesHead(s, lo, h, turns);
    DropLast(s, s[h].inner + 1, m, turns);
    PlugText(s, lo + 1, m, h, turns, fill);
  }

  lemma {:induction false} HoleLoop(s: seq<Op>, lo: nat, h: nat, turns: seq<Turn>, fill: seq<Copy>)
    requires Linked(s) && Bracketing(s, Brackets(s)) && lo < h < |s| && s[lo].kind == Loop1 && lo < s[lo].mate < |s|
    requires s[h].kind == Inner1 && s[h].mate < lo && h < s[h].inner < s[lo].mate + 1
    requires Closed(Halves(s), lo, h) && Closed(Halves(s), s[h].inner + 1, s[lo].mate + 1)
    ensures Item(s, lo, turns, fill) == Copies(s, lo, h, turns) + (fill + Copies(s, s[h].inner + 1, s[lo].mate + 1, turns))
    decreases s[lo].mate + 1 - lo, 0
  {
    var m: nat := s[lo].mate;
    LoopText(s, lo, h, turns, fill);
    CopiesHead(s, lo, h, turns);
    DropLast(s, s[h].inner + 1, m, turns);
    Around([Copy(lo, turns)], Copies(s, lo + 1, h, turns), fill, Copies(s, s[h].inner + 1, m, turns), [Copy(m, turns)]);
  }

  lemma {:induction false} HoleBraced(s: seq<Op>, lo: nat, h: nat, turns: seq<Turn>, fill: seq<Copy>)
    requires Linked(s) && Bracketing(s, Brackets(s)) && lo < h < |s| && s[lo].kind == IRep1 && lo < s[lo].inner < |s|
    requires s[h].kind == Inner1 && s[h].mate < lo && h < s[h].inner < s[lo].inner + 1
    requires Closed(Halves(s), lo, h) && Closed(Halves(s), s[h].inner + 1, s[lo].inner + 1)
    ensures Item(s, lo, turns, fill) == Copies(s, lo, h, turns) + (fill + Copies(s, s[h].inner + 1, s[lo].inner + 1, turns))
    decreases s[lo].inner + 1 - lo, 0
  {
    BraceFacts(s, lo);
    BraceInside(s, lo);
    var i1: nat, i2: nat, r: nat := s[lo].mate, s[s[lo].mate].inner, s[lo].inner;
    CopiesHead(s, lo, h, turns);
    HoleInBrace(s, lo, h);
    DropHalf(s, s[h].inner + 1, i2, turns);
    var core := Text(s, i1 + 1, i2, h, turns, fill);
    PlugText(s, i1 + 1, i2, h, turns, fill);
    CountBound(s, lo);
    WrapText(s, lo, s[lo].count, turns, core);
    assert Upward(s, i2, s[lo].count + 1, turns) == [];
    Around(Half(s, lo, turns), Copies(s, i1 + 1, h, turns), fill, Copies(s, s[h].inner + 1, i2, turns), Half(s, i2, turns));
  }

  /** The brace of a paren further out lies inside the brace of `lo`. */
  lemma HoleInBrace(s: seq<Op>, lo: nat, h: nat)
    requires Linked(s) && Bracketing(s, Brackets(s)) && lo < h < |s| && s[lo].kind == IRep1 && BraceOf(s, lo)
    requires s[h].kind == Inner1 && s[h].mate < lo && h < s[h].inner < s[lo].inner + 1
    requires Closed(Halves(s), lo, h)
    ensures s[lo].mate < h < s[h].inner < s[s[lo].mate].inner
  {
    var i1: nat, i2: nat := s[lo].mate, s[s[lo].mate].inner;
    assert LinkedAt(s, h) && LinkedAt(s, lo) && LinkedAt(s, i1) && LinkedAt(s, i2);
    assert Apart(Halves(s), s[h].mate, lo) && Apart(Halves(s), s[h].mate, i2);
    assert Apart(Blocks(s), i1, h);
  }
}
