/** What a program with compact repeats stands for: `(A)*N` is A repeated N times, and `(A{B}C)%N` is
    A repeated N times, B, then C repeated N times. */
module Expansion {
  import opened Nest
  import opened Ops
  import opened Links

  function Repeat<T>(x: seq<T>, n: int): seq<T>
  {
    if n <= 0 then [] else x + Repeat(x, n - 1)
  }

  /** The instructions that take a cycle, in the order in which they are written out. `(A{B}C)%N` is
      the half `(A{` repeated, then B, then the half `}C)` repeated. */
  ghost function Expand(s: seq<Op>, lo: nat, hi: nat): seq<Kind>
    requires Linked(s) && lo <= hi <= |s| && Closed(Halves(s), lo, hi)
    decreases hi - lo
  {
    if lo == hi then []
    else
      ClosedTail(Halves(s), lo, hi);
      assert LinkedAt(s, lo);
      if Costed(s[lo].kind) then [s[lo].kind] + Expand(s, lo + 1, hi)
      else Repeat(Expand(s, lo + 1, s[lo].mate), s[lo].count) + Expand(s, s[lo].mate + 1, hi)
  }

  /** The first step of an expansion. */
  lemma ExpandHead(s: seq<Op>, lo: nat, hi: nat)
    requires Linked(s) && lo < hi <= |s| && Closed(Halves(s), lo, hi)
    ensures !Closes(s[lo].kind)
    ensures Costed(s[lo].kind) ==>
              Closed(Halves(s), lo + 1, hi) && Expand(s, lo, hi) == [s[lo].kind] + Expand(s, lo + 1, hi)
    ensures Opens(s[lo].kind) ==>
              && lo < s[lo].mate < hi && Closed(Halves(s), lo + 1, s[lo].mate) && Closed(Halves(s), s[lo].mate + 1, hi)
              && Expand(s, lo, hi) == Repeat(Expand(s, lo + 1, s[lo].mate), s[lo].count) + Expand(s, s[lo].mate + 1, hi)
  {
    ClosedTail(Halves(s), lo, hi);
    assert LinkedAt(s, lo);
  }

  /** The whole program, without the final `Done`. */
  ghost function Program(s: seq<Op>): seq<Kind>
    requires Linked(s) && EndsDone(s)
  {
    WholeClosed(s);
    Expand(s, 0, |s| - 1)
  }

  lemma WholeClosed(s: seq<Op>)
    requires Linked(s) && EndsDone(s)
    ensures Closed(Halves(s), 0, |s| - 1)
  {
    forall i: nat {:trigger Inside(Halves(s), 0, |s| - 1, i)} | i < |s| - 1
      ensures Inside(Halves(s), 0, |s| - 1, i)
    {
      assert Joined(Halves(s), |s|, i);
    }
  }

  // The same expansion with its origin: where each copy comes from, and in which turn.

  /** The turn a counted half is in: the paren it belongs to and the counter. `(A` counts down from N
      to 1, `C)` counts up from 1 to N. */
  datatype Turn = Turn(paren: nat, counter: int)

  /** A copy of instruction `ip`, made in these turns (innermost first). */
  datatype Copy = Copy(ip: nat, turns: seq<Turn>)

  /** The paren that a half belongs to. */
  ghost function Paren(s: seq<Op>, o: nat): nat
    requires Linked(s) && o < |s| && Opens(s[o].kind)
  {
    assert LinkedAt(s, o);
    if s[o].kind == Inner2 then (assert LinkedAt(s, s[o].inner); s[s[o].inner].mate) else o
  }

  ghost function Copies(s: seq<Op>, lo: nat, hi: nat, turns: seq<Turn>): seq<Copy>
    requires Linked(s) && lo <= hi <= |s| && Closed(Halves(s), lo, hi)
    decreases hi - lo, 0
  {
    if lo == hi then []
    else
      ClosedTail(Halves(s), lo, hi);
      assert LinkedAt(s, lo);
      if Costed(s[lo].kind) then [Copy(lo, turns)] + Copies(s, lo + 1, hi, turns)
      else Half(s, lo, turns) + Copies(s, s[lo].mate + 1, hi, turns)
  }

  /** All turns of the half that begins at `o`. */
  ghost function Half(s: seq<Op>, o: nat, turns: seq<Turn>): seq<Copy>
    requires Linked(s) && o < |s| && Opens(s[o].kind)
    decreases s[o].mate - o, if s[o].count < 0 then 1 else s[o].count + 1
  {
    HalfInside(s, o);
    if s[o].kind == Inner2 then Upward(s, o, 1, turns) else Downward(s, o, s[o].count, turns)
  }

  /** The turns k, k - 1, .., 1 of the half that begins at `o`. */
  ghost function Downward(s: seq<Op>, o: nat, k: int, turns: seq<Turn>): seq<Copy>
    requires Linked(s) && o < |s| && Opens(s[o].kind)
    decreases s[o].mate - o, if k < 0 then 0 else k
  {
    HalfInside(s, o);
    if k <= 0 then []
    else Copies(s, o + 1, s[o].mate, [Turn(Paren(s, o), k)] + turns) + Downward(s, o, k - 1, turns)
  }

  /** The turns k, k + 1, .., N of the half that begins at `o`. */
  ghost function Upward(s: seq<Op>, o: nat, k: int, turns: seq<Turn>): seq<Copy>
    requires Linked(s) && o < |s| && Opens(s[o].kind)
    decreases s[o].mate - o, if k > s[o].count then 0 else s[o].count - k + 1
  {
    HalfInside(s, o);
    if k > s[o].count then []
    else Copies(s, o + 1, s[o].mate, [Turn(Paren(s, o), k)] + turns) + Upward(s, o, k + 1, turns)
  }

  lemma HalfInside(s: seq<Op>, o: nat)
    requires Linked(s) && o < |s| && Opens(s[o].kind)
    ensures o < s[o].mate < |s| && Closes(s[s[o].mate].kind) && s[s[o].mate].mate == o
    ensures Closed(Halves(s), o + 1, s[o].mate)
  {
    assert LinkedAt(s, o) && LinkedAt(s, s[o].mate);
    InsideClosed(Halves(s), o);
  }

  /** Every copy is a copy of an instruction of the segment that takes a cycle. */
  ghost predicate CopyIn(s: seq<Op>, lo: nat, hi: nat, c: Copy)
  {
    lo <= c.ip < hi <= |s| && Costed(s[c.ip].kind)
  }

  ghost predicate CopiesIn(s: seq<Op>, lo: nat, hi: nat, cs: seq<Copy>)
  {
    forall i :: 0 <= i < |cs| ==> CopyIn(s, lo, hi, cs[i])
  }

  lemma {:induction false} CopiesInside(s: seq<Op>, lo: nat, hi: nat, turns: seq<Turn>)
    requires Linked(s) && lo <= hi <= |s| && Closed(Halves(s), lo, hi)
    ensures CopiesIn(s, lo, hi, Copies(s, lo, hi, turns))
    decreases hi - lo, 0
  {
    if lo < hi {
      ClosedTail(Halves(s), lo, hi);
      assert LinkedAt(s, lo);
      if Costed(s[lo].kind) {
        CopiesInside(s, lo + 1, hi, turns);
      } else {
        HalfCopiesInside(s, lo, turns);
        CopiesInside(s, s[lo].mate + 1, hi, turns);
      }
    }
  }

  lemma {:induction false} HalfCopiesInside(s: seq<Op>, o: nat, turns: seq<Turn>)
    requires Linked(s) && o < |s| && Opens(s[o].kind)
    ensures o < s[o].mate && CopiesIn(s, o + 1, s[o].mate, Half(s, o, turns))
    decreases s[o].mate - o, if s[o].count < 0 then 1 else s[o].count + 1
  {
    HalfInside(s, o);
    if s[o].kind == Inner2 { UpwardInside(s, o, 1, turns); } else { DownwardInside(s, o, s[o].count, turns); }
  }

  lemma {:induction false} DownwardInside(s: seq<Op>, o: nat, k: int, turns: seq<Turn>)
    requires Linked(s) && o < |s| && Opens(s[o].kind)
    ensures o < s[o].mate && CopiesIn(s, o + 1, s[o].mate, Downward(s, o, k, turns))
    decreases s[o].mate - o, if k < 0 then 0 else k
  {
    HalfInside(s, o);
    if k > 0 {
      CopiesInside(s, o + 1, s[o].mate, [Turn(Paren(s, o), k)] + turns);
      DownwardInside(s, o, k - 1, turns);
    }
  }

  lemma {:induction false} UpwardInside(s: seq<Op>, o: nat, k: int, turns: seq<Turn>)
    requires Linked(s) && o < |s| && Opens(s[o].kind)
    ensures o < s[o].mate && CopiesIn(s, o + 1, s[o].mate, Upward(s, o, k, turns))
    decreases s[o].mate - o, if k > s[o].count then 0 else s[o].count - k + 1
  {
    HalfInside(s, o);
    if k <= s[o].count {
      CopiesInside(s, o + 1, s[o].mate, [Turn(Paren(s, o), k)] + turns);
      UpwardInside(s, o, k + 1, turns);
    }
  }

  function KindOf(s: seq<Op>, c: Copy): Kind
  {
    if c.ip < |s| then s[c.ip].kind else Done
  }

  function Kinds(s: seq<Op>, cs: seq<Copy>): (ks: seq<Kind>)
    ensures |ks| == |cs|
  {
    seq(|cs|, i requires 0 <= i < |cs| => KindOf(s, cs[i]))
  }

  lemma KindsAppend(s: seq<Op>, a: seq<Copy>, b: seq<Copy>)
    ensures Kinds(s, a + b) == Kinds(s, a) + Kinds(s, b)
  {
  }

  /** Forgetting where the copies come from gives the expansion. */
  lemma {:induction false} CopiesExpand(s: seq<Op>, lo: nat, hi: nat, turns: seq<Turn>)
    requires Linked(s) && lo <= hi <= |s| && Closed(Halves(s), lo, hi)
    ensures Kinds(s, Copies(s, lo, hi, turns)) == Expand(s, lo, hi)
    decreases hi - lo, 1
  {
    if lo < hi {
      CopiesHead(s, lo, hi, turns);
      LeadExpand(s, lo, hi);
      LeadKinds(s, lo, hi, turns);
      CopiesExpand(s, After(s, lo), hi, turns);
      KindsAppend(s, First(s, lo, turns), Copies(s, After(s, lo), hi, turns));
    }
  }

  lemma {:induction false} LeadKinds(s: seq<Op>, lo: nat, hi: nat, turns: seq<Turn>)
    requires Linked(s) && lo < hi <= |s| && lo < After(s, lo) <= hi && !Closes(s[lo].kind)
    ensures Kinds(s, First(s, lo, turns)) == Leading(s, lo)
    decreases hi - lo, 0
  {
    if Opens(s[lo].kind) { HalfExpand(s, lo, turns); }
  }

  lemma {:induction false} HalfExpand(s: seq<Op>, o: nat, turns: seq<Turn>)
    requires Linked(s) && o < |s| && Opens(s[o].kind)
    ensures o < s[o].mate < |s| && Closed(Halves(s), o + 1, s[o].mate)
    ensures Kinds(s, Half(s, o, turns)) == Repeat(Expand(s, o + 1, s[o].mate), s[o].count)
    decreases s[o].mate - o, if s[o].count < 0 then 1 else s[o].count + 1
  {
    HalfInside(s, o);
    if s[o].kind == Inner2 { UpwardExpand(s, o, 1, turns); } else { DownwardExpand(s, o, s[o].count, turns); }
  }

  lemma {:induction false} DownwardExpand(s: seq<Op>, o: nat, k: int, turns: seq<Turn>)
    requires Linked(s) && o < |s| && Opens(s[o].kind)
    ensures o < s[o].mate < |s| && Closed(Halves(s), o + 1, s[o].mate)
    ensures Kinds(s, Downward(s, o, k, turns)) == Repeat(Expand(s, o + 1, s[o].mate), k)
    decreases s[o].mate - o, if k < 0 then 0 else k
  {
    HalfInside(s, o);
    if k > 0 {
      var turns' := [Turn(Paren(s, o), k)] + turns;
      CopiesExpand(s, o + 1, s[o].mate, turns');
      DownwardExpand(s, o, k - 1, turns);
      KindsAppend(s, Copies(s, o + 1, s[o].mate, turns'), Downward(s, o, k - 1, turns));
    }
  }

  lemma {:induction false} UpwardExpand(s: seq<Op>, o: nat, k: int, turns: seq<Turn>)
    requires Linked(s) && o < |s| && Opens(s[o].kind)
    ensures o < s[o].mate < |s| && Closed(Halves(s), o + 1, s[o].mate)
    ensures Kinds(s, Upward(s, o, k, turns)) == Repeat(Expand(s, o + 1, s[o].mate), s[o].count - k + 1)
    decreases s[o].mate - o, if k > s[o].count then 0 else s[o].count - k + 1
  {
    HalfInside(s, o);
    if k <= s[o].count {
      var turns' := [Turn(Paren(s, o), k)] + turns;
      CopiesExpand(s, o + 1, s[o].mate, turns');
      UpwardExpand(s, o, k + 1, turns);
      KindsAppend(s, Copies(s, o + 1, s[o].mate, turns'), Upward(s, o, k + 1, turns));
    }
  }

  /** What stands first in a segment, and where the rest begins. */
  ghost function First(s: seq<Op>, lo: nat, turns: seq<Turn>): seq<Copy>
    requires Linked(s) && lo < |s| && !Closes(s[lo].kind)
  {
    if Costed(s[lo].kind) then [Copy(lo, turns)] else Half(s, lo, turns)
  }

  function After(s: seq<Op>, lo: nat): int
    requires lo < |s|
  {
    if Costed(s[lo].kind) then lo + 1 else s[lo].mate + 1
  }

  lemma CopiesHead(s: seq<Op>, lo: nat, hi: nat, turns: seq<Turn>)
    requires Linked(s) && lo < hi <= |s| && Closed(Halves(s), lo, hi)
    ensures !Closes(s[lo].kind) && lo < After(s, lo) <= hi && Closed(Halves(s), After(s, lo), hi)
    ensures Copies(s, lo, hi, turns) == First(s, lo, turns) + Copies(s, After(s, lo), hi, turns)
  {
    ClosedTail(Halves(s), lo, hi);
    assert LinkedAt(s, lo);
  }

  /** Adjacent closed segments expand one after the other. */
  lemma {:induction false} CopiesAppend(s: seq<Op>, lo: nat, mid: nat, hi: nat, turns: seq<Turn>)
    requires Linked(s) && lo <= mid <= hi <= |s| && Closed(Halves(s), lo, mid) && Closed(Halves(s), mid, hi)
    ensures Closed(Halves(s), lo, hi)
    ensures Copies(s, lo, hi, turns) == Copies(s, lo, mid, turns) + Copies(s, mid, hi, turns)
    decreases mid - lo
  {
    ClosedJoin(Halves(s), lo, mid, hi);
    if lo == mid {
      assert Copies(s, lo, mid, turns) == [];
    } else {
      CopiesHead(s, lo, mid, turns);
      CopiesHead(s, lo, hi, turns);
      CopiesAppend(s, After(s, lo), mid, hi, turns);
      Associative(First(s, lo, turns), Copies(s, After(s, lo), mid, turns), Copies(s, mid, hi, turns));
    }
  }

  lemma Associative<T>(a: seq<T>, b: seq<T>, c: seq<T>)
    ensures a + (b + c) == (a + b) + c
  {
  }

  lemma ExpandAppend(s: seq<Op>, lo: nat, mid: nat, hi: nat)
    requires Linked(s) && lo <= mid <= hi <= |s| && Closed(Halves(s), lo, mid) && Closed(Halves(s), mid, hi)
    ensures Closed(Halves(s), lo, hi) && Expand(s, lo, hi) == Expand(s, lo, mid) + Expand(s, mid, hi)
  {
    CopiesAppend(s, lo, mid, hi, []);
    CopiesExpand(s, lo, hi, []);
    CopiesExpand(s, lo, mid, []);
    CopiesExpand(s, mid, hi, []);
    KindsAppend(s, Copies(s, lo, mid, []), Copies(s, mid, hi, []));
  }

  /** The four tokens of a paren in order, and its two halves. */
  lemma BraceOrder(s: seq<Op>, o: nat)
    requires Linked(s) && o < |s| && s[o].kind == IRep1
    ensures o < s[o].mate < s[o].inner < |s| && s[o].mate < s[s[o].mate].inner < s[o].inner
    ensures var i2 := s[s[o].mate].inner; s[i2].kind == Inner2 && s[i2].mate == s[o].inner && s[i2].count == s[o].count
  {
    assert LinkedAt(s, o) && LinkedAt(s, s[o].mate) && LinkedAt(s, s[o].inner) && LinkedAt(s, s[s[o].mate].inner);
  }

  lemma ThreeParts(s: seq<Op>, o: nat, i1: nat, i2: nat, r: nat)
    requires Linked(s) && o < i1 < i2 < r < |s| && Opens(s[o].kind) && s[o].mate == i1 && Opens(s[i2].kind) && s[i2].mate == r
    requires Closed(Halves(s), i1 + 1, i2)
    ensures Closed(Halves(s), o, r + 1) && Closed(Halves(s), o + 1, i1) && Closed(Halves(s), i2 + 1, r)
    ensures Expand(s, o, r + 1)
         == Repeat(Expand(s, o + 1, i1), s[o].count) + (Expand(s, i1 + 1, i2) + Repeat(Expand(s, i2 + 1, r), s[i2].count))
  {
    HalfSegment(s, o);
    HalfSegment(s, i2);
    ExpandAppend(s, i1 + 1, i2, r + 1);
    ExpandAppend(s, o, i1 + 1, r + 1);
  }

  /** A paren with a brace that holds no brace of another paren stands for A repeated, then B, then C
      repeated. */
  lemma BracedExpand(s: seq<Op>, o: nat, i1: nat, i2: nat, r: nat)
    requires Linked(s) && o < |s| && s[o].kind == IRep1
    requires i1 == s[o].mate && r == s[o].inner && i1 < |s| && i2 == s[i1].inner
    requires i1 + 1 <= i2 <= |s| && Closed(Halves(s), i1 + 1, i2)
    ensures o < i1 < i2 < r < |s|
    ensures Closed(Halves(s), o, r + 1) && Closed(Halves(s), o + 1, i1) && Closed(Halves(s), i2 + 1, r)
    ensures var n := s[r].count;
            Expand(s, o, r + 1) == Repeat(Expand(s, o + 1, i1), n) + (Expand(s, i1 + 1, i2) + Repeat(Expand(s, i2 + 1, r), n))
  {
    BraceOrder(s, o);
    ThreeParts(s, o, i1, i2, r);
    assert LinkedAt(s, o);
  }

  /** A half on its own. */
  lemma HalfSegment(s: seq<Op>, o: nat)
    requires Linked(s) && o < |s| && Opens(s[o].kind)
    ensures o < s[o].mate < |s| && Closed(Halves(s), o, s[o].mate + 1) && Closed(Halves(s), o + 1, s[o].mate)
    ensures Expand(s, o, s[o].mate + 1) == Repeat(Expand(s, o + 1, s[o].mate), s[o].count)
  {
    HalfInside(s, o);
    HalfClosed(s, o, s[o].mate);
    LoneHalf(s, o, s[o].mate, s[o].mate + 1);
  }

  lemma HalfClosed(s: seq<Op>, o: nat, m: nat)
    requires Linked(s) && o < m < |s| && Opens(s[o].kind) && s[o].mate == m && Closed(Halves(s), o + 1, m)
    ensures Closed(Halves(s), o, m + 1)
  {
    var hs := Halves(s);
    assert Joined(hs, |s|, o);
    forall i: nat {:trigger Inside(hs, o, m + 1, i)} | o <= i < m + 1
      ensures Inside(hs, o, m + 1, i)
    {
      assert o < i < m ==> Inside(hs, o + 1, m, i);
    }
  }

  lemma LoneHalf(s: seq<Op>, o: nat, m: nat, end: nat)
    requires Linked(s) && o < m < end == m + 1 <= |s| && Opens(s[o].kind) && s[o].mate == m
    requires Closed(Halves(s), o, end) && Closed(Halves(s), o + 1, m)
    ensures Expand(s, o, end) == Repeat(Expand(s, o + 1, m), s[o].count)
  {
    ExpandHead(s, o, end);
    assert Expand(s, end, end) == [];
  }

  /** What the first instruction of a segment stands for. */
  ghost function Leading(s: seq<Op>, lo: nat): seq<Kind>
    requires Linked(s) && lo < |s| && !Closes(s[lo].kind)
  {
    if Costed(s[lo].kind) then [s[lo].kind]
    else
      HalfInside(s, lo);
      Repeat(Expand(s, lo + 1, s[lo].mate), s[lo].count)
  }

  lemma LeadExpand(s: seq<Op>, lo: nat, hi: nat)
    requires Linked(s) && lo < hi <= |s| && Closed(Halves(s), lo, hi)
    ensures !Closes(s[lo].kind) && lo < After(s, lo) <= hi && Closed(Halves(s), After(s, lo), hi)
    ensures Expand(s, lo, hi) == Leading(s, lo) + Expand(s, After(s, lo), hi)
  {
    ExpandHead(s, lo, hi);
  }
}
