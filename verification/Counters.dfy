/** The reference interpreter: one static counter for each paren instead of a stack. */
module Counters {
  import opened Nest
  import opened Ops
  import opened Links
  import opened Expansion
  import opened Skipping

  /** `iter[p]` belongs to the paren that begins at `p`; other entries are not used. */
  datatype Ego = Ego(pc: nat, iter: seq<int>)

  /** One `(`, `{`, `}` or `)`. */
  function EgoStep(s: seq<Op>, e: Ego): Ego
    requires Linked(s) && e.pc < |s| && |e.iter| == |s|
  {
    var i := e.pc;
    var o := s[i];
    assert LinkedAt(s, i);
    match o.kind
    case Rep1 => Ego(if o.count == 0 then o.mate + 1 else i + 1, e.iter[i := 0])
    case IRep1 => Ego(if o.count == 0 then o.inner + 1 else i + 1, e.iter[i := 0])
    case Rep2 => Again(e, o.mate, e.iter[o.mate] + 1, e.iter[o.mate] + 1 < s[o.mate].count, o.mate)
    case Inner1 => Again(e, o.mate, e.iter[o.mate] + 1, e.iter[o.mate] + 1 < s[o.mate].count, o.mate)
    case Inner2 =>
      assert LinkedAt(s, o.inner);
      var p := s[o.inner].mate;
      Ego(i + 1, e.iter[p := s[p].count - 1])
    case IRep2 => Again(e, o.inner, e.iter[o.inner] - 1, e.iter[o.inner] - 1 >= 0, o.mate)
    case _ => e
  }

  /** Sets the counter of paren `p` to `x`; goes on after `back`, or on to the next instruction. */
  function Again(e: Ego, p: nat, x: int, again: bool, back: nat): Ego
    requires p < |e.iter|
  {
    Ego(if again then back + 1 else e.pc + 1, e.iter[p := x])
  }

  /** After `n` of them. */
  ghost function EgoSteps(s: seq<Op>, e: Ego, n: nat): Ego
    requires Linked(s)
    decreases n
  {
    if n == 0 || e.pc >= |s| || |e.iter| != |s| then e else EgoSteps(s, EgoStep(s, e), n - 1)
  }

  // What the counters mean for the list `t` that the interpreter in effect runs.

  /** Each counter stands for the turn that its paren is in: the count minus the counter. */
  predicate Matches(t: seq<Op>, iter: seq<int>, turns: seq<Turn>)
  {
    |iter| == |t| && forall i :: 0 <= i < |turns| ==> MatchesTurn(t, iter, turns[i])
  }

  predicate MatchesTurn(t: seq<Op>, iter: seq<int>, turn: Turn)
  {
    turn.paren < |t| == |iter| && t[turn.paren].count - iter[turn.paren] == turn.counter
  }

  ghost predicate Arrived(t: seq<Op>, e: Ego, y: Copy)
  {
    e.pc == y.ip && Matches(t, e.iter, y.turns)
  }

  ghost predicate Gets(s: seq<Op>, t: seq<Op>, e: Ego, y: Copy)
    requires Linked(s)
  {
    exists n :: Arrived(t, EgoSteps(s, e, n), y)
  }

  /** Whatever the other counters hold, repeat instructions lead from `x` to `y`. */
  ghost predicate Leads(s: seq<Op>, t: seq<Op>, x: Copy, y: Copy)
    requires Linked(s)
  {
    forall e: Ego {:trigger Arrived(t, e, x)} :: Arrived(t, e, x) ==> Gets(s, t, e, y)
  }

  lemma {:induction false} EgoStepsAppend(s: seq<Op>, e: Ego, m: nat, n: nat)
    requires Linked(s)
    ensures EgoSteps(s, e, m + n) == EgoSteps(s, EgoSteps(s, e, m), n)
    decreases m
  {
    if m > 0 && e.pc < |s| && |e.iter| == |s| {
      EgoStepsAppend(s, EgoStep(s, e), m - 1, n);
    }
  }

  lemma LeadsRefl(s: seq<Op>, t: seq<Op>, x: Copy)
    requires Linked(s)
    ensures Leads(s, t, x, x)
  {
    forall e: Ego | Arrived(t, e, x)
      ensures Gets(s, t, e, x)
    {
      assert EgoSteps(s, e, 0) == e;
    }
  }

  lemma LeadsTrans(s: seq<Op>, t: seq<Op>, x: Copy, y: Copy, z: Copy)
    requires Linked(s) && Leads(s, t, x, y) && Leads(s, t, y, z)
    ensures Leads(s, t, x, z)
  {
    forall e: Ego | Arrived(t, e, x)
      ensures Gets(s, t, e, z)
    {
      var m: nat :| Arrived(t, EgoSteps(s, e, m), y);
      var n: nat :| Arrived(t, EgoSteps(s, EgoSteps(s, e, m), n), z);
      EgoStepsAppend(s, e, m, n);
    }
  }

  lemma LeadsStep(s: seq<Op>, t: seq<Op>, x: Copy, y: Copy)
    requires Linked(s) && |t| == |s| && x.ip < |s|
    requires forall e: Ego {:trigger Arrived(t, e, x)} :: Arrived(t, e, x) ==> Arrived(t, EgoStep(s, e), y)
    ensures Leads(s, t, x, y)
  {
    forall e: Ego | Arrived(t, e, x)
      ensures Gets(s, t, e, y)
    {
      var d := EgoStep(s, e);
      assert EgoSteps(s, d, 0) == d;
      assert EgoSteps(s, e, 1) == d;
    }
  }

  function Next(c: Copy): Copy
  {
    Copy(c.ip + 1, c.turns)
  }

  /** From `x` the interpreter comes to exactly the copies `cs`, one after the other, and then to `y`. */
  ghost predicate Chain(s: seq<Op>, t: seq<Op>, x: Copy, cs: seq<Copy>, y: Copy)
    requires Linked(s)
    decreases |cs|
  {
    if cs == [] then Leads(s, t, x, y)
    else Leads(s, t, x, cs[0]) && Chain(s, t, Next(cs[0]), cs[1..], y)
  }

  lemma ChainFrom(s: seq<Op>, t: seq<Op>, w: Copy, x: Copy, cs: seq<Copy>, y: Copy)
    requires Linked(s) && Leads(s, t, w, x) && Chain(s, t, x, cs, y)
    ensures Chain(s, t, w, cs, y)
  {
    LeadsTrans(s, t, w, x, if cs == [] then y else cs[0]);
  }

  lemma {:induction false} ChainAppend(s: seq<Op>, t: seq<Op>, x: Copy, cs: seq<Copy>, y: Copy, ds: seq<Copy>, z: Copy)
    requires Linked(s) && Chain(s, t, x, cs, y) && Chain(s, t, y, ds, z)
    ensures Chain(s, t, x, cs + ds, z)
    decreases |cs|
  {
    if cs == [] {
      ChainFrom(s, t, x, y, ds, z);
      assert cs + ds == ds;
    } else {
      ChainAppend(s, t, Next(cs[0]), cs[1..], y, ds, z);
      assert (cs + ds)[1..] == cs[1..] + ds;
    }
  }

  lemma {:induction false} ChainPast(s: seq<Op>, t: seq<Op>, x: Copy, cs: seq<Copy>, y: Copy, i: nat)
    requires Linked(s) && Chain(s, t, x, cs, y) && i < |cs|
    ensures Leads(s, t, Next(cs[i]), if i + 1 < |cs| then cs[i + 1] else y)
    decreases i
  {
    if i > 0 { ChainPast(s, t, Next(cs[0]), cs[1..], y, i - 1); }
  }

  // Single steps.

  /** No half of [lo, hi) belongs to a paren that is already in a turn. */
  ghost predicate FreshAt(t: seq<Op>, turns: seq<Turn>, o: nat)
    requires Linked(t)
  {
    o < |t| && Opens(t[o].kind) ==> forall i :: 0 <= i < |turns| ==> turns[i].paren != Paren(t, o)
  }

  ghost predicate Fresh(t: seq<Op>, lo: nat, hi: nat, turns: seq<Turn>)
    requires Linked(t)
  {
    forall o: nat {:trigger FreshAt(t, turns, o)} :: lo <= o < hi ==> FreshAt(t, turns, o)
  }

  /** The halves inside a half belong to other parens. */
  lemma FreshInside(t: seq<Op>, o: nat, turns: seq<Turn>, k: int)
    requires Linked(t) && o < |t| && Opens(t[o].kind) && o < t[o].mate < |t| && Fresh(t, o, t[o].mate, turns)
    ensures Fresh(t, o + 1, t[o].mate, [Turn(Paren(t, o), k)] + turns)
  {
    var turns' := [Turn(Paren(t, o), k)] + turns;
    forall x: nat {:trigger FreshAt(t, turns', x)} | o < x < t[o].mate
      ensures FreshAt(t, turns', x)
    {
      assert FreshAt(t, turns, x);
      if x < |t| && Opens(t[x].kind) { OtherParen(t, o, x); }
    }
  }

  lemma OtherParen(s: seq<Op>, o: nat, x: nat)
    requires Linked(s) && o < x < |s| && x < s[o].mate && Opens(s[o].kind) && Opens(s[x].kind)
    ensures Paren(s, x) != Paren(s, o)
  {
    assert LinkedAt(s, o) && LinkedAt(s, x);
    if s[x].kind == Inner2 { assert LinkedAt(s, s[x].inner); }
    if s[o].kind == Inner2 { assert LinkedAt(s, s[o].inner); }
  }

  /** Setting the counter of a paren puts it in a turn and leaves the others alone. */
  lemma MatchesPush(t: seq<Op>, iter: seq<int>, turns: seq<Turn>, p: nat, x: int)
    requires Matches(t, iter, turns) && p < |t| == |iter| && forall i :: 0 <= i < |turns| ==> turns[i].paren != p
    ensures Matches(t, iter[p := x], turns)
    ensures Matches(t, iter[p := x], [Turn(p, t[p].count - x)] + turns)
  {
    forall i | 0 <= i < |turns|
      ensures MatchesTurn(t, iter[p := x], turns[i])
    {
      assert MatchesTurn(t, iter, turns[i]);
    }
  }

  lemma ParenInside(s: seq<Op>, o: nat)
    requires Linked(s) && o < |s| && Opens(s[o].kind)
    ensures Paren(s, o) < |s| && s[Paren(s, o)].count == s[o].count
  {
    assert LinkedAt(s, o);
    if s[o].kind == Inner2 {
      var p := Paren(s, o);
      assert LinkedAt(s, s[o].inner) && LinkedAt(s, p) && LinkedAt(s, s[p].inner) && LinkedAt(s, s[o].mate);
    }
  }

  lemma MatchesPop(t: seq<Op>, iter: seq<int>, turn: Turn, turns: seq<Turn>)
    requires Matches(t, iter, [turn] + turns)
    ensures Matches(t, iter, turns) && MatchesTurn(t, iter, turn)
  {
    assert ([turn] + turns)[0] == turn;
    forall i | 0 <= i < |turns|
      ensures MatchesTurn(t, iter, turns[i])
    {
      assert ([turn] + turns)[i + 1] == turns[i];
    }
  }

  /** The turn after turn `k` of the half at `o`. */
  function NextTurn(t: seq<Op>, o: nat, k: int): int
    requires o < |t|
  {
    if t[o].kind == Inner2 then k + 1 else k - 1
  }

  predicate MoreTurns(t: seq<Op>, o: nat, k: int)
    requires o < |t|
  {
    if t[o].kind == Inner2 then k + 1 <= t[o].count else k - 1 > 0
  }

  /** The closing token finds the paren: `)` of a half `}C)` through its own paren, others through the mate. */
  lemma CloserParen(s: seq<Op>, o: nat)
    requires Linked(s) && o < |s| && Opens(s[o].kind)
    ensures o < s[o].mate < |s|
    ensures s[s[o].mate].kind == (if s[o].kind == Inner2 then IRep2 else if s[o].kind == Rep1 then Rep2 else Inner1)
    ensures Paren(s, o) == if s[o].kind == Inner2 then s[s[o].mate].inner else o
    ensures s[s[o].mate].mate == o
  {
    assert LinkedAt(s, o) && LinkedAt(s, s[o].mate);
    if s[o].kind == Inner2 {
      var p := Paren(s, o);
      assert LinkedAt(s, s[o].inner) && LinkedAt(s, p) && LinkedAt(s, s[p].inner);
    }
  }

  // Outside of the parens that are skipped, the interpreter does what the counters say for `t`.

  /** No skipped paren begins before `at` and ends later. */
  ghost predicate Surface(s: seq<Op>, at: nat)
  {
    forall z: nat {:trigger Zero(s, z)} :: Zero(s, z) && z < at ==> s[z].inner < at
  }

  ghost predicate RunsAs(s: seq<Op>, t: seq<Op>)
  {
    Linked(s) && t == AsRun(s) && Linked(t)
  }

  /** The half of `t` at `o` is a half of `s`, or the block of a cut paren. */
  lemma SurfaceHalf(s: seq<Op>, t: seq<Op>, o: nat)
    requires RunsAs(s, t) && Surface(s, o) && o < |s| && Opens(t[o].kind)
    ensures o < t[o].mate < |t|
    ensures s[o].kind == IRep1 && Cut(s, o) ==>
              && t[o].kind == Rep1 && t[o].mate == s[o].inner && Paren(t, o) == o
              && t[o].count == (if s[o].count == 0 then 0 else 1) && 0 <= s[o].count && s[t[o].mate].kind == IRep2
              && s[t[o].mate].inner == o
    ensures !(s[o].kind == IRep1 && Cut(s, o)) ==>
              && t[o] == s[o] && t[t[o].mate] == s[t[o].mate] && Paren(t, o) == Paren(s, o) < |s|
              && t[Paren(s, o)] == s[Paren(s, o)] && (s[o].kind == IRep1 ==> s[o].count > 0)
  {
    RunOpAt(s, o);
    assert LinkedAt(t, o) && LinkedAt(s, o);
    if Braced(s[o].kind) {
      HeadOf(s, o);
      var p: nat := Head(s, o);
      FourTokens(s, p);
      if Cut(s, p) {
        var z: nat :| Zero(s, z) && Within(s, z, s[p].mate);
        FourTokens(s, z);
        assert o != s[p].mate;
      } else {
        RunOpAt(s, s[o].mate);
        RunOpAt(s, p);
        if s[o].kind == Inner2 { RunOpAt(s, s[o].inner); }
        NotZero(s, p);
      }
    } else {
      RunOpAt(s, s[o].mate);
    }
  }

  lemma NotZero(s: seq<Op>, p: nat)
    requires Linked(s) && p < |s| && s[p].kind == IRep1 && !Cut(s, p)
    ensures s[p].count > 0
  {
    FourTokens(s, p);
    assert !(Zero(s, p) && Within(s, p, s[p].mate));
  }

  /** `(` and `}` begin the first turn; a `(` with count 0 skips its paren. */
  lemma EgoOpens(s: seq<Op>, t: seq<Op>, o: nat, e: Ego)
    requires RunsAs(s, t) && Surface(s, o) && o < |s| && Opens(t[o].kind) && e.pc == o && |e.iter| == |s|
    ensures Paren(t, o) < |s| && o < t[o].mate
    ensures EgoStep(s, e) == Ego(if t[o].kind == Rep1 && t[o].count == 0 then t[o].mate + 1 else o + 1,
                                 e.iter[Paren(t, o) := if t[o].kind == Inner2 then t[o].count - 1 else 0])
  {
    SurfaceHalf(s, t, o);
    assert LinkedAt(s, o);
    if t[o].kind == Inner2 { ParenInside(s, o); }
  }

  /** The end of a half begins the next turn or leaves the half. */
  lemma EgoCloses(s: seq<Op>, t: seq<Op>, o: nat, e: Ego, k: int) returns (x: int)
    requires RunsAs(s, t) && Surface(s, o) && o < |s| && Opens(t[o].kind) && e.pc == t[o].mate && |e.iter| == |s|
    requires Paren(t, o) < |s| && k == t[o].count - e.iter[Paren(t, o)] && 1 <= k <= t[o].count
    ensures e.pc < |s| && EgoStep(s, e) == Ego(if MoreTurns(t, o, k) then o + 1 else e.pc + 1, e.iter[Paren(t, o) := x])
    ensures MoreTurns(t, o, k) ==> t[o].count - x == NextTurn(t, o, k)
  {
    SurfaceHalf(s, t, o);
    var p := Paren(t, o);
    assert LinkedAt(s, t[o].mate);
    if s[o].kind == IRep1 && Cut(s, o) {
      x := e.iter[p] - 1;
    } else {
      CloserParen(s, o);
      ParenInside(s, o);
      assert LinkedAt(s, o);
      x := if t[o].kind == Inner2 then e.iter[p] - 1 else e.iter[p] + 1;
    }
  }

  lemma OpenLeads(s: seq<Op>, t: seq<Op>, o: nat, turns: seq<Turn>)
    requires RunsAs(s, t) && Surface(s, o) && o < |s| && Opens(t[o].kind) && FreshAt(t, turns, o)
    requires t[o].kind == Rep1 ==> t[o].count > 0
    ensures var k := if t[o].kind == Inner2 then 1 else t[o].count;
            Leads(s, t, Copy(o, turns), Copy(o + 1, [Turn(Paren(t, o), k)] + turns))
  {
    var p := Paren(t, o);
    var k := if t[o].kind == Inner2 then 1 else t[o].count;
    var y := Copy(o + 1, [Turn(p, k)] + turns);
    ParenInside(t, o);
    forall e: Ego {:trigger Arrived(t, e, Copy(o, turns))} | Arrived(t, e, Copy(o, turns))
      ensures Arrived(t, EgoStep(s, e), y)
    {
      EgoOpens(s, t, o, e);
      MatchesPush(t, e.iter, turns, p, if t[o].kind == Inner2 then t[o].count - 1 else 0);
    }
    LeadsStep(s, t, Copy(o, turns), y);
  }

  lemma SkipLeads(s: seq<Op>, t: seq<Op>, o: nat, turns: seq<Turn>)
    requires RunsAs(s, t) && Surface(s, o) && o < |s| && t[o].kind == Rep1 && t[o].count == 0 && FreshAt(t, turns, o)
    ensures o < t[o].mate && Leads(s, t, Copy(o, turns), Copy(t[o].mate + 1, turns))
  {
    assert LinkedAt(t, o);
    var y := Copy(t[o].mate + 1, turns);
    forall e: Ego {:trigger Arrived(t, e, Copy(o, turns))} | Arrived(t, e, Copy(o, turns))
      ensures Arrived(t, EgoStep(s, e), y)
    {
      EgoOpens(s, t, o, e);
      MatchesPush(t, e.iter, turns, o, 0);
    }
    LeadsStep(s, t, Copy(o, turns), y);
  }

  /** The end of a half leads to the next turn, or out of the half. */
  lemma CloseLeads(s: seq<Op>, t: seq<Op>, o: nat, k: int, turns: seq<Turn>)
    requires RunsAs(s, t) && Surface(s, o) && o < |s| && Opens(t[o].kind) && FreshAt(t, turns, o) && o < t[o].mate < |s|
    requires 1 <= k <= t[o].count
    ensures var p := Paren(t, o);
            Leads(s, t, Copy(t[o].mate, [Turn(p, k)] + turns),
                  if MoreTurns(t, o, k) then Copy(o + 1, [Turn(p, NextTurn(t, o, k))] + turns) else Copy(t[o].mate + 1, turns))
  {
    var p, m := Paren(t, o), t[o].mate;
    var x := Copy(m, [Turn(p, k)] + turns);
    var y := if MoreTurns(t, o, k) then Copy(o + 1, [Turn(p, NextTurn(t, o, k))] + turns) else Copy(m + 1, turns);
    ParenInside(t, o);
    forall e: Ego {:trigger Arrived(t, e, x)} | Arrived(t, e, x)
      ensures Arrived(t, EgoStep(s, e), y)
    {
      MatchesPop(t, e.iter, Turn(p, k), turns);
      var n := EgoCloses(s, t, o, e, k);
      MatchesPush(t, e.iter, turns, p, n);
    }
    LeadsStep(s, t, x, y);
  }
}
