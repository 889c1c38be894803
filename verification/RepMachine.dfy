/** The repeat stack of the engines: how `(`, `{`, `}` and `)` are run without being expanded. */
module RepMachine {
  import opened Nest
  import opened Ops
  import opened Links
  import opened Expansion

  datatype Option<T> = None | Some(value: T)

  /** `regs[0]` is the running counter, the rest is the stack of saved ones, top first. At the bottom
      lies whatever the counter held when the match began. */
  datatype Config = Config(ip: nat, regs: seq<int>)

  /** One repeat instruction. It takes no cycle. */
  function RepStep(s: seq<Op>, c: Config): Option<Config>
  {
    if c.ip >= |s| || c.regs == [] || s[c.ip].mate < -1 then None
    else
      var o := s[c.ip];
      match o.kind
      case Rep1 => Some(Config(c.ip + 1, [o.count] + c.regs))
      case IRep1 => Some(Config(c.ip + 1, [o.count] + c.regs))
      case Inner2 => Some(Config(c.ip + 1, [1] + c.regs))
      case Rep2 => CountDown(c, o.mate)
      case Inner1 => CountDown(c, o.mate)
      case IRep2 => CountUp(c, o.mate, o.count)
      case _ => None
  }

  /** `--rep`: back to the start of the half, or on with the saved counter. */
  function CountDown(c: Config, mate: int): Option<Config>
    requires c.regs != [] && mate >= -1
  {
    var r := c.regs[0] - 1;
    if r != 0 then Some(Config(mate + 1, [r] + c.regs[1..]))
    else if |c.regs| == 1 then None
    else Some(Config(c.ip + 1, c.regs[1..]))
  }

  /** `++rep`: back to the start of the half while the count is not exceeded. */
  function CountUp(c: Config, mate: int, count: int): Option<Config>
    requires c.regs != [] && mate >= -1
  {
    var r := c.regs[0] + 1;
    if r <= count then Some(Config(mate + 1, [r] + c.regs[1..]))
    else if |c.regs| == 1 then None
    else Some(Config(c.ip + 1, c.regs[1..]))
  }

  /** `n` repeat instructions in a row. */
  function RepSteps(s: seq<Op>, c: Config, n: nat): Option<Config>
    decreases n
  {
    if n == 0 then Some(c)
    else
      match RepStep(s, c)
      case None => None
      case Some(c') => RepSteps(s, c', n - 1)
  }

  /** Repeat instructions lead from `c` to `d`. */
  ghost predicate Reach(s: seq<Op>, c: Config, d: Config)
  {
    exists n :: RepSteps(s, c, n) == Some(d)
  }

  lemma {:induction false} RepStepsAppend(s: seq<Op>, c: Config, m: nat, d: Config, n: nat)
    requires RepSteps(s, c, m) == Some(d)
    ensures RepSteps(s, c, m + n) == RepSteps(s, d, n)
    decreases m
  {
    if m > 0 {
      RepStepsAppend(s, RepStep(s, c).value, m - 1, d, n);
    }
  }

  lemma ReachRefl(s: seq<Op>, c: Config)
    ensures Reach(s, c, c)
  {
    assert RepSteps(s, c, 0) == Some(c);
  }

  lemma ReachStep(s: seq<Op>, c: Config, d: Config)
    requires RepStep(s, c) == Some(d)
    ensures Reach(s, c, d)
  {
    assert RepSteps(s, d, 0) == Some(d);
    assert RepSteps(s, c, 1) == Some(d);
  }

  lemma ReachTrans(s: seq<Op>, c: Config, d: Config, e: Config)
    requires Reach(s, c, d) && Reach(s, d, e)
    ensures Reach(s, c, e)
  {
    var m :| RepSteps(s, c, m) == Some(d);
    var n :| RepSteps(s, d, n) == Some(e);
    RepStepsAppend(s, c, m, d, n);
  }

  /** The counters of these turns on top of `base`. */
  function Regs(turns: seq<Turn>, base: seq<int>): seq<int>
  {
    if turns == [] then base else [turns[0].counter] + Regs(turns[1..], base)
  }

  function At(c: Copy, base: seq<int>): Config
  {
    Config(c.ip, Regs(c.turns, base))
  }

  function Past(c: Copy, base: seq<int>): Config
  {
    Config(c.ip + 1, Regs(c.turns, base))
  }

  /** Starting from `c`, and passing over each costed instruction, the machine comes to exactly the
      copies `cs`, one after the other, and then to `d`. */
  ghost predicate Follows(s: seq<Op>, base: seq<int>, c: Config, cs: seq<Copy>, d: Config)
    decreases |cs|
  {
    if cs == [] then Reach(s, c, d)
    else Reach(s, c, At(cs[0], base)) && Follows(s, base, Past(cs[0], base), cs[1..], d)
  }

  lemma FollowsFrom(s: seq<Op>, base: seq<int>, b: Config, c: Config, cs: seq<Copy>, d: Config)
    requires Reach(s, b, c) && Follows(s, base, c, cs, d)
    ensures Follows(s, base, b, cs, d)
  {
    ReachTrans(s, b, c, if cs == [] then d else At(cs[0], base));
  }

  lemma {:induction false} FollowsAppend(s: seq<Op>, base: seq<int>, c: Config, xs: seq<Copy>, d: Config, ys: seq<Copy>, e: Config)
    requires Follows(s, base, c, xs, d) && Follows(s, base, d, ys, e)
    ensures Follows(s, base, c, xs + ys, e)
    decreases |xs|
  {
    if xs == [] {
      FollowsFrom(s, base, c, d, ys, e);
      assert xs + ys == ys;
    } else {
      FollowsAppend(s, base, Past(xs[0], base), xs[1..], d, ys, e);
      assert (xs + ys)[1..] == xs[1..] + ys;
    }
  }

  /** Running a closed segment makes its copies in order. */
  lemma {:induction false} RunSegment(s: seq<Op>, base: seq<int>, lo: nat, hi: nat, turns: seq<Turn>)
    requires Linked(s) && EveryHalfRuns(s) && base != [] && lo <= hi <= |s| && Closed(Halves(s), lo, hi)
    ensures Follows(s, base, Config(lo, Regs(turns, base)), Copies(s, lo, hi, turns), Config(hi, Regs(turns, base)))
    decreases hi - lo, 0
  {
    var regs := Regs(turns, base);
    if lo == hi {
      ReachRefl(s, Config(lo, regs));
    } else {
      CopiesHead(s, lo, hi, turns);
      var mid: nat := After(s, lo);
      RunSegment(s, base, mid, hi, turns);
      if Costed(s[lo].kind) {
        ReachRefl(s, Config(lo, regs));
        ReachRefl(s, Config(lo + 1, regs));
        assert Follows(s, base, Config(lo + 1, regs), [], Config(lo + 1, regs));
      } else {
        RunHalf(s, base, lo, turns);
      }
      FollowsAppend(s, base, Config(lo, regs), First(s, lo, turns), Config(mid, regs), Copies(s, mid, hi, turns), Config(hi, regs));
    }
  }

  /** Running a half makes the copies of all its turns. */
  lemma {:induction false} RunHalf(s: seq<Op>, base: seq<int>, o: nat, turns: seq<Turn>)
    requires Linked(s) && EveryHalfRuns(s) && base != [] && o < |s| && Opens(s[o].kind)
    ensures o < s[o].mate < |s|
    ensures Follows(s, base, Config(o, Regs(turns, base)), Half(s, o, turns), Config(s[o].mate + 1, Regs(turns, base)))
    decreases s[o].mate - o, s[o].count + 1
  {
    HalfInside(s, o);
    assert LinkedAt(s, o) && LinkedAt(s, s[o].mate);
    var k := if s[o].kind == Inner2 then 1 else s[o].count;
    var start := Config(o + 1, Regs([Turn(Paren(s, o), k)] + turns, base));
    assert ([Turn(Paren(s, o), k)] + turns)[1..] == turns;
    ReachStep(s, Config(o, Regs(turns, base)), start);
    if s[o].kind == Inner2 {
      RunUpward(s, base, o, 1, turns);
    } else {
      RunDownward(s, base, o, s[o].count, turns);
    }
    FollowsFrom(s, base, Config(o, Regs(turns, base)), start, Half(s, o, turns), Config(s[o].mate + 1, Regs(turns, base)));
  }

  /** The end of a turn of `(A` leads to the next turn, or out of the half. */
  lemma DownwardStep(s: seq<Op>, base: seq<int>, o: nat, m: nat, k: int, turns: seq<Turn>, end: Config, next: Config)
    requires Linked(s) && base != [] && o < m < |s| && Opens(s[o].kind) && s[o].kind != Inner2 && s[o].mate == m && k >= 1
    requires end == Config(m, [k] + Regs(turns, base))
    requires next == if k > 1 then Config(o + 1, [k - 1] + Regs(turns, base)) else Config(m + 1, Regs(turns, base))
    ensures Reach(s, end, next)
  {
    assert LinkedAt(s, o) && LinkedAt(s, m);
    RegsNonempty(turns, base);
    ReachStep(s, end, next);
  }

  /** The end of a turn of `C)` leads to the next turn, or out of the half. */
  lemma UpwardStep(s: seq<Op>, base: seq<int>, o: nat, m: nat, k: int, turns: seq<Turn>, end: Config, next: Config)
    requires Linked(s) && base != [] && o < m < |s| && s[o].kind == Inner2 && s[o].mate == m && k <= s[o].count
    requires end == Config(m, [k] + Regs(turns, base))
    requires next == if k < s[o].count then Config(o + 1, [k + 1] + Regs(turns, base)) else Config(m + 1, Regs(turns, base))
    ensures Reach(s, end, next)
  {
    assert LinkedAt(s, o) && LinkedAt(s, m);
    RegsNonempty(turns, base);
    ReachStep(s, end, next);
  }

  lemma TurnRegs(p: nat, k: int, turns: seq<Turn>, base: seq<int>)
    ensures Regs([Turn(p, k)] + turns, base) == [k] + Regs(turns, base)
  {
    assert ([Turn(p, k)] + turns)[1..] == turns;
  }

  lemma ThenRest(s: seq<Op>, base: seq<int>, start: Config, xs: seq<Copy>, end: Config, next: Config, rest: seq<Copy>, exit: Config)
    requires Follows(s, base, start, xs, end) && Reach(s, end, next) && Follows(s, base, next, rest, exit)
    ensures Follows(s, base, start, xs + rest, exit)
  {
    FollowsFrom(s, base, end, next, rest, exit);
    FollowsAppend(s, base, start, xs, end, rest, exit);
  }

  lemma FollowsNothing(s: seq<Op>, base: seq<int>, c: Config)
    ensures Follows(s, base, c, [], c)
  {
    ReachRefl(s, c);
  }

  lemma {:induction false} RunDownward(s: seq<Op>, base: seq<int>, o: nat, k: int, turns: seq<Turn>)
    requires Linked(s) && EveryHalfRuns(s) && base != [] && o < |s| && Opens(s[o].kind) && s[o].kind != Inner2
    requires 1 <= k <= s[o].count
    ensures o < s[o].mate < |s|
    ensures Follows(s, base, Config(o + 1, Regs([Turn(Paren(s, o), k)] + turns, base)),
                    Downward(s, o, k, turns), Config(s[o].mate + 1, Regs(turns, base)))
    decreases s[o].mate - o, k
  {
    HalfInside(s, o);
    var m: nat, p, regs := s[o].mate, Paren(s, o), Regs(turns, base);
    var start, end, exit := Config(o + 1, [k] + regs), Config(m, [k] + regs), Config(m + 1, regs);
    var next := if k > 1 then Config(o + 1, [k - 1] + regs) else exit;
    TurnRegs(p, k, turns, base);
    RunSegment(s, base, o + 1, m, [Turn(p, k)] + turns);
    DownwardStep(s, base, o, m, k, turns, end, next);
    if k > 1 {
      TurnRegs(p, k - 1, turns, base);
      RunDownward(s, base, o, k - 1, turns);
    } else {
      FollowsNothing(s, base, exit);
    }
    ThenRest(s, base, start, Copies(s, o + 1, m, [Turn(p, k)] + turns), end, next, Downward(s, o, k - 1, turns), exit);
  }

  lemma {:induction false} RunUpward(s: seq<Op>, base: seq<int>, o: nat, k: int, turns: seq<Turn>)
    requires Linked(s) && EveryHalfRuns(s) && base != [] && o < |s| && s[o].kind == Inner2
    requires 1 <= k <= s[o].count
    ensures o < s[o].mate < |s|
    ensures Follows(s, base, Config(o + 1, Regs([Turn(Paren(s, o), k)] + turns, base)),
                    Upward(s, o, k, turns), Config(s[o].mate + 1, Regs(turns, base)))
    decreases s[o].mate - o, s[o].count - k + 1, 0
  {
    HalfInside(s, o);
    var m: nat, p, regs := s[o].mate, Paren(s, o), Regs(turns, base);
    var start, end, exit := Config(o + 1, [k] + regs), Config(m, [k] + regs), Config(m + 1, regs);
    var next := if k < s[o].count then Config(o + 1, [k + 1] + regs) else exit;
    TurnRegs(p, k, turns, base);
    RunSegment(s, base, o + 1, m, [Turn(p, k)] + turns);
    UpwardStep(s, base, o, m, k, turns, end, next);
    RunOnUpward(s, base, o, k, turns, next, exit);
    ThenRest(s, base, start, Copies(s, o + 1, m, [Turn(p, k)] + turns), end, next, Upward(s, o, k + 1, turns), exit);
  }

  /** What is left of `C)` after turn `k`. */
  lemma {:induction false} RunOnUpward(s: seq<Op>, base: seq<int>, o: nat, k: int, turns: seq<Turn>, next: Config, exit: Config)
    requires Linked(s) && EveryHalfRuns(s) && base != [] && o < |s| && s[o].kind == Inner2 && s[o].mate > o
    requires 1 <= k <= s[o].count
    requires exit == Config(s[o].mate + 1, Regs(turns, base))
    requires next == if k < s[o].count then Config(o + 1, [k + 1] + Regs(turns, base)) else exit
    ensures Follows(s, base, next, Upward(s, o, k + 1, turns), exit)
    decreases s[o].mate - o, s[o].count - k, 1
  {
    if k < s[o].count {
      TurnRegs(Paren(s, o), k + 1, turns, base);
      RunUpward(s, base, o, k + 1, turns);
    } else {
      FollowsNothing(s, base, exit);
    }
  }

  lemma RegsNonempty(turns: seq<Turn>, base: seq<int>)
    requires base != []
    ensures Regs(turns, base) != []
  {
  }
}
