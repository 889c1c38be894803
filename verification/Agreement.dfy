/** The engine and the reference interpreter on the same tokens: both parse, both run all matches, and the
    results are compared. */
module Agreement {
  import opened Ops
  import opened Links
  import opened Loops
  import opened Expansion
  import opened Binding
  import opened Faults
  import opened Parser
  import opened ThreadedCode
  import opened Arena
  import opened Skipping
  import opened EgoRun
  import opened EgoJoust
  import EgoParser
  import opened CoreEngine
  import opened Gearlanced
  import opened ZeroCounts

  /** The interpreter accepts the tokens, and runs the program that they stand for. */
  ghost predicate Fair(raw: seq<Op>)
  {
    && (exists t: seq<Op> {:trigger EgoParser.Goal(raw, t)} :: EgoParser.Goal(raw, t))
    && forall t: seq<Op> {:trigger EgoParser.Goal(raw, t)} :: EgoParser.Goal(raw, t) ==> Accepted(t) && EgoProgram(t) == Program(t)
  }

  /** For example when no paren with a brace has count 0, or what is in these braces does nothing. */
  lemma FairIfNothingLost(raw: seq<Op>, t: seq<Op>)
    requires EgoParser.Goal(raw, t)
    requires forall u: seq<Op> {:trigger EgoParser.Goal(raw, u)} :: EgoParser.Goal(raw, u) ==> Unmixed(u) && !Lost(u)
    ensures Fair(raw)
  {
    forall u: seq<Op> {:trigger EgoParser.Goal(raw, u)} | EgoParser.Goal(raw, u)
      ensures Accepted(u) && EgoProgram(u) == Program(u)
    {
      ProgramsAgree(u);
    }
  }

  /** The same scores, for every tape length and polarity. */
  lemma SameScore(rawA: seq<Op>, rawB: seq<Op>, mA: seq<Op>, mB: seq<Op>, eA: seq<Op>, eB: seq<Op>, pol: Polarity, size: nat)
    requires Linked(mA) && EndsDone(mA) && SameTexts(rawA, mA) && Linked(mB) && EndsDone(mB) && SameTexts(rawB, mB)
    requires Fair(rawA) && Fair(rawB) && EgoParser.Goal(rawA, eA) && EgoParser.Goal(rawB, eB) && size >= 1
    ensures Accepted(eA) && Accepted(eB)
    ensures JoustScore(EgoProgram(eA), EgoProgram(eB), pol, size) == JoustScore(Program(mA), Program(mB), pol, size)
  {
    SameTokens(rawA, mA, eA);
    SameTokens(rawB, mB, eB);
  }

  lemma SameTokens(raw: seq<Op>, m: seq<Op>, e: seq<Op>)
    requires Linked(m) && EndsDone(m) && SameTexts(raw, m) && EgoParser.Goal(raw, e)
    ensures Program(e) == Program(m)
  {
    forall i: nat {:trigger SameText(m, e, i)}
      ensures SameText(m, e, i)
    {
      assert SameText(raw, m, i) && SameText(raw, e, i);
    }
    SameProgram(m, e);
  }

  /** The list that the commands of the interpreter's parser hold. */
  function Rebuilt(cmds: seq<EgoParser.Cmd>): (e: seq<Op>)
    ensures |e| == |cmds| + 1
  {
    seq(|cmds| + 1, i requires 0 <= i <= |cmds| => if i < |cmds| then EgoParser.AsOp(cmds, i) else Op(Done, -1, -1, -1))
  }

  lemma RebuiltAt(t: seq<Op>, i: nat)
    requires EgoParser.Nested(t) && EndsDone(t) && i < |t|
    ensures |Rebuilt(EgoParser.Cmds(t, |t| - 1))| == |t|
    ensures var o := Rebuilt(EgoParser.Cmds(t, |t| - 1))[i];
            && o.kind == t[i].kind && (!Costed(o.kind) ==> o == t[i]) && (IsLoop(o.kind) ==> o.mate == t[i].mate)
            && (Costed(o.kind) ==> o.inner == -1)
  {
    if i < |t| - 1 { EgoParser.CmdsHold(t, i); }
  }

  lemma RebuiltGoal(raw: seq<Op>, t: seq<Op>)
    requires EgoParser.Goal(raw, t)
    ensures EgoParser.Goal(raw, Rebuilt(EgoParser.Cmds(t, |t| - 1)))
  {
    var e := Rebuilt(EgoParser.Cmds(t, |t| - 1));
    forall i: nat | i < |t|
      ensures Halves(e)[i] == Halves(t)[i] && Blocks(e)[i] == Blocks(t)[i] && Brackets(e)[i] == Brackets(t)[i]
      ensures e[i].kind == t[i].kind && (!Costed(e[i].kind) ==> e[i] == t[i]) && (Costed(e[i].kind) ==> e[i].inner == -1)
    {
      RebuiltAt(t, i);
    }
    assert Halves(e) == Halves(t) && Blocks(e) == Blocks(t) && Brackets(e) == Brackets(t);
    SameLinks(t, e);
    forall i: nat {:trigger SameText(raw, e, i)}
      ensures SameText(raw, e, i)
    {
      assert SameText(raw, t, i);
    }
  }

  /** Only what costed instructions hold may differ. */
  lemma SameLinks(t: seq<Op>, e: seq<Op>)
    requires EgoParser.Nested(t) && EndsDone(t) && |e| == |t|
    requires Halves(e) == Halves(t) && Blocks(e) == Blocks(t) && Brackets(e) == Brackets(t)
    requires forall i: nat {:trigger e[i]} :: i < |t| ==>
               e[i].kind == t[i].kind && (!Costed(e[i].kind) ==> e[i] == t[i]) && (Costed(e[i].kind) ==> e[i].inner == -1)
    ensures EgoParser.Nested(e) && EndsDone(e)
  {
    forall i: nat {:trigger LinkedAt(e, i)} | i < |e|
      ensures LinkedAt(e, i)
    {
      assert LinkedAt(t, i);
    }
    forall i: nat {:trigger BracketAt(e, Brackets(e), i)} | i < |e|
      ensures BracketAt(e, Brackets(e), i)
    {
      assert BracketAt(t, Brackets(t), i) && LinkedAt(t, i);
    }
  }

  /** The interpreter reads a program. */
  method ReadEgo(raw: seq<Op>) returns (prog: array<Op>, ghost e: seq<Op>)
    requires Raw(raw) && Fair(raw)
    ensures fresh(prog) && prog[..] == e && EgoParser.Goal(raw, e)
  {
    var cmds, fine := EgoParser.Parse(raw);
    e := Rebuilt(cmds);
    prog := new Op[|cmds| + 1](i requires 0 <= i <= |cmds| => Rebuilt(cmds)[i]);
    ghost var t :| EgoParser.Goal(raw, t);
    RebuiltGoal(raw, t);
  }

  /** A row of scores, one for each tape length. */
  ghost predicate RowIs(row: seq<int>, p: seq<Kind>, q: seq<Kind>, pol: Polarity)
  {
    |row| == MAXTAPE + 1 - MINTAPE && forall k: nat {:trigger row[k]} :: k < |row| ==> row[k] == JoustScore(p, q, pol, MINTAPE + k)
  }

  /** All matches in one polarity, run by the interpreter; a win of the left program counts as 1. */
  method EgoRow(progA: array<Op>, progB: array<Op>, pol: Polarity, ghost eA: seq<Op>, ghost eB: seq<Op>) returns (row: seq<int>)
    requires progA[..] == eA && progB[..] == eB && Accepted(eA) && Accepted(eB)
    ensures RowIs(row, EgoProgram(eA), EgoProgram(eB), pol)
  {
    row := [];
    for n := MINTAPE to MAXTAPE + 1
      invariant |row| == n - MINTAPE
      invariant forall k: nat {:trigger row[k]} :: k < |row| ==> row[k] == JoustScore(EgoProgram(eA), EgoProgram(eB), pol, MINTAPE + k)
    {
      var result := RunJoust(progA, progB, pol, n, eA, eB);
      row := row + [-result];
    }
  }

  /** The row that the engine has filled in. */
  method EngineRow(core: Core, pol: Polarity, ghost pA: seq<Kind>, ghost pB: seq<Kind>) returns (row: seq<int>)
    requires core.Valid() && core.Scored(pA, pB, pol)
    ensures RowIs(row, pA, pB, pol)
  {
    row := [];
    for n := MINTAPE to MAXTAPE + 1
      invariant |row| == n - MINTAPE
      invariant forall k: nat {:trigger row[k]} :: k < |row| ==> row[k] == JoustScore(pA, pB, pol, MINTAPE + k)
    {
      row := row + [core.scores[Row(pol), n]];
    }
  }

  lemma SameRows(rawA: seq<Op>, rawB: seq<Op>, mA: seq<Op>, mB: seq<Op>, eA: seq<Op>, eB: seq<Op>, pol: Polarity, engine: seq<int>, ego: seq<int>)
    requires Linked(mA) && EndsDone(mA) && SameTexts(rawA, mA) && Linked(mB) && EndsDone(mB) && SameTexts(rawB, mB)
    requires Fair(rawA) && Fair(rawB) && EgoParser.Goal(rawA, eA) && EgoParser.Goal(rawB, eB)
    requires Accepted(eA) && Accepted(eB) && RowIs(ego, EgoProgram(eA), EgoProgram(eB), pol)
    requires RowIs(engine, Program(mA), Program(mB), pol)
    ensures engine == ego
  {
    forall k: nat | k < |ego|
      ensures engine[k] == ego[k]
    {
      SameScore(rawA, rawB, mA, mB, eA, eB, pol, MINTAPE + k);
    }
  }

  /** The scores of all matches, in both polarities. */
  datatype Scores = Scores(sieve: seq<int>, kettle: seq<int>)

  ghost predicate ScoresAre(s: Scores, p: seq<Kind>, q: seq<Kind>)
  {
    RowIs(s.sieve, p, q, Sieve) && RowIs(s.kettle, p, q, Kettle)
  }

  /** The interpreter reads both programs and runs all matches. */
  method RunEgo(rawA: seq<Op>, rawB: seq<Op>) returns (ego: Scores, ghost eA: seq<Op>, ghost eB: seq<Op>)
    requires Raw(rawA) && Raw(rawB) && Fair(rawA) && Fair(rawB)
    ensures EgoParser.Goal(rawA, eA) && EgoParser.Goal(rawB, eB) && Accepted(eA) && Accepted(eB)
    ensures ScoresAre(ego, EgoProgram(eA), EgoProgram(eB))
  {
    var progA, progB;
    progA, eA := ReadEgo(rawA);
    progB, eB := ReadEgo(rawB);
    var sieve := EgoRow(progA, progB, Sieve, eA, eB);
    var kettle := EgoRow(progA, progB, Kettle, eA, eB);
    ego := Scores(sieve, kettle);
  }

  /** `m` is the list of the tokens with their links. */
  ghost predicate ListOf(raw: seq<Op>, m: seq<Op>)
  {
    Linked(m) && EndsDone(m) && SameTexts(raw, m)
  }

  /** The engine reads both programs and, if it accepts them, runs all matches. */
  method RunEngine(rawA: seq<Op>, rawB: seq<Op>)
    returns (a: Outcome, b: Outcome, engine: Scores, ghost mA: seq<Op>, ghost uA: seq<Op>, ghost mB: seq<Op>, ghost uB: seq<Op>)
    requires Raw(rawA) && Raw(rawB)
    ensures Ruling(rawA, a, mA, uA) && (a == Ok ==> Ruling(rawB, b, mB, uB))
    ensures a == Ok && b == Ok ==> ListOf(rawA, mA) && ListOf(rawB, mB) && ScoresAre(engine, Program(mA), Program(mB))
  {
    engine, b, mB, uB := Scores([], []), Ok, [], [];
    var listA := new OpList(rawA);
    var listB := new OpList(rawB);
    var codeA: array?<Word>, codeB: array?<Word>;
    codeA, a, mA, uA := ReadProgram(listA);
    if codeA == null { return; }
    ghost var sA := listA.Contents();
    codeB, b, mB, uB := ReadProgram(listB);
    if codeB == null { return; }
    ghost var sB := listB.Contents();
    var core := new Core();
    core.RunAll(codeA, codeB, sA, sB);
    var sieve := EngineRow(core, Sieve, Program(sA), Program(sB));
    var kettle := EngineRow(core, Kettle, Program(sA), Program(sB));
    engine := Scores(sieve, kettle);
  }

  /** Both read the two programs and run all matches. If the engine accepts them, all scores are the same,
      and they are those of the simultaneous arena. */
  method Check(rawA: seq<Op>, rawB: seq<Op>)
    returns (a: Outcome, b: Outcome, engine: Scores, ego: Scores, ghost mA: seq<Op>, ghost uA: seq<Op>, ghost mB: seq<Op>, ghost uB: seq<Op>)
    requires Raw(rawA) && Raw(rawB) && Fair(rawA) && Fair(rawB)
    ensures Ruling(rawA, a, mA, uA) && (a == Ok ==> Ruling(rawB, b, mB, uB))
    ensures a == Ok && b == Ok ==> ListOf(rawA, mA) && ListOf(rawB, mB) && engine == ego
                                   && ScoresAre(engine, Program(mA), Program(mB))
  {
    ghost var eA, eB;
    ego, eA, eB := RunEgo(rawA, rawB);
    a, b, engine, mA, uA, mB, uB := RunEngine(rawA, rawB);
    if a == Ok && b == Ok {
      SameRows(rawA, rawB, mA, mB, eA, eB, Sieve, engine.sieve, ego.sieve);
      SameRows(rawA, rawB, mA, mB, eA, eB, Kettle, engine.kettle, ego.kettle);
    }
  }
}
