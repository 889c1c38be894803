/** The hill daemon: slots with compiled programs, against which a newcomer is tested. */
module Gearlanced {
  import opened Ops
  import opened Links
  import opened Loops
  import opened Expansion
  import opened MatchState
  import opened MatchSteps
  import opened RepMachine
  import opened Faults
  import opened Parser
  import opened ThreadedCode
  import opened Compiler
  import opened Arena
  import opened ArenaLaws
  import opened Flip
  import opened CoreEngine

  const NTAPES := MAXTAPE - MINTAPE + 1

  /** What the daemon replies for one slot: the points listed first, and those listed second. */
  datatype Chunk = Chunk(first: seq<int>, second: seq<int>)

  /** The results of `p` as the left program against `q`, for all tape lengths. */
  ghost function Results(p: seq<Kind>, q: seq<Kind>, pol: Polarity): (r: seq<int>)
    ensures |r| == NTAPES
  {
    seq(NTAPES, i requires 0 <= i < NTAPES => JoustScore(p, q, pol, MINTAPE + i))
  }

  /** How many of the first `i` slots are unset. */
  function Unset(slots: seq<Option<seq<Kind>>>, i: nat): (n: nat)
    requires i <= |slots|
    ensures n <= i
  {
    if i == 0 then 0 else Unset(slots, i - 1) + if slots[i - 1] == None then 1 else 0
  }

  /** The reply for slot `i`: results of the newcomer `p`. A newcomer always loses to an unset slot. */
  ghost function Answer(slots: seq<Option<seq<Kind>>>, i: nat, p: seq<Kind>): Chunk
    requires i < |slots|
  {
    match slots[i]
    case None => Chunk(seq(NTAPES, _ => -1), seq(NTAPES, _ => -1))
    case Some(q) =>
      if Unset(slots, i) % 2 == 0 then Chunk(Results(p, q, Sieve), Results(p, q, Kettle))
      else Chunk(Results(p, q, Kettle), Results(p, q, Sieve))
  }

  /** Flipping the right program exchanges the polarities. */
  lemma JoustFlipped(p: seq<Kind>, q: seq<Kind>, size: nat)
    requires size >= 1
    ensures JoustScore(p, FlippedCode(q), Sieve, size) == JoustScore(p, q, Kettle, size)
    ensures JoustScore(p, FlippedCode(q), Kettle, size) == JoustScore(p, q, Sieve, size)
  {
    FlippedTwice(q);
    EngineIsJoust(p, FlippedCode(q), Sieve, size);
    EngineIsJoust(p, FlippedCode(q), Kettle, size);
    EngineIsJoust(p, q, Sieve, size);
    EngineIsJoust(p, q, Kettle, size);
  }

  /** The polarity that row `row` of the results has, when the newcomer was flipped before or not. */
  function RowPolarity(row: nat, flipped: bool): Polarity
  {
    if (row == 0) == flipped then Kettle else Sieve
  }

  /** The list of the newcomer, after an even or odd number of flips. */
  function AfterFlips(s: seq<Op>, flipped: bool): seq<Op>
  {
    if flipped then FlippedOps(s) else s
  }

  lemma AfterFlipsProgram(s: seq<Op>, flipped: bool)
    requires WellFormed(s)
    ensures WellFormed(AfterFlips(s, flipped)) && WellFormed(FlippedOps(AfterFlips(s, flipped)))
    ensures FlippedOps(AfterFlips(s, flipped)) == AfterFlips(s, !flipped)
    ensures Program(AfterFlips(s, flipped)) == if flipped then FlippedCode(Program(s)) else Program(s)
  {
    FlippedWellFormed(s);
    FlippedProgram(s);
    FlippedOpsTwice(s);
  }

  /** Whether a newcomer tested against the first `i` slots has been flipped an odd number of times. */
  function FlippedBefore(slots: seq<Option<seq<Kind>>>, i: nat): (flipped: bool)
    requires i <= |slots|
    ensures flipped == (i % 2 != Unset(slots, i) % 2)
  {
    if i == 0 then false
    else if slots[i - 1] == None then FlippedBefore(slots, i - 1)
    else !FlippedBefore(slots, i - 1)
  }

  /** A row of results, negated, shows the newcomer's own results in the polarity of that row. */
  lemma RowMeans(p: seq<Kind>, q: seq<Kind>, pol: Polarity, flipped: bool, size: nat)
    requires size >= 1
    ensures -JoustScore(q, if flipped then FlippedCode(p) else p, pol, size)
         == JoustScore(p, q, RowPolarity(Row(pol), flipped), size)
  {
    JoustFlipped(q, p, size);
    JoustMirrors(q, p, Sieve, size);
    JoustMirrors(q, p, Kettle, size);
  }

  /** What a row of the scores, negated, shows to the newcomer `p`. */
  ghost function AnswerRow(slot: Option<seq<Kind>>, p: seq<Kind>, flipped: bool, row: nat): (r: seq<int>)
    ensures |r| == NTAPES
  {
    match slot
    case None => seq(NTAPES, _ => -1)
    case Some(q) => Results(p, q, RowPolarity(row, flipped))
  }

  ghost predicate RowsMean(core: Core, slot: Option<seq<Kind>>, p: seq<Kind>, flipped: bool)
    requires core.Valid()
    reads core, core.a, core.b, core.scores
  {
    forall row: nat, k :: row < 2 && 0 <= k < NTAPES ==> -core.scores[row, MINTAPE + k] == AnswerRow(slot, p, flipped, row)[k]
  }

  lemma ScoredRows(core: Core, q: seq<Kind>, p: seq<Kind>, flipped: bool)
    requires core.Valid()
    requires core.Scored(q, if flipped then FlippedCode(p) else p, Sieve)
    requires core.Scored(q, if flipped then FlippedCode(p) else p, Kettle)
    ensures RowsMean(core, Some(q), p, flipped)
  {
    forall row: nat, k | row < 2 && 0 <= k < NTAPES
      ensures -core.scores[row, MINTAPE + k] == AnswerRow(Some(q), p, flipped, row)[k]
    {
      RowMeans(p, q, if row == 0 then Sieve else Kettle, flipped, MINTAPE + k);
    }
  }

  /** The daemon's choice of rows by the parity of `i` is the choice by the number of unset slots. */
  lemma AnswerRows(slots: seq<Option<seq<Kind>>>, i: nat, p: seq<Kind>)
    requires i < |slots|
    ensures var flipped := FlippedBefore(slots, i);
            Answer(slots, i, p) == Chunk(AnswerRow(slots[i], p, flipped, i % 2), AnswerRow(slots[i], p, flipped, 1 - i % 2))
  {
  }

  /** The reply to a test of the program `p`: one chunk for each slot. */
  ghost function Answers(slots: seq<Option<seq<Kind>>>, p: seq<Kind>, n: nat): (r: seq<Chunk>)
    requires n <= |slots|
    ensures |r| == n && forall i :: 0 <= i < n ==> r[i] == Answer(slots, i, p)
  {
    if n == 0 then [] else Answers(slots, p, n - 1) + [Answer(slots, n - 1, p)]
  }

  /** `code` is what the list `s` compiles to, and `m` stands for the same program. */
  ghost predicate CodeFor(code: seq<Word>, s: seq<Op>, m: seq<Op>)
  {
    && WellFormed(s) && code == Threaded(s)
    && Linked(m) && EndsDone(m) && Program(m) == Program(s)
  }

  class Daemon {
    const core: Core
    const hill: array<array?<Word>>
    /** The list behind the code of each slot, and the program it stands for. */
    ghost var lists: seq<seq<Op>>
    ghost var slots: seq<Option<seq<Kind>>>

    constructor (hillsize: nat)
      ensures Valid() && hill.Length == hillsize && slots == seq(hillsize, _ => None)
    {
      core := new Core();
      hill := new array?<Word>[hillsize](_ => null);
      lists := seq(hillsize, _ => []);
      slots := seq(hillsize, _ => None);
    }

    ghost function Codes(): set<object>
      reads hill
    {
      set i | 0 <= i < hill.Length && hill[i] != null :: hill[i]
    }

    /** `code` is in no slot. */
    ghost predicate Newcomer(code: array<Word>)
      reads hill
    {
      forall i :: 0 <= i < hill.Length ==> hill[i] != code
    }

    /** Slot `i` is unset, or holds the code of its list. */
    ghost predicate SlotAt(i: nat)
      reads this, hill, Codes()
    {
      i < hill.Length == |lists| == |slots| ==>
        if hill[i] == null then slots[i] == None
        else
          && (hill[i] as object) in Codes() && WellFormed(lists[i])
          && hill[i][..] == Threaded(lists[i]) && slots[i] == Some(Program(lists[i]))
    }

    ghost predicate Valid()
      reads this, hill, Codes(), core, core.a, core.b
    {
      && core.Valid() && |lists| == |slots| == hill.Length
      && forall i: nat {:trigger SlotAt(i)} :: SlotAt(i)
    }

    /** A command to unset a slot. */
    method Blank(index: nat) returns (ok: bool)
      requires Valid()
      modifies this`lists, this`slots, hill
      ensures Valid() && ok == (index < hill.Length)
      ensures slots == if ok then old(slots)[index := None] else old(slots)
    {
      if index >= hill.Length { return false; }
      hill[index] := null;
      slots := slots[index := None];
      forall i: nat {:trigger SlotAt(i)}
        ensures SlotAt(i)
      {
        assert old(SlotAt(i));
      }
      return true;
    }

    /** Puts new code into a slot. */
    method Put(index: nat, code: array<Word>, ghost s: seq<Op>)
      requires Valid() && index < hill.Length && WellFormed(s) && code[..] == Threaded(s)
      modifies this`lists, this`slots, hill
      ensures Valid() && slots == old(slots)[index := Some(Program(s))]
    {
      lists := lists[index := s];
      slots := slots[index := Some(Program(s))];
      hill[index] := code;
      forall i: nat {:trigger SlotAt(i)}
        ensures SlotAt(i)
      {
        assert old(SlotAt(i));
      }
    }

    /** A command to set a slot to the program in `list`. It succeeds exactly if there is such a slot and
        the parser accepts the program; otherwise it does nothing. */
    method Assign(index: nat, list: OpList) returns (ok: bool, r: Outcome, ghost m: seq<Op>, ghost u: seq<Op>)
      requires Valid() && list.Valid() && list.ops.Length == list.len && Raw(list.Contents())
      modifies this`lists, this`slots, hill, list`len, list.ops
      ensures Valid() && (ok <==> index < hill.Length && r == Ok)
      ensures index < hill.Length ==> Ruling(old(list.Contents()), r, m, u)
      ensures ok ==> Linked(m) && EndsDone(m) && slots == old(slots)[index := Some(Program(m))]
      ensures !ok ==> slots == old(slots)
    {
      ok, r, m, u := false, Ok, [], [];
      if index >= hill.Length { return; }
      ghost var codes := Codes();
      var code: array?<Word>;
      code, r, m, u := ReadProgram(list);
      assert Codes() == codes;
      if code == null { return; }
      Put(index, code, list.Contents());
      ok := true;
    }

    /** A newcomer wins nothing against an unset slot: the slot counts as the winner everywhere. */
    method FillScores()
      requires Valid()
      modifies core.scores
      ensures Valid() && forall r, n :: 0 <= r < 2 && MINTAPE <= n <= MAXTAPE ==> core.scores[r, n] == 1
    {
      for pol := 0 to 2
        invariant Valid() && forall r, n :: 0 <= r < pol && MINTAPE <= n <= MAXTAPE ==> core.scores[r, n] == 1
      {
        for tlen := MINTAPE to MAXTAPE + 1
          invariant Valid() && forall r, n :: 0 <= r < pol && MINTAPE <= n <= MAXTAPE ==> core.scores[r, n] == 1
          invariant forall n :: MINTAPE <= n < tlen ==> core.scores[pol, n] == 1
        {
          core.scores[pol, tlen] := 1;
        }
      }
    }

    /** One row of the scores, negated: the newcomer's points. */
    method Points(row: nat, ghost slot: Option<seq<Kind>>, ghost p: seq<Kind>, ghost flipped: bool) returns (points: seq<int>)
      requires Valid() && row < 2 && RowsMean(core, slot, p, flipped)
      ensures Valid() && RowsMean(core, slot, p, flipped) && points == AnswerRow(slot, p, flipped, row)
    {
      points := [];
      for tlen := MINTAPE to MAXTAPE + 1
        invariant |points| == tlen - MINTAPE
        invariant forall k :: 0 <= k < |points| ==> points[k] == -core.scores[row, MINTAPE + k]
      {
        points := points + [-core.scores[row, tlen]];
      }
    }

    /** Runs the newcomer against one slot. If it was set, its code is flipped afterwards. */
    method ScoreSlot(i: nat, code: array<Word>, ghost s: seq<Op>, ghost flipped: bool)
      requires Valid() && i < hill.Length && WellFormed(s)
      requires code[..] == Threaded(AfterFlips(s, flipped)) && Newcomer(code)
      modifies code, core.tape, core.scores, core.a, core.a.stack, core.b, core.b.stack
      ensures Valid() && RowsMean(core, slots[i], Program(s), flipped)
      ensures code[..] == Threaded(AfterFlips(s, if slots[i] == None then flipped else !flipped))
    {
      assert SlotAt(i);
      if hill[i] == null {
        FillScores();
      } else {
        RunSlot(hill[i], code, lists[i], s, flipped);
      }
    }

    method RunSlot(slot: array<Word>, code: array<Word>, ghost l: seq<Op>, ghost s: seq<Op>, ghost flipped: bool)
      requires Valid() && WellFormed(l) && WellFormed(s) && (slot as object) in Codes() && slot[..] == Threaded(l)
      requires code[..] == Threaded(AfterFlips(s, flipped)) && Newcomer(code)
      modifies code, core.tape, core.scores, core.a, core.a.stack, core.b, core.b.stack
      ensures Valid() && RowsMean(core, Some(Program(l)), Program(s), flipped)
      ensures code[..] == Threaded(AfterFlips(s, !flipped))
    {
      AfterFlipsProgram(s, flipped);
      core.RunAll(slot, code, l, AfterFlips(s, flipped));
      ScoredRows(core, Program(l), Program(s), flipped);
    }

    /** `code` has been run against the first `i` slots. */
    ghost predicate Tested(i: nat, code: array<Word>, s: seq<Op>)
      reads this, hill, Codes(), core, core.a, core.b, code
    {
      && Valid() && Newcomer(code) && WellFormed(s) && i <= |slots|
      && code[..] == Threaded(AfterFlips(s, FlippedBefore(slots, i)))
    }

    /** The reply for one slot. Running the newcomer has flipped its code once for each slot that was
        set; the daemon takes `i` for that number. */
    method TestSlot(i: nat, code: array<Word>, ghost s: seq<Op>) returns (chunk: Chunk)
      requires i < hill.Length && Tested(i, code, s)
      modifies code, core.tape, core.scores, core.a, core.a.stack, core.b, core.b.stack
      ensures Tested(i + 1, code, s) && chunk == Answer(slots, i, Program(s))
    {
      ghost var p, flipped := Program(s), FlippedBefore(slots, i);
      ScoreSlot(i, code, s, flipped);
      AnswerRows(slots, i, p);
      var sieve := i % 2;
      var first := Points(sieve, slots[i], p, flipped);
      var second := Points(1 - sieve, slots[i], p, flipped);
      chunk := Chunk(first, second);
    }

    /** A command to test the program in `list` against all slots. It succeeds exactly if the parser
        accepts the program. */
    method Test(list: OpList) returns (r: Outcome, reply: seq<Chunk>, ghost m: seq<Op>, ghost u: seq<Op>)
      requires Valid() && list.Valid() && list.ops.Length == list.len && Raw(list.Contents())
      modifies list`len, list.ops, core.tape, core.scores, core.a, core.a.stack, core.b, core.b.stack
      ensures Valid() && Ruling(old(list.Contents()), r, m, u)
      ensures r == Ok ==> Linked(m) && EndsDone(m) && reply == Answers(slots, Program(m), |slots|)
      ensures r != Ok ==> reply == []
    {
      reply := [];
      ghost var codes := Codes();
      var code: array?<Word>;
      code, r, m, u := ReadProgram(list);
      if code == null { return; }
      assert Newcomer(code) by { assert Codes() == codes && code !in codes; }
      reply := TestAll(code, list.Contents());
    }

    method TestAll(code: array<Word>, ghost s: seq<Op>) returns (reply: seq<Chunk>)
      requires Valid() && WellFormed(s) && code[..] == Threaded(s)
      requires Newcomer(code)
      modifies code, core.tape, core.scores, core.a, core.a.stack, core.b, core.b.stack
      ensures Valid() && reply == Answers(slots, Program(s), |slots|)
    {
      ghost var p, hillslots := Program(s), slots;
      reply := [];
      for i := 0 to hill.Length
        invariant Tested(i, code, s) && reply == Answers(hillslots, p, i)
      {
        var chunk := TestSlot(i, code, s);
        reply := reply + [chunk];
      }
    }
  }

  /** Parses and compiles a program; there is no code if the parser rejects it. */
  method ReadProgram(list: OpList) returns (code: array?<Word>, r: Outcome, ghost m: seq<Op>, ghost u: seq<Op>)
    requires list.Valid() && list.ops.Length == list.len && Raw(list.Contents())
    modifies list`len, list.ops
    ensures list.Valid() && Ruling(old(list.Contents()), r, m, u) && (code == null <==> r != Ok)
    ensures code != null ==> fresh(code) && CodeFor(code[..], list.Contents(), m)
  {
    r, m, u := list.Parse();
    if r != Ok { return null, r, m, u; }
    code := Compile(list);
  }
}
