/** The parser's passes over the op list, in place. */
module Parser {
  import opened Nest
  import opened Ops
  import opened Links
  import opened MatchState
  import opened Levels
  import opened MatchSteps
  import opened Acceptance
  import opened Faults
  import opened Clean
  import opened Retype
  import opened Compact
  import opened Loops
  import opened Expansion
  import opened CleanMeaning

  /** The parens and braces are the reason for a rejection, not the brackets. */
  predicate OfParens(r: Outcome)
  {
    r.ParenNestTooDeep? || r.BraceWithoutParen? || r.SecondBrace? || r.BraceEndWithoutBrace?
    || r.ParenEndWithoutParen? || r.BraceNotEnded? || r.ParenNotEnded?
  }

  /** Why `r` is the right answer for parens that are rejected. */
  ghost predicate Rejected(raw: seq<Op>, r: Outcome)
  {
    OfParens(r) && Blamed(raw, r) && if r == ParenNestTooDeep then TooDeep(raw, Rep1, Rep2) else Unlinkable(raw)
  }

  /** The parens of `raw` can be linked as the parser demands. */
  ghost predicate ParensFine(raw: seq<Op>)
  {
    !Unlinkable(raw) && !TooDeep(raw, Rep1, Rep2)
  }

  /** The brackets of `u` can be nested. */
  ghost predicate BracketsFine(u: seq<Op>)
  {
    !Hopeless(u) && !TooDeep(u, Loop1, Loop2)
  }

  /** What the parser has to answer for the tokens `raw`: `m` links their parens and braces, and `u` is
      what remains after the clean-up. */
  ghost predicate Ruling(raw: seq<Op>, r: Outcome, m: seq<Op>, u: seq<Op>)
  {
    && (OfParens(r) <==> !ParensFine(raw))
    && (OfParens(r) ==> Rejected(raw, r))
    && (ParensFine(raw) ==> Faultless(raw) && Linking(raw, m) && Squeezed(Final(m), u) && (r == Ok <==> BracketsFine(u)))
    && (r == Ok ==> LoopFaultless(u))
    && (!OfParens(r) && r != Ok ==> LoopRejected(u, r))
  }

  lemma ParensAreFine(raw: seq<Op>, m: seq<Op>)
    requires Linking(raw, m) && !TooDeep(raw, Rep1, Rep2)
    ensures ParensFine(raw)
  {
  }

  lemma RuledParens(raw: seq<Op>, r: Outcome, m: seq<Op>, u: seq<Op>)
    requires Rejected(raw, r)
    ensures Ruling(raw, r, m, u)
  {
  }

  lemma RuledBrackets(raw: seq<Op>, r: Outcome, m: seq<Op>, u: seq<Op>)
    requires ParensFine(raw) && Faultless(raw) && Linking(raw, m) && Squeezed(Final(m), u) && LoopRejected(u, r) && r != Ok
    ensures Ruling(raw, r, m, u)
  {
  }

  lemma RuledAccepted(raw: seq<Op>, m: seq<Op>, u: seq<Op>)
    requires ParensFine(raw) && Faultless(raw) && Linking(raw, m) && Squeezed(Final(m), u) && BracketsFine(u) && LoopFaultless(u)
    ensures Ruling(raw, Ok, m, u)
  {
  }

  lemma EndFaultless(raw: seq<Op>)
    requires NoFaultBefore(raw, |raw|) && OpenParens(raw, |raw|) == 0
    ensures Faultless(raw)
  {
    NoFaultHere(raw, |raw|);
  }

  lemma LoopEndFaultless(u: seq<Op>)
    requires NoLoopFaultBefore(u, |u|) && OpenBrackets(u, |u|) == 0
    ensures LoopFaultless(u)
  {
    assert forall r: Outcome {:trigger LoopFaultAt(u, |u|, r)} :: !LoopFaultAt(u, |u|, r);
  }

  lemma BracketsHope(u: seq<Op>, ps: seq<int>)
    requires Bracketing(u, ps)
    ensures !Hopeless(u)
  {
  }

  /** The scan of the parens has come to position `at`. */
  ghost predicate Scanning(raw: seq<Op>, s: seq<Op>, at: nat, c: Open, du: seq<nat>,
                           stack: seq<nat>, idstack: seq<nat>, istack: seq<nat>, idepth: nat)
  {
    && State(raw, s, at, Positions(c), du) && Stacks(raw, s, at, c, du, stack, idstack, istack, idepth)
    && c == Scanned(raw, at) && CountedBack(raw, s, at) && Fits(raw, Rep1, Rep2, at, |stack|)
    && NoFaultBefore(raw, at)
  }

  lemma NothingMatched(raw: seq<Op>)
    requires Raw(raw)
    ensures Scanning(raw, raw, 0, Nothing, [], [], [], [], 0)
  {
    forall i: nat {:trigger Unread(raw, raw, i)} | i < |raw|
      ensures Unread(raw, raw, i)
    {
      assert RawAt(raw, i);
    }
  }

  /** The next token is as written; the stacks tell which kind of token was opened last. */
  lemma NextToken(raw: seq<Op>, s: seq<Op>, at: nat, c: Open, du: seq<nat>,
                  stack: seq<nat>, idstack: seq<nat>, istack: seq<nat>, idepth: nat)
    requires at < |s| && Scanning(raw, s, at, c, du, stack, idstack, istack, idepth)
    ensures at < |raw| && RawAt(raw, at) && s[at] == raw[at]
    ensures Costed(raw[at].kind) || raw[at].kind.Rep1? || raw[at].kind.Inner1? || raw[at].kind.Inner2? || raw[at].kind.Rep2?
    ensures (c.Counted? <==> idepth > 0) && (stack == [] ==> !c.Frame?) && |stack| <= MAXNEST
  {
    assert Unread(raw, s, at);
  }

  lemma OpenParen(raw: seq<Op>, s: seq<Op>, at: nat, c: Open, du: seq<nat>,
                  stack: seq<nat>, idstack: seq<nat>, istack: seq<nat>, idepth: nat)
    requires at < |s| && Scanning(raw, s, at, c, du, stack, idstack, istack, idepth)
    requires s[at].kind == Rep1 && |stack| < MAXNEST
    ensures Scanning(raw, s, at + 1, Frame(at, c), du + [at], stack + [at], idstack + [idepth], istack, 0)
  {
    assert Unread(raw, s, at);
    StepOpen(raw, s, at, c, du, stack, idstack, istack, idepth);
    KeepsCounting(raw, s, s, at);
    ParenPasses(raw, at);
  }

  lemma ReadOther(raw: seq<Op>, s: seq<Op>, at: nat, c: Open, du: seq<nat>,
                  stack: seq<nat>, idstack: seq<nat>, istack: seq<nat>, idepth: nat)
    requires at < |s| && Scanning(raw, s, at, c, du, stack, idstack, istack, idepth) && Costed(s[at].kind)
    ensures Scanning(raw, s, at + 1, c, du, stack, idstack, istack, idepth)
  {
    assert Unread(raw, s, at);
    StepPlain(raw, s, at, c, du, stack, idstack, istack, idepth);
    KeepsCounting(raw, s, s, at);
    OtherPasses(raw, at);
  }

  /** Why `r` is the right answer for brackets that are rejected. */
  ghost predicate LoopRejected(u: seq<Op>, r: Outcome)
  {
    !OfParens(r) && LoopBlamed(u, r) && if r == BracketNestTooDeep then TooDeep(u, Loop1, Loop2) else Hopeless(u)
  }

  /** The scan of the brackets has come to position `at`. */
  ghost predicate LoopScanning(u: seq<Op>, s: seq<Op>, at: nat, c: Open, stack: seq<nat>, idstack: seq<nat>, idepth: nat)
  {
    && LoopState(u, s, at, c) && Forced(u, s, at)
    && stack == Frames(c) && idstack == Saved(c) && idepth == Level(c) && Fits(u, Loop1, Loop2, at, |stack|)
    && c == LoopScanned(u, at) && NoLoopFaultBefore(u, at)
  }

  lemma NextLoopToken(u: seq<Op>, s: seq<Op>, at: nat, c: Open, stack: seq<nat>, idstack: seq<nat>, idepth: nat)
    requires Linked(u) && at < |u| && LoopScanning(u, s, at, c, stack, idstack, idepth)
    ensures s[at].kind == u[at].kind && LinkedAt(u, at)
    ensures (c.Counted? <==> idepth > 0) && (stack == [] ==> !c.Frame?) && |stack| <= MAXNEST
  {
    assert LinkedAt(u, at);
  }

  lemma OpenLoop(u: seq<Op>, s: seq<Op>, at: nat, c: Open, stack: seq<nat>, idstack: seq<nat>, idepth: nat)
    requires Linked(u) && at < |u| && LoopScanning(u, s, at, c, stack, idstack, idepth)
    requires u[at].kind == Loop1 && |stack| < MAXNEST
    ensures LoopScanning(u, s[at := s[at].(mate := -1)], at + 1, Frame(at, c), stack + [at], idstack + [idepth], 0)
  {
    LoopOpen(u, s, at, c);
    LoopPasses(u, at);
    ForcedSame(u, s, s[at := s[at].(mate := -1)], at);
  }

  lemma OpenBlock(u: seq<Op>, s: seq<Op>, at: nat, c: Open, stack: seq<nat>, idstack: seq<nat>, idepth: nat)
    requires Linked(u) && at < |u| && LoopScanning(u, s, at, c, stack, idstack, idepth)
    requires u[at].kind == Rep1 || u[at].kind == IRep1 || u[at].kind == Inner1
    ensures LoopScanning(u, s, at + 1, Counted(at, c), stack, idstack, idepth + 1)
  {
    assert LinkedAt(u, at);
    LoopBlockOpen(u, s, at, c);
    LoopPasses(u, at);
    ForcedSame(u, s, s, at);
  }

  lemma EndBlock(u: seq<Op>, s: seq<Op>, at: nat, c: Open, stack: seq<nat>, idstack: seq<nat>, idepth: nat)
    requires Linked(u) && at < |u| && LoopScanning(u, s, at, c, stack, idstack, idepth)
    requires u[at].kind == Inner2 || u[at].kind == IRep2 || u[at].kind == Rep2
    requires idepth > 0
    ensures c.Counted? && LoopScanning(u, s, at + 1, c.outer, stack, idstack, idepth - 1)
  {
    assert LinkedAt(u, at);
    LoopBlockClose(u, s, at, c);
    LoopPasses(u, at);
    ForcedSame(u, s, s, at);
  }

  lemma EndLoop(u: seq<Op>, s: seq<Op>, at: nat, c: Open, stack: seq<nat>, idstack: seq<nat>)
    requires Linked(u) && at < |u| && LoopScanning(u, s, at, c, stack, idstack, 0) && u[at].kind == Loop2 && stack != []
    ensures c.Frame? && c.at == stack[|stack| - 1] < at && |idstack| == |stack|
    ensures LoopScanning(u, LoopClosed(s, at, c.at), at + 1, c.outer,
                         stack[..|stack| - 1], idstack[..|stack| - 1], idstack[|stack| - 1])
  {
    LoopClose(u, s, at, c);
    LoopPasses(u, at);
    ForcedClose(u, s, at, c);
  }

  lemma PassToken(u: seq<Op>, s: seq<Op>, at: nat, c: Open, stack: seq<nat>, idstack: seq<nat>, idepth: nat)
    requires Linked(u) && at < |u| && LoopScanning(u, s, at, c, stack, idstack, idepth)
    requires Costed(u[at].kind) && !IsLoop(u[at].kind)
    ensures LoopScanning(u, s, at + 1, c, stack, idstack, idepth)
  {
    LoopPlain(u, s, at, c);
    LoopPasses(u, at);
    ForcedSame(u, s, s, at);
  }

  /** A token at fault is rejected for good reason. */
  lemma RefuseToken(raw: seq<Op>, s: seq<Op>, at: nat, c: Open, du: seq<nat>,
                    stack: seq<nat>, idstack: seq<nat>, istack: seq<nat>, idepth: nat, r: Outcome)
    requires at < |s| && Scanning(raw, s, at, c, du, stack, idstack, istack, idepth) && FaultAt(raw, at, r)
    requires raw[at].kind != Inner1
    ensures Rejected(raw, r)
  {
    if r == ParenNestTooDeep {
      OpensTooMany(raw, Rep1, Rep2, at, |stack|);
    } else {
      if c.Frame? { assert |Frames(c)| > 0; }
      RejectEnd(raw, s, at, c, du);
    }
  }

  lemma RefuseLoop(u: seq<Op>, s: seq<Op>, at: nat, c: Open, stack: seq<nat>, idstack: seq<nat>, idepth: nat, r: Outcome)
    requires Linked(u) && at < |u| && LoopScanning(u, s, at, c, stack, idstack, idepth) && LoopFaultAt(u, at, r)
    ensures LoopRejected(u, r)
  {
    assert LinkedAt(u, at);
    if r == BracketNestTooDeep {
      OpensTooMany(u, Loop1, Loop2, at, |stack|);
    } else {
      if c.Frame? { assert |Frames(c)| > 0; }
      CannotEnd(u, s, at, c);
    }
  }

  class OpList {
    var ops: array<Op>
    var len: nat

    ghost predicate Valid()
      reads this
    {
      len <= ops.Length
    }

    ghost function Contents(): seq<Op>
      requires Valid()
      reads this, ops
    {
      ops[..len]
    }

    constructor (s: seq<Op>)
      ensures Valid() && fresh(ops) && ops.Length == len && Contents() == s
    {
      len := |s|;
      ops := new Op[|s|](i requires 0 <= i < |s| => s[i]);
    }

    // The link updates of the four tokens.

    method LinkBrace(at: nat, q: nat)
      requires Valid() && q < at < len
      modifies ops
      ensures Contents() == BraceOpened(old(Contents()), at, q)
    {
      ops[at] := ops[at].(mate := q, inner := -1);
      ops[q] := ops[q].(kind := IRep1, mate := at);
    }

    method LinkBraceEnd(at: nat, b: nat)
      requires Valid() && b < at < len
      modifies ops
      ensures Contents() == BraceClosed(old(Contents()), at, b)
    {
      ops[at] := ops[at].(mate := -1, inner := b);
      ops[b] := ops[b].(inner := at);
    }

    method LinkParenEnd(at: nat, p: nat)
      requires Valid() && p < at < len
      requires ops[p].kind == IRep1 ==> 0 <= ops[p].mate < len && BracedParen(Contents(), at, p, ops[p].mate, ops[ops[p].mate].inner)
      modifies ops
      ensures Contents() == ParenEnded(old(Contents()), at, p)
    {
      var count := ops[at].count;
      if ops[p].kind == IRep1 {
        var i1 := ops[p].mate;
        var i2 := ops[i1].inner;
        ops[at] := ops[at].(kind := IRep2, inner := p, mate := i2);
        ops[p] := ops[p].(inner := at, count := count);
        ops[i1] := ops[i1].(count := count);
        ops[i2] := ops[i2].(mate := at, count := count);
      } else {
        ops[at] := ops[at].(inner := -1, mate := p);
        ops[p] := ops[p].(mate := at, count := count);
      }
    }

    /** `MatchToken` at a `)` that ends the innermost paren. */
    method EndParen(at: nat, stack: seq<nat>, idstack: seq<nat>, istack: seq<nat>,
                    ghost raw: seq<Op>, ghost s: seq<Op>, ghost c: Open, ghost du: seq<nat>) returns (ghost s': seq<Op>)
      requires Valid() && at < len && Contents() == s && s[at].kind == Rep2 && |stack| > 0
      requires Scanning(raw, s, at, c, du, stack, idstack, istack, 0)
      modifies ops
      ensures Contents() == s' && |du| > 0 && c.Frame? && |idstack| == |stack|
      ensures Scanning(raw, s', at + 1, c.outer, du[..|du| - 1],
                       stack[..|stack| - 1], idstack[..|stack| - 1], istack, idstack[|stack| - 1])
    {
      var p := stack[|stack| - 1];
      assert Unread(raw, s, at);
      StepParenEnd(raw, s, at, c, du, stack, idstack, istack);
      ClosingParen(raw, s, at, c, du);
      EndPasses(raw, at);
      LinkParenEnd(at, p);
      s' := Contents();
      forall x | 0 <= x < at && raw[x].kind == Inner1
        ensures s'[x].mate == s[x].mate
      {
        EndKeepsMates(raw, s, at, Positions(c), p, x);
      }
      KeepsCounting(raw, s, s', at);
    }

    /** `MatchToken` at a `{`. */
    method OpenBrace(at: nat, stack: seq<nat>, idstack: seq<nat>, istack: seq<nat>, idepth: nat,
                     ghost raw: seq<Op>, ghost s: seq<Op>, ghost c: Open, ghost du: seq<nat>)
      returns (r: Outcome, ghost s': seq<Op>)
      requires Valid() && at < len && Contents() == s && s[at].kind == Inner1
      requires Scanning(raw, s, at, c, du, stack, idstack, istack, idepth)
      modifies ops
      ensures Contents() == s' && (r != Ok ==> Rejected(raw, r))
      ensures r == Ok ==> |du| > 0 && Scanning(raw, s', at + 1, Counted(at, c), du[..|du| - 1],
                                               stack, idstack, istack + [at], idepth + 1)
    {
      s' := s;
      assert Unread(raw, s, at);
      if idepth + 1 > |stack| {
        RejectBrace(raw, at, c);
        assert FaultAt(raw, at, BraceWithoutParen);
        return BraceWithoutParen, s';
      }
      var q := stack[|stack| - 1 - idepth];
      CountedParen(raw, s, at, c, q);
      BraceKnown(raw, s, at, Positions(c), q);
      if ops[q].mate != -1 {
        RejectSecond(raw, s, at, Positions(c), c, q);
        assert FaultAt(raw, at, SecondBrace);
        return SecondBrace, s';
      }
      StepBraceOpen(raw, s, at, c, du, stack, idstack, istack, idepth, q);
      LinkBrace(at, q);
      s' := Contents();
      KeepsCounting(raw, s, s', at);
      BracePasses(raw, at);
      r := Ok;
    }

    /** `MatchToken` at a `}` that ends the innermost brace. */
    method EndBrace(at: nat, stack: seq<nat>, idstack: seq<nat>, istack: seq<nat>, idepth: nat,
                    ghost raw: seq<Op>, ghost s: seq<Op>, ghost c: Open, ghost du: seq<nat>) returns (ghost s': seq<Op>)
      requires Valid() && at < len && Contents() == s && s[at].kind == Inner2 && idepth > 0
      requires Scanning(raw, s, at, c, du, stack, idstack, istack, idepth)
      modifies ops
      ensures Contents() == s' && c.Counted? && |istack| > 0
      ensures Scanning(raw, s', at + 1, c.outer, du + [at], stack, idstack, istack[..|istack| - 1], idepth - 1)
    {
      assert Unread(raw, s, at);
      StepBraceClose(raw, s, at, c, du, stack, idstack, istack, idepth);
      EndPasses(raw, at);
      LinkBraceEnd(at, istack[|istack| - 1]);
      s' := Contents();
      KeepsCounting(raw, s, s', at);
    }

    /** One step of `MatchRep`: reads the token at `at` and updates links and stacks. */
    method MatchToken(at: nat, stack: seq<nat>, idstack: seq<nat>, istack: seq<nat>, idepth: nat,
                      ghost raw: seq<Op>, ghost s: seq<Op>, ghost c: Open, ghost du: seq<nat>)
      returns (r: Outcome, stack': seq<nat>, idstack': seq<nat>, istack': seq<nat>, idepth': nat,
               ghost s': seq<Op>, ghost c': Open, ghost du': seq<nat>)
      requires Valid() && at < len && Contents() == s && Scanning(raw, s, at, c, du, stack, idstack, istack, idepth)
      modifies ops
      ensures Contents() == s'
      ensures r == Ok ==> Scanning(raw, s', at + 1, c', du', stack', idstack', istack', idepth')
      ensures r != Ok ==> Rejected(raw, r)
    {
      s' := s;
      r, stack', idstack', istack', idepth', c', du' := Ok, stack, idstack, istack, idepth, c, du;
      NextToken(raw, s, at, c, du, stack, idstack, istack, idepth);
      match ops[at].kind
      case Rep1 =>
        if |stack| == MAXNEST {
          r := ParenNestTooDeep;
          RefuseToken(raw, s, at, c, du, stack, idstack, istack, idepth, r);
          return;
        }
        OpenParen(raw, s, at, c, du, stack, idstack, istack, idepth);
        stack', idstack', idepth' := stack + [at], idstack + [idepth], 0;
        c', du' := Frame(at, c), du + [at];
      case Inner1 =>
        r, s' := OpenBrace(at, stack, idstack, istack, idepth, raw, s, c, du);
        if r != Ok { return; }
        istack', idepth' := istack + [at], idepth + 1;
        c', du' := Counted(at, c), du[..|du| - 1];
      case Inner2 =>
        if idepth == 0 {
          r := BraceEndWithoutBrace;
          RefuseToken(raw, s, at, c, du, stack, idstack, istack, idepth, r);
          return;
        }
        s' := EndBrace(at, stack, idstack, istack, idepth, raw, s, c, du);
        istack', idepth' := istack[..|istack| - 1], idepth - 1;
        c', du' := c.outer, du + [at];
      case Rep2 =>
        if |stack| == 0 {
          r := ParenEndWithoutParen;
          RefuseToken(raw, s, at, c, du, stack, idstack, istack, idepth, r);
          return;
        }
        if idepth != 0 {
          r := BraceNotEnded;
          RefuseToken(raw, s, at, c, du, stack, idstack, istack, idepth, r);
          return;
        }
        s' := EndParen(at, stack, idstack, istack, raw, s, c, du);
        idepth' := idstack[|stack| - 1];
        stack', idstack' := stack[..|stack| - 1], idstack[..|stack| - 1];
        c', du' := c.outer, du[..|du| - 1];
      case _ =>
        ReadOther(raw, s, at, c, du, stack, idstack, istack, idepth);
    }

    /** The loop of `MatchRep`. */
    method MatchAll(ghost raw: seq<Op>)
      returns (r: Outcome, stack: seq<nat>, idstack: seq<nat>, istack: seq<nat>, idepth: nat,
               ghost s: seq<Op>, ghost c: Open, ghost du: seq<nat>)
      requires Valid() && Raw(raw) && Contents() == raw
      modifies ops
      ensures Contents() == s && |s| == |raw|
      ensures r == Ok ==> Scanning(raw, s, |s|, c, du, stack, idstack, istack, idepth)
      ensures r != Ok ==> Rejected(raw, r)
    {
      r, stack, idstack, istack, idepth := Ok, [], [], [], 0;
      s, c, du := Contents(), Nothing, [];
      NothingMatched(raw);
      for at := 0 to len
        invariant len == |raw| && Contents() == s && r == Ok
        invariant Scanning(raw, s, at, c, du, stack, idstack, istack, idepth)
      {
        r, stack, idstack, istack, idepth, s, c, du :=
          MatchToken(at, stack, idstack, istack, idepth, raw, s, c, du);
        if r != Ok { return; }
      }
    }

    /** Links `(` with `)` and `{` with `}`. It succeeds exactly if the tokens can be linked such that each
        brace belongs to the paren found by counting back, and no more parens than the stack can hold are
        open at once. */
    method MatchRep() returns (r: Outcome)
      requires Valid() && Raw(Contents())
      modifies ops
      ensures Valid() && len == old(len) && ops == old(ops)
      ensures r == Ok ==> Linked(Contents()) && Shallow(Contents()) && Depth(Contents(), len) == 0
      ensures r == Ok ==> forall i :: 0 <= i < len ==> SameToken(old(ops[..])[i], ops[i])
      ensures r == Ok ==> Linking(old(Contents()), Contents())
      ensures r == Ok ==> !TooDeep(old(Contents()), Rep1, Rep2) && Faultless(old(Contents()))
      ensures r != Ok ==> Rejected(old(Contents()), r)
    {
      ghost var raw := Contents();
      var stack, idstack, istack, idepth;
      ghost var s, c, du;
      r, stack, idstack, istack, idepth, s, c, du := MatchAll(raw);
      if r != Ok { return; }
      if |stack| != 0 {
        RejectOpen(raw, s, c, du);
        assert FaultAt(raw, |raw|, ParenNotEnded);
        return ParenNotEnded;
      }
      MatchDone(raw, s, c, du, stack, idstack, istack, idepth);
      AcceptedLinking(raw, s);
      EndFaultless(raw);
    }

    /** Gives count 0 to the half that ends at `at`, whose opener is its mate. */
    method EmptyPlain(at: nat)
      requires Valid() && at < len && 0 <= ops[at].mate < len
      modifies ops
      ensures Contents() == PlainEmptied(old(Contents()), at)
    {
      var p := ops[at].mate;
      ops[at] := ops[at].(count := 0);
      ops[p] := ops[p].(count := 0);
    }

    method EmptyFirst(q: Quad)
      requires Valid() && 0 <= q.rep1 < q.inner1 < q.inner2 < q.rep2 < len
      modifies ops
      ensures Contents() == FirstEmptied(old(Contents()), q)
    {
      ops[q.rep1] := ops[q.rep1].(kind := Rep1, count := 0, inner := -1);
      ops[q.inner1] := ops[q.inner1].(kind := Rep2, count := 0, inner := -1);
      ops[q.inner2] := ops[q.inner2].(kind := Rep1, inner := -1);
      ops[q.rep2] := ops[q.rep2].(kind := Rep2, inner := -1);
    }

    method EmptySecond(q: Quad)
      requires Valid() && 0 <= q.rep1 < q.inner1 < q.inner2 < q.rep2 < len
      modifies ops
      ensures Contents() == SecondEmptied(old(Contents()), q)
    {
      ops[q.rep1] := ops[q.rep1].(kind := Rep1, inner := -1);
      ops[q.inner1] := ops[q.inner1].(kind := Rep2, inner := -1);
      ops[q.inner2] := ops[q.inner2].(kind := Rep1, count := 0, inner := -1);
      ops[q.rep2] := ops[q.rep2].(kind := Rep2, count := 0, inner := -1);
    }

    /** `CleanRep` at the `)` of a plain repeat, or of a paren already split. */
    method JudgeRep2(at: nat, last: int, ghost s: seq<Op>)
      requires Valid() && at < len && Linked(s)
      requires Contents() == Retyped(s, at) && LastCosted(s, at, last) && ops[at].kind == Rep2
      modifies ops
      ensures Contents() == Retyped(s, at + 1)
    {
      assert ops[at] == Judged(s, at, at);
      assert LinkedAt(s, at);
      IdleByLast(s, at, last);
      if s[at].kind == Rep2 { JudgeClose(s, at); } else { JudgeAfterFirst(s, at); }
      if last < ops[at].mate { EmptyPlain(at); }
    }

    /** `CleanRep` at the `{` of a paren. */
    method JudgeInner1(at: nat, last: int, ghost s: seq<Op>)
      requires Valid() && at < len && Linked(s)
      requires Contents() == Retyped(s, at) && LastCosted(s, at, last) && ops[at].kind == Inner1
      modifies ops
      ensures Contents() == Retyped(s, at + 1)
    {
      assert ops[at] == Judged(s, at, at);
      IdleByLast(s, at, last);
      JudgeInner(s, at);
      if last < ops[at].mate {
        EmptyFirst(Quad(ops[at].mate, at, ops[at].inner, ops[ops[at].mate].inner));
      }
    }

    /** `CleanRep` at the `)` of a paren that still has its brace. */
    method JudgeIRep2(at: nat, last: int, ghost s: seq<Op>)
      requires Valid() && at < len && Linked(s)
      requires Contents() == Retyped(s, at) && LastCosted(s, at, last) && ops[at].kind == IRep2
      modifies ops
      ensures Contents() == Retyped(s, at + 1)
    {
      assert ops[at] == Judged(s, at, at);
      IdleByLast(s, at, last);
      JudgeSecond(s, at);
      if last < ops[at].mate {
        EmptySecond(Quad(ops[at].inner, ops[ops[at].mate].inner, ops[at].mate, at));
      }
    }

    /** `CleanRep` at position `at`. */
    method JudgeToken(at: nat, last: int, ghost s: seq<Op>) returns (last': int)
      requires Valid() && at < len && Linked(s)
      requires Contents() == Retyped(s, at) && LastCosted(s, at, last)
      modifies ops
      ensures Contents() == Retyped(s, at + 1) && LastCosted(s, at + 1, last')
    {
      last' := last;
      assert ops[at] == Judged(s, at, at);
      var k := ops[at].kind;
      if k == Rep2 {
        JudgeRep2(at, last, s);
      } else if k == Inner1 {
        JudgeInner1(at, last, s);
      } else if k == IRep2 {
        JudgeIRep2(at, last, s);
      } else {
        JudgePlain(s, at);
        if Costed(k) { last' := at; }
      }
    }

    /** The first loop of `CleanRep`. */
    method JudgeAll()
      requires Valid() && Linked(Contents())
      modifies ops
      ensures Contents() == Final(old(Contents()))
    {
      NothingRetyped(Contents());
      JudgeTokens(Contents());
    }

    method JudgeTokens(ghost s: seq<Op>)
      requires Valid() && Linked(s) && |s| == len && Contents() == Retyped(s, 0)
      modifies ops
      ensures Contents() == Retyped(s, |s|)
    {
      var last: int := -1;
      var at := 0;
      while at < len
        invariant at <= len && Contents() == Retyped(s, at) && LastCosted(s, at, last)
      {
        last := JudgeToken(at, last, s);
        at := at + 1;
      }
    }

    /** One copy of the second loop of `CleanRep`. */
    method CopyOp(at: nat, to: nat)
      requires to <= at < ops.Length
      requires ops[at].mate == -1 || 0 <= ops[at].mate < ops.Length
      requires ops[at].inner == -1 || 0 <= ops[at].inner < ops.Length
      modifies ops
      ensures ops[..] == Copied(old(ops[..]), at, to)
    {
      if to < at {
        var op := ops[at];
        if op.mate != -1 { ops[op.mate] := ops[op.mate].(mate := to); }
        if op.inner != -1 { ops[op.inner] := ops[op.inner].(inner := to); }
        ops[to] := ops[at];
      }
    }

    /** The same, for an instruction that survives. */
    method CopyNext(at: nat, to: nat, ghost u: seq<Op>, ghost a: seq<Op>)
      requires ops[..] == a && Linked(u) && Unlooped(u) && AllPlaced(u, a, at) && Boundary(u, at)
      requires at < |u| == ops.Length && to == Kept(u, at) <= at && !Deleted(u, at) && !ZeroHead(u, at)
      modifies ops
      ensures AllPlaced(u, ops[..], at + 1)
      ensures Boundary(u, at + 1) && Kept(u, at + 1) == to + 1
    {
      CopyStep(u, a, at, to);
      BoundaryStep(u, at);
      CopyOp(at, to);
    }

    /** The second loop of `CleanRep`. */
    method CutOut(ghost u: seq<Op>)
      requires Valid() && ops.Length == len && Contents() == u && Linked(u) && Unlooped(u)
      modifies ops, this`len
      ensures Valid() && ops == old(ops)
      ensures Squeezed(u, Contents())
    {
      var n := len;
      var at: nat, to: nat := 0, 0;
      ghost var a := ops[..];
      assert a == u;
      NothingPlaced(u, a);
      while at < n
        invariant at <= n == |u| == ops.Length
        invariant to == Kept(u, at) && len == n - (at - to) && Boundary(u, at)
        invariant ops[..] == a && AllPlaced(u, a, at)
      {
        StaysAtBoundary(u, at);
        assert Placed(u, a, at, at);
        if (ops[at].kind.Rep1? || ops[at].kind.IRep1? || ops[at].kind.Inner2?) && ops[at].count == 0 {
          SkipStep(u, a, at, to);
          var delTo := ops[at].mate;
          len := len - (delTo - at + 1);
          at := delTo + 1;
        } else {
          CopyNext(at, to, u, a);
          a := ops[..];
          to := to + 1;
          at := at + 1;
        }
      }
      AllMoved(u, a);
      assert Contents() == a[..len];
    }

    /** Gives count 0 to repeats without content, splits parens that have such a half, and cuts
        out what runs zero times. */
    method CleanRep()
      requires Valid() && ops.Length == len && Linked(Contents()) && Unlooped(Contents()) && Shallow(Contents())
      modifies ops, this`len
      ensures Valid() && ops == old(ops)
      ensures Squeezed(Final(old(Contents())), Contents())
      ensures Linked(Contents()) && Unlooped(Contents()) && Shallow(Contents())
      ensures EveryHalfRuns(Contents())
    {
      ghost var s := Contents();
      FinalLinked(s);
      FinalUnlooped(s);
      JudgeAll();
      CutOut(Final(s));
      CleanDone(s, Contents());
    }

    /** One step of `MatchLoop`: reads the token at `at` and updates links and stacks. */
    method LoopToken(at: nat, stack: seq<nat>, idstack: seq<nat>, idepth: nat,
                     ghost u: seq<Op>, ghost s: seq<Op>, ghost c: Open)
      returns (r: Outcome, stack': seq<nat>, idstack': seq<nat>, idepth': nat, ghost s': seq<Op>, ghost c': Open)
      requires Valid() && at < len && Contents() == s && Linked(u) && LoopScanning(u, s, at, c, stack, idstack, idepth)
      modifies ops
      ensures r == Ok ==> Contents() == s' && LoopScanning(u, s', at + 1, c', stack', idstack', idepth')
      ensures r != Ok ==> LoopRejected(u, r)
    {
      r, stack', idstack', idepth', s', c' := Ok, stack, idstack, idepth, s, c;
      NextLoopToken(u, s, at, c, stack, idstack, idepth);
      var k := ops[at].kind;
      if k == Loop1 {
        if |stack| == MAXNEST {
          r := BracketNestTooDeep;
          RefuseLoop(u, s, at, c, stack, idstack, idepth, r);
          return;
        }
        OpenLoop(u, s, at, c, stack, idstack, idepth);
        stack', idstack', idepth' := stack + [at], idstack + [idepth], 0;
        ops[at] := ops[at].(mate := -1);
        s', c' := s[at := s[at].(mate := -1)], Frame(at, c);
      } else if k == Rep1 || k == IRep1 || k == Inner1 {
        OpenBlock(u, s, at, c, stack, idstack, idepth);
        idepth', c' := idepth + 1, Counted(at, c);
      } else if k == Inner2 || k == IRep2 || k == Rep2 {
        if idepth == 0 {
          r := BracketCrossesOut;
          RefuseLoop(u, s, at, c, stack, idstack, idepth, r);
          return;
        }
        EndBlock(u, s, at, c, stack, idstack, idepth);
        idepth', c' := idepth - 1, c.outer;
      } else if k == Loop2 {
        if |stack| == 0 {
          r := BracketEndWithoutBracket;
          RefuseLoop(u, s, at, c, stack, idstack, idepth, r);
          return;
        }
        if idepth != 0 {
          r := BracketCrossesIn;
          RefuseLoop(u, s, at, c, stack, idstack, idepth, r);
          return;
        }
        var b := stack[|stack| - 1];
        EndLoop(u, s, at, c, stack, idstack);
        ops[at] := ops[at].(mate := b);
        ops[b] := ops[b].(mate := at);
        idepth' := idstack[|stack| - 1];
        stack', idstack' := stack[..|stack| - 1], idstack[..|stack| - 1];
        s', c' := LoopClosed(s, at, b), c.outer;
      } else {
        PassToken(u, s, at, c, stack, idstack, idepth);
      }
    }

    /** Links `[` with `]`. It succeeds exactly if the brackets can be nested properly with each
        other and with the blocks, and no more of them than the stack can hold are open at once. */
    method MatchLoop() returns (r: Outcome)
      requires Valid() && Linked(Contents()) && Unlooped(Contents())
      modifies ops
      ensures r == Ok ==> SameButLoops(old(Contents()), Contents())
      ensures r == Ok ==> Bracketing(old(Contents()), Brackets(Contents()))
      ensures r == Ok ==> !TooDeep(old(Contents()), Loop1, Loop2) && LoopFaultless(old(Contents()))
      ensures r != Ok ==> LoopRejected(old(Contents()), r)
    {
      ghost var u, s := Contents(), Contents();
      var stack: seq<nat>, idstack: seq<nat> := [], [];
      var idepth: nat := 0;
      ghost var c := Nothing;
      var n := len;
      NothingSeen(u);
      for at := 0 to n
        invariant n == len == |u| && Contents() == s && LoopScanning(u, s, at, c, stack, idstack, idepth)
      {
        r, stack, idstack, idepth, s, c := LoopToken(at, stack, idstack, idepth, u, s, c);
        if r != Ok { return; }
      }
      if |stack| != 0 {
        LoopNotEnded(u, s, c);
        assert LoopFaultAt(u, |u|, BracketNotEnded);
        return BracketNotEnded;
      }
      BlocksAllEnded(u, s, c);
      LoopsDone(u, s);
      LoopEndFaultless(u);
      return Ok;
    }

    /** The whole parser. An accepted list is well formed, and it stands for the same program as the
        list `m` of the tokens as written, with their parens and braces linked. `Ruling` says which lists
        are accepted, and why the others are not. */
    method Parse() returns (r: Outcome, ghost m: seq<Op>, ghost u: seq<Op>)
      requires Valid() && ops.Length == len && Raw(Contents())
      modifies ops, this`len
      ensures Valid() && ops == old(ops)
      ensures r == Ok ==> WellFormed(Contents()) && Linked(m) && EndsDone(m) && Program(Contents()) == Program(m)
      ensures Ruling(old(Contents()), r, m, u)
    {
      ghost var raw := Contents();
      r := MatchRep();
      m, u := Contents(), Contents();
      if r != Ok {
        RuledParens(raw, r, m, u);
        return;
      }
      MatchedList(raw, m);
      ParensAreFine(raw, m);
      CleanRep();
      u := Contents();
      CleanKeepsProgram(m, u);
      r := MatchLoop();
      if r != Ok {
        RuledBrackets(raw, r, m, u);
        return;
      }
      LoopsKeepProgram(u, Contents());
      WellFormedLoops(u, Contents());
      BracketsHope(u, Brackets(Contents()));
      RuledAccepted(raw, m, u);
    }
  }
}
