/** Which token is at fault in a list that the parser rejects, and which rejection it deserves. */
module Faults {
  import opened Ops
  import opened Links
  import opened MatchState
  import opened Levels
  import opened MatchSteps
  import opened Acceptance
  import opened Loops

  datatype Outcome =
    | Ok
    | ParenNestTooDeep | BraceWithoutParen | SecondBrace | BraceEndWithoutBrace
    | ParenEndWithoutParen | BraceNotEnded | ParenNotEnded
    | BracketNestTooDeep | BracketCrossesOut | BracketCrossesIn
    | BracketEndWithoutBracket | BracketNotEnded

  // Parens and braces.

  /** The paren that a `{` at `b` counts back to, or -1. */
  function CountedTo(raw: seq<Op>, b: nat): int
    requires b <= |raw|
  {
    var c := Scanned(raw, b);
    if Level(c) < |Frames(c)| then Frames(c)[|Frames(c)| - 1 - Level(c)] else -1
  }

  /** An earlier `{` counts back to the same paren. */
  predicate SameParen(raw: seq<Op>, at: nat, b: nat)
    requires at <= |raw|
  {
    b < at && raw[b].kind == Inner1 && CountedTo(raw, b) == CountedTo(raw, at)
  }

  /** The number of parens that are open. */
  function OpenParens(raw: seq<Op>, at: nat): int
    requires at <= |raw|
  {
    Unclosed(raw, Rep1, Rep2, at)
  }

  /** The token at `at` deserves the rejection `r`. */
  ghost predicate FaultAt(raw: seq<Op>, at: nat, r: Outcome)
  {
    at <= |raw| &&
    if at == |raw| then r == ParenNotEnded && OpenParens(raw, at) > 0
    else
      var k, innermost := raw[at].kind, Scanned(raw, at);
      match r
      case ParenNestTooDeep => k == Rep1 && OpenParens(raw, at) >= 4096
      case BraceWithoutParen => k == Inner1 && CountedTo(raw, at) == -1
      case SecondBrace =>
        k == Inner1 && CountedTo(raw, at) != -1 && exists b: nat {:trigger SameParen(raw, at, b)} :: SameParen(raw, at, b)
      case BraceEndWithoutBrace => k == Inner2 && !innermost.Counted?
      case ParenEndWithoutParen => k == Rep2 && OpenParens(raw, at) == 0
      case BraceNotEnded => k == Rep2 && OpenParens(raw, at) > 0 && innermost.Counted?
      case _ => false
  }

  ghost predicate NoFaultBefore(raw: seq<Op>, at: nat)
  {
    forall j: nat, r: Outcome {:trigger FaultAt(raw, j, r)} :: j < at ==> !FaultAt(raw, j, r)
  }

  /** The first token at fault deserves the rejection `r`. */
  ghost predicate Blamed(raw: seq<Op>, r: Outcome)
  {
    exists at: nat {:trigger FaultAt(raw, at, r)} :: FaultAt(raw, at, r) && NoFaultBefore(raw, at)
  }

  /** No token is at fault. */
  ghost predicate Faultless(raw: seq<Op>)
  {
    NoFaultBefore(raw, |raw| + 1)
  }

  /** A list deserves one rejection only. */
  lemma BlamedOnce(raw: seq<Op>, r: Outcome, r': Outcome)
    requires Blamed(raw, r) && Blamed(raw, r')
    ensures r == r' && !Faultless(raw)
  {
    var at: nat :| FaultAt(raw, at, r) && NoFaultBefore(raw, at);
    var at': nat :| FaultAt(raw, at', r') && NoFaultBefore(raw, at');
  }

  lemma NoFaultHere(raw: seq<Op>, at: nat)
    requires NoFaultBefore(raw, at) && forall r: Outcome {:trigger FaultAt(raw, at, r)} :: !FaultAt(raw, at, r)
    ensures NoFaultBefore(raw, at + 1)
  {
  }

  lemma OtherPasses(raw: seq<Op>, at: nat)
    requires NoFaultBefore(raw, at) && at < |raw| && Costed(raw[at].kind)
    ensures NoFaultBefore(raw, at + 1)
  {
    NoFaultHere(raw, at);
  }

  lemma ParenPasses(raw: seq<Op>, at: nat)
    requires NoFaultBefore(raw, at) && at < |raw| && raw[at].kind == Rep1 && OpenParens(raw, at) < MAXNEST
    ensures NoFaultBefore(raw, at + 1)
  {
    NoFaultHere(raw, at);
  }

  lemma BracePasses(raw: seq<Op>, at: nat)
    requires NoFaultBefore(raw, at) && at < |raw| && raw[at].kind == Inner1 && CountedTo(raw, at) != -1
    requires forall b: nat {:trigger SameParen(raw, at, b)} :: !SameParen(raw, at, b)
    ensures NoFaultBefore(raw, at + 1)
  {
    NoFaultHere(raw, at);
  }

  lemma EndPasses(raw: seq<Op>, at: nat)
    requires NoFaultBefore(raw, at) && at < |raw|
    requires (raw[at].kind == Inner2 && Scanned(raw, at).Counted?)
             || (raw[at].kind == Rep2 && !Scanned(raw, at).Counted? && OpenParens(raw, at) > 0)
    ensures NoFaultBefore(raw, at + 1)
  {
    NoFaultHere(raw, at);
  }

  /** The links tell whether the paren counted back to has a brace already. */
  lemma BraceKnown(raw: seq<Op>, s: seq<Op>, at: nat, cs: seq<nat>, q: nat)
    requires at < |raw| == |s| && AllSeen(raw, s, at, cs) && CountedBack(raw, s, at)
    requires q == CountedTo(raw, at) && q < at && raw[q].kind == Rep1 && q in cs
    ensures s[q].mate != -1 <==> exists b: nat {:trigger SameParen(raw, at, b)} :: SameParen(raw, at, b)
  {
    assert Seen(raw, s, at, cs, q);
    if s[q].mate != -1 {
      var b: nat := s[q].mate;
      assert Seen(raw, s, at, cs, b) && CountsBackAt(raw, s, b);
      assert SameParen(raw, at, b);
    }
    forall b: nat | SameParen(raw, at, b)
      ensures s[q].mate == b
    {
      assert Seen(raw, s, at, cs, b) && CountsBackAt(raw, s, b);
    }
  }

  // Brackets.

  function LoopAfter(k: Kind, at: nat, c: Open): Open
  {
    if k == Loop1 then Frame(at, c)
    else if k == Rep1 || k == IRep1 || k == Inner1 then Counted(at, c)
    else if (k == Loop2 || k == Rep2 || k == IRep2 || k == Inner2) && c != Nothing then c.outer
    else c
  }

  /** The open brackets and blocks before position `at`. */
  function LoopScanned(u: seq<Op>, at: nat): Open
    requires at <= |u|
  {
    if at == 0 then Nothing else LoopAfter(u[at - 1].kind, at - 1, LoopScanned(u, at - 1))
  }

  function OpenBrackets(u: seq<Op>, at: nat): int
    requires at <= |u|
  {
    Unclosed(u, Loop1, Loop2, at)
  }

  /** The token at `at` deserves the rejection `r`. */
  ghost predicate LoopFaultAt(u: seq<Op>, at: nat, r: Outcome)
  {
    at <= |u| &&
    if at == |u| then r == BracketNotEnded && OpenBrackets(u, at) > 0
    else
      var k, innermost := u[at].kind, LoopScanned(u, at);
      match r
      case BracketNestTooDeep => k == Loop1 && OpenBrackets(u, at) >= 4096
      case BracketCrossesOut => (k == Rep2 || k == IRep2 || k == Inner2) && !innermost.Counted?
      case BracketEndWithoutBracket => k == Loop2 && OpenBrackets(u, at) == 0
      case BracketCrossesIn => k == Loop2 && OpenBrackets(u, at) > 0 && innermost.Counted?
      case _ => false
  }

  ghost predicate NoLoopFaultBefore(u: seq<Op>, at: nat)
  {
    forall j: nat, r: Outcome {:trigger LoopFaultAt(u, j, r)} :: j < at ==> !LoopFaultAt(u, j, r)
  }

  ghost predicate LoopBlamed(u: seq<Op>, r: Outcome)
  {
    exists at: nat {:trigger LoopFaultAt(u, at, r)} :: LoopFaultAt(u, at, r) && NoLoopFaultBefore(u, at)
  }

  ghost predicate LoopFaultless(u: seq<Op>)
  {
    NoLoopFaultBefore(u, |u| + 1)
  }

  lemma LoopBlamedOnce(u: seq<Op>, r: Outcome, r': Outcome)
    requires LoopBlamed(u, r) && LoopBlamed(u, r')
    ensures r == r' && !LoopFaultless(u)
  {
    var at: nat :| LoopFaultAt(u, at, r) && NoLoopFaultBefore(u, at);
    var at': nat :| LoopFaultAt(u, at', r') && NoLoopFaultBefore(u, at');
  }

  /** A token that may stand here. */
  lemma LoopPasses(u: seq<Op>, at: nat)
    requires NoLoopFaultBefore(u, at) && at < |u|
    requires u[at].kind == Loop1 ==> OpenBrackets(u, at) < MAXNEST
    requires u[at].kind == Rep2 || u[at].kind == IRep2 || u[at].kind == Inner2 ==> LoopScanned(u, at).Counted?
    requires u[at].kind == Loop2 ==> OpenBrackets(u, at) > 0 && !LoopScanned(u, at).Counted?
    ensures NoLoopFaultBefore(u, at + 1)
  {
    forall r: Outcome {:trigger LoopFaultAt(u, at, r)}
      ensures !LoopFaultAt(u, at, r)
    {
    }
  }

  // The open tokens in terms of the text alone.

  function Rise(k: Kind): int
  {
    if k == Rep1 || k == Inner1 then 1 else if k == Rep2 || k == Inner2 then -1 else 0
  }

  /** How many more tokens have begun than ended before `i`. */
  function Height(raw: seq<Op>, i: nat): int
    requires i <= |raw|
  {
    if i == 0 then 0 else Height(raw, i - 1) + Rise(raw[i - 1].kind)
  }

  ghost predicate Above(raw: seq<Op>, x: nat, j: nat)
  {
    x <= |raw| && j <= |raw| ==> Height(raw, j) > Height(raw, x)
  }

  /** The token at `x` has begun before `at`, and not ended. */
  ghost predicate Pending(raw: seq<Op>, at: nat, x: nat)
  {
    x < at <= |raw| && Rise(raw[x].kind) == 1 && forall j: nat {:trigger Above(raw, x, j)} :: x < j <= at ==> Above(raw, x, j)
  }

  ghost predicate PositionHeight(raw: seq<Op>, cs: seq<nat>, k: nat)
  {
    k < |cs| ==> cs[k] < |raw| && Height(raw, cs[k]) == k
  }

  ghost predicate PendingIsPosition(raw: seq<Op>, at: nat, cs: seq<nat>, x: nat)
  {
    Pending(raw, at, x) <==> x in cs
  }

  ghost predicate Outstanding(raw: seq<Op>, at: nat, cs: seq<nat>)
  {
    && at <= |raw| && Height(raw, at) == |cs|
    && (forall k: nat {:trigger PositionHeight(raw, cs, k)} :: PositionHeight(raw, cs, k))
    && (forall x: nat {:trigger PendingIsPosition(raw, at, cs, x)} :: PendingIsPosition(raw, at, cs, x))
  }

  lemma StillPending(raw: seq<Op>, at: nat, x: nat)
    requires x < at < |raw|
    ensures Pending(raw, at + 1, x) <==> Pending(raw, at, x) && Height(raw, at + 1) > Height(raw, x)
  {
    if Pending(raw, at + 1, x) {
      assert Above(raw, x, at + 1);
      forall j: nat {:trigger Above(raw, x, j)} | x < j <= at
        ensures Above(raw, x, j)
      {
      }
    }
  }

  lemma BeganOutstanding(raw: seq<Op>, at: nat, cs: seq<nat>)
    requires at < |raw| && Outstanding(raw, at, cs) && Rise(raw[at].kind) == 1
    ensures Outstanding(raw, at + 1, cs + [at])
  {
    var cs' := cs + [at];
    forall k: nat {:trigger PositionHeight(raw, cs', k)}
      ensures PositionHeight(raw, cs', k)
    {
      assert PositionHeight(raw, cs, k);
    }
    forall x: nat {:trigger PendingIsPosition(raw, at + 1, cs', x)}
      ensures PendingIsPosition(raw, at + 1, cs', x)
    {
      assert PendingIsPosition(raw, at, cs, x);
      if x < at {
        StillPending(raw, at, x);
        if Pending(raw, at, x) { assert Above(raw, x, at); }
      }
    }
  }

  lemma EndedOutstanding(raw: seq<Op>, at: nat, cs: seq<nat>, x: nat)
    requires at < |raw| && Outstanding(raw, at, cs + [x]) && Rise(raw[at].kind) == -1
    ensures Outstanding(raw, at + 1, cs)
  {
    var cs' := cs + [x];
    assert PositionHeight(raw, cs', |cs|);
    forall k: nat {:trigger PositionHeight(raw, cs, k)}
      ensures PositionHeight(raw, cs, k)
    {
      assert PositionHeight(raw, cs', k);
    }
    forall y: nat {:trigger PendingIsPosition(raw, at + 1, cs, y)}
      ensures PendingIsPosition(raw, at + 1, cs, y)
    {
      assert PendingIsPosition(raw, at, cs', y);
      if y < at { StillPending(raw, at, y); }
      if y in cs {
        var k: nat :| k < |cs| && cs[k] == y;
        assert PositionHeight(raw, cs', k) && cs'[k] == y;
      }
    }
  }

  lemma OtherOutstanding(raw: seq<Op>, at: nat, cs: seq<nat>)
    requires at < |raw| && Outstanding(raw, at, cs) && Rise(raw[at].kind) == 0
    ensures Outstanding(raw, at + 1, cs)
  {
    forall x: nat {:trigger PendingIsPosition(raw, at + 1, cs, x)}
      ensures PendingIsPosition(raw, at + 1, cs, x)
    {
      assert PendingIsPosition(raw, at, cs, x);
      if x < at {
        StillPending(raw, at, x);
        if Pending(raw, at, x) { assert Above(raw, x, at); }
      }
    }
  }

  /** As long as no token is at fault, the open tokens of the scan are those that have begun and not ended. */
  lemma {:induction false} ScannedOutstanding(raw: seq<Op>, at: nat)
    requires at <= |raw| && NoFaultBefore(raw, at)
    ensures Outstanding(raw, at, Positions(Scanned(raw, at)))
    ensures |Frames(Scanned(raw, at))| == OpenParens(raw, at)
    decreases at
  {
    if at == 0 {
      forall x: nat {:trigger PendingIsPosition(raw, 0, [], x)}
        ensures PendingIsPosition(raw, 0, [], x)
      {
      }
    } else {
      var i: nat := at - 1;
      ScannedOutstanding(raw, i);
      var c, k := Scanned(raw, i), raw[i].kind;
      if Rise(k) == 1 {
        BeganOutstanding(raw, i, Positions(c));
      } else if Rise(k) == -1 {
        EndsSomething(raw, i);
        EndedOutstanding(raw, i, Positions(c.outer), c.at);
      } else {
        OtherOutstanding(raw, i, Positions(c));
      }
    }
  }

  /** A token that is not at fault ends a token of its own kind. */
  lemma EndsSomething(raw: seq<Op>, at: nat)
    requires at < |raw| && NoFaultBefore(raw, at + 1) && |Frames(Scanned(raw, at))| == OpenParens(raw, at)
    ensures raw[at].kind == Inner2 ==> Scanned(raw, at).Counted?
    ensures raw[at].kind == Rep2 ==> Scanned(raw, at).Frame?
  {
    assert !FaultAt(raw, at, BraceEndWithoutBrace) && !FaultAt(raw, at, ParenEndWithoutParen) && !FaultAt(raw, at, BraceNotEnded);
  }

  // Small lists.

  function Written(k: Kind): Op
  {
    Op(k, -1, -1, if k == Rep2 then 1 else -1)
  }

  /** `)` ends no paren, and `}` no brace. */
  lemma NothingToEnd()
    ensures Blamed([Written(Rep2), Written(Done)], ParenEndWithoutParen)
    ensures Blamed([Written(Inner2), Written(Done)], BraceEndWithoutBrace)
  {
    assert FaultAt([Written(Rep2), Written(Done)], 0, ParenEndWithoutParen);
    assert FaultAt([Written(Inner2), Written(Done)], 0, BraceEndWithoutBrace);
  }

  /** `{` stands in no paren. */
  lemma NoParen()
    ensures Blamed([Written(Inner1), Written(Done)], BraceWithoutParen)
  {
    var raw := [Written(Inner1), Written(Done)];
    assert Scanned(raw, 0) == Nothing;
    assert FaultAt(raw, 0, BraceWithoutParen);
  }

  /** `({)` does not end its brace. */
  lemma BraceLeftOpen()
    ensures Blamed([Written(Rep1), Written(Inner1), Written(Rep2), Written(Done)], BraceNotEnded)
  {
    var raw := [Written(Rep1), Written(Inner1), Written(Rep2), Written(Done)];
    FirstTwo(raw);
    NoFaultHere(raw, 0);
    NoFaultHere(raw, 1);
    assert FaultAt(raw, 2, BraceNotEnded);
  }

  /** `({}{` has a second brace. */
  lemma SecondOfTwo()
    ensures Blamed([Written(Rep1), Written(Inner1), Written(Inner2), Written(Inner1), Written(Done)], SecondBrace)
  {
    var raw := [Written(Rep1), Written(Inner1), Written(Inner2), Written(Inner1), Written(Done)];
    FirstTwo(raw);
    assert Scanned(raw, 3) == Frame(0, Nothing);
    NoFaultHere(raw, 0);
    NoFaultHere(raw, 1);
    NoFaultHere(raw, 2);
    assert SameParen(raw, 3, 1);
    assert FaultAt(raw, 3, SecondBrace);
  }

  lemma FirstTwo(raw: seq<Op>)
    requires |raw| >= 2 && raw[0].kind == Rep1 && raw[1].kind == Inner1
    ensures Scanned(raw, 0) == Nothing && Scanned(raw, 1) == Frame(0, Nothing) && Scanned(raw, 2) == Counted(1, Frame(0, Nothing))
    ensures OpenParens(raw, 0) == 0 && OpenParens(raw, 1) == 1 && OpenParens(raw, 2) == 1
    ensures CountedTo(raw, 1) == 0
  {
    assert Frames(Frame(0, Nothing)) == [0];
  }

  /** `]` ends no bracket, and `[` is not ended. */
  lemma LoneBrackets()
    ensures LoopBlamed([Written(Loop2), Written(Done)], BracketEndWithoutBracket)
    ensures LoopBlamed([Written(Loop1), Written(Done)], BracketNotEnded)
  {
    assert LoopFaultAt([Written(Loop2), Written(Done)], 0, BracketEndWithoutBracket);
    var u := [Written(Loop1), Written(Done)];
    LoopPasses(u, 0);
    LoopPasses(u, 1);
    assert OpenBrackets(u, 1) == 1;
    assert LoopFaultAt(u, 2, BracketNotEnded);
  }

  /** In `[(]` the bracket crosses into the paren, and in `([)` out of it. */
  lemma CrossingBrackets()
    ensures LoopBlamed([Written(Loop1), Written(Rep1), Written(Loop2), Written(Done)], BracketCrossesIn)
    ensures LoopBlamed([Written(Rep1), Written(Loop1), Written(Rep2), Written(Done)], BracketCrossesOut)
  {
    var u, v := [Written(Loop1), Written(Rep1), Written(Loop2), Written(Done)], [Written(Rep1), Written(Loop1), Written(Rep2), Written(Done)];
    assert LoopScanned(u, 1) == Frame(0, Nothing) && OpenBrackets(u, 1) == 1;
    LoopPasses(u, 0);
    LoopPasses(u, 1);
    assert LoopFaultAt(u, 2, BracketCrossesIn);
    assert LoopScanned(v, 1) == Counted(0, Nothing) && OpenBrackets(v, 1) == 0;
    LoopPasses(v, 0);
    LoopPasses(v, 1);
    assert LoopFaultAt(v, 2, BracketCrossesOut);
  }
}
