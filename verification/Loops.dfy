/** The scan that links `[` with `]`, never across a written block. */
module Loops {
  import opened Nest
  import opened Ops
  import opened Links
  import opened Levels

  predicate IsLoop(k: Kind)
  {
    k.Loop1? || k.Loop2?
  }

  /** Instruction `i` and its partner under `ps`: blocks as written, `[` with a later `]`. */
  ghost predicate BracketAt(u: seq<Op>, ps: seq<int>, i: nat)
    requires i < |u| == |ps|
  {
    match u[i].kind
    case Loop1 => i < ps[i] < |u| && u[ps[i]].kind == Loop2
    case Loop2 => 0 <= ps[i] < i && u[ps[i]].kind == Loop1
    case _ => ps[i] == BlockPartner(u[i])
  }

  /** `ps` nests the brackets properly with each other and with the blocks. */
  ghost predicate Bracketing(u: seq<Op>, ps: seq<int>)
  {
    && |ps| == |u| && Paired(ps, |u|)
    && forall i: nat {:trigger BracketAt(u, ps, i)} :: i < |u| ==> BracketAt(u, ps, i)
  }

  /** Only the mates of brackets differ. */
  ghost predicate SameButLoops(u: seq<Op>, s: seq<Op>)
  {
    |s| == |u| && forall i :: 0 <= i < |u| ==>
      s[i].kind == u[i].kind && (if IsLoop(u[i].kind) then s[i].inner == u[i].inner && s[i].count == u[i].count else s[i] == u[i])
  }

  /** Partners before `at`; a pair that ends later still counts as open. */
  ghost function Masked(ps: seq<int>, at: nat): (qs: seq<int>)
    ensures |qs| == |ps|
  {
    seq(|ps|, i requires 0 <= i < |ps| => if ps[i] >= at then -1 else ps[i])
  }

  /** Instruction `i` has been read: brackets that are not open are linked, and exactly the blocks
      that end later are open. */
  ghost predicate LoopSeen(u: seq<Op>, s: seq<Op>, at: nat, cs: seq<nat>, i: nat)
    requires i < at <= |s| == |u|
  {
    if u[i].kind == Loop1 then
      if i in cs then s[i].mate == -1
      else i < s[i].mate < at && u[s[i].mate].kind == Loop2 && s[s[i].mate].mate == i
    else if u[i].kind == Loop2 then
      i !in cs && 0 <= s[i].mate < i && u[s[i].mate].kind == Loop1 && s[s[i].mate].mate == i
    else
      i in cs <==> BlockPartner(u[i]) >= at
  }

  /** The open tokens are `[` frames and counted block openers. */
  ghost predicate LoopKinds(u: seq<Op>, at: nat, c: Open)
    requires at <= |u|
  {
    match c
    case Nothing => true
    case Frame(x, outer) => x < at && u[x].kind == Loop1 && LoopKinds(u, at, outer)
    case Counted(x, outer) => x < at && !IsLoop(u[x].kind) && x < BlockPartner(u[x]) && LoopKinds(u, at, outer)
  }

  /** State of the scan before position `at`. */
  ghost predicate LoopState(u: seq<Op>, s: seq<Op>, at: nat, c: Open)
  {
    && at <= |u| && SameButLoops(u, s) && LoopKinds(u, at, c)
    && (forall i: nat {:trigger LoopSeen(u, s, at, Positions(c), i)} :: i < at ==> LoopSeen(u, s, at, Positions(c), i))
    && Scan(Masked(Brackets(s), at), Positions(c), at)
  }

  lemma {:induction false} KindsLater(u: seq<Op>, at: nat, c: Open)
    requires at < |u| && LoopKinds(u, at, c)
    ensures LoopKinds(u, at + 1, c)
  {
    if c != Nothing { KindsLater(u, at, c.outer); }
  }

  /** Reading a token changes the state of an earlier one only if it ends that one. */
  lemma SeenLater(u: seq<Op>, s: seq<Op>, at: nat, c: Open, i: nat)
    requires Linked(u) && LoopState(u, s, at, c) && i < at < |u|
    ensures at !in Positions(c)
    ensures Masked(Brackets(s), at + 1)[i] == if Blocks(u)[at] == i then at else Masked(Brackets(s), at)[i]
    ensures Blocks(u)[at] != i ==> LoopSeen(u, s, at + 1, Positions(c), i)
  {
    assert Awaits(Masked(Brackets(s), at), Positions(c), at, at);
    assert LoopSeen(u, s, at, Positions(c), i);
    assert Joined(Blocks(u), |u|, i) && Joined(Blocks(u), |u|, at);
  }

  lemma LoopPlain(u: seq<Op>, s: seq<Op>, at: nat, c: Open)
    requires Linked(u) && LoopState(u, s, at, c) && at < |u| && Costed(u[at].kind) && !IsLoop(u[at].kind)
    ensures LoopState(u, s, at + 1, c)
  {
    var cs := Positions(c);
    var ps, qs := Masked(Brackets(s), at), Masked(Brackets(s), at + 1);
    forall i: nat {:trigger LoopSeen(u, s, at + 1, cs, i)} | i < at + 1
      ensures LoopSeen(u, s, at + 1, cs, i)
    {
      if i < at { SeenLater(u, s, at, c, i); } else { NewLoopToken(u, s, at, c); }
    }
    forall i: nat | i < at
      ensures qs[i] == ps[i]
    {
      SeenLater(u, s, at, c, i);
    }
    ScanPlain(ps, qs, cs, at);
    KindsLater(u, at, c);
  }

  lemma NewLoopToken(u: seq<Op>, s: seq<Op>, at: nat, c: Open)
    requires LoopState(u, s, at, c) && at < |u|
    ensures at !in Positions(c)
  {
    assert Awaits(Masked(Brackets(s), at), Positions(c), at, at);
  }

  lemma LoopBlockOpen(u: seq<Op>, s: seq<Op>, at: nat, c: Open)
    requires Linked(u) && LoopState(u, s, at, c) && at < |u| && !IsLoop(u[at].kind) && at < BlockPartner(u[at])
    ensures LoopState(u, s, at + 1, Counted(at, c))
  {
    var cs, cs' := Positions(c), Positions(Counted(at, c));
    var ps, qs := Masked(Brackets(s), at), Masked(Brackets(s), at + 1);
    forall i: nat {:trigger LoopSeen(u, s, at + 1, cs', i)} | i < at + 1
      ensures LoopSeen(u, s, at + 1, cs', i)
    {
      if i < at {
        SeenLater(u, s, at, c, i);
        assert LoopSeen(u, s, at + 1, cs, i);
      }
    }
    forall i: nat | i < at
      ensures qs[i] == ps[i]
    {
      SeenLater(u, s, at, c, i);
    }
    ScanPush(ps, qs, cs, at);
    KindsLater(u, at, c);
  }

  /** The innermost open token is the block that ends here. */
  lemma InnermostBlock(u: seq<Op>, s: seq<Op>, at: nat, c: Open)
    requires Linked(u) && LoopState(u, s, at, c) && at < |u| && Level(c) > 0
    requires !IsLoop(u[at].kind) && 0 <= BlockPartner(u[at]) < at
    ensures c.Counted? && c.at == BlockPartner(u[at])
  {
    var o := BlockPartner(u[at]);
    var bs := Blocks(u);
    assert Joined(bs, |u|, at);
    assert LoopSeen(u, s, at, Positions(c), o) && LoopSeen(u, s, at, Positions(c), c.at);
    assert c.at in Positions(c) && c.at < at;
    assert Apart(bs, o, c.at);
    LastIsLargest(Positions(c.outer), c.at);
  }

  lemma LoopBlockClose(u: seq<Op>, s: seq<Op>, at: nat, c: Open)
    requires Linked(u) && LoopState(u, s, at, c) && at < |u| && Level(c) > 0
    requires !IsLoop(u[at].kind) && 0 <= BlockPartner(u[at]) < at
    ensures LoopState(u, s, at + 1, c.outer)
  {
    InnermostBlock(u, s, at, c);
    var o, cs, cs' := c.at, Positions(c), Positions(c.outer);
    var ps, qs := Masked(Brackets(s), at), Masked(Brackets(s), at + 1);
    LastIsLargest(cs', o);
    assert Joined(Blocks(u), |u|, at);
    forall i: nat {:trigger LoopSeen(u, s, at + 1, cs', i)} | i < at + 1
      ensures LoopSeen(u, s, at + 1, cs', i)
    {
      NewLoopToken(u, s, at, c);
      if i < at {
        SeenLater(u, s, at, c, i);
        assert LoopSeen(u, s, at, cs, i);
      }
    }
    forall i: nat | i < at && i != o
      ensures qs[i] == ps[i]
    {
      SeenLater(u, s, at, c, i);
    }
    ScanPop(ps, qs, cs', o, at);
    KindsLater(u, at, c.outer);
  }

  lemma LoopOpen(u: seq<Op>, s: seq<Op>, at: nat, c: Open)
    requires Linked(u) && LoopState(u, s, at, c) && at < |u| && u[at].kind == Loop1
    ensures LoopState(u, s[at := s[at].(mate := -1)], at + 1, Frame(at, c))
  {
    var s', cs, cs' := s[at := s[at].(mate := -1)], Positions(c), Positions(Frame(at, c));
    var ps, qs := Masked(Brackets(s), at), Masked(Brackets(s'), at + 1);
    forall i: nat {:trigger LoopSeen(u, s', at + 1, cs', i)} | i < at + 1
      ensures LoopSeen(u, s', at + 1, cs', i)
    {
      if i < at {
        SeenLater(u, s, at, c, i);
        assert LoopSeen(u, s, at + 1, cs, i);
      }
    }
    forall i: nat | i < at
      ensures qs[i] == ps[i]
    {
      SeenLater(u, s, at, c, i);
    }
    ScanPush(ps, qs, cs, at);
    KindsLater(u, at, c);
  }

  /** `]` at position `at` ends the loop opened at `b`. */
  function LoopClosed(s: seq<Op>, at: nat, b: nat): seq<Op>
    requires b < at < |s|
  {
    s[at := s[at].(mate := b)][b := s[b].(mate := at)]
  }

  lemma LoopClose(u: seq<Op>, s: seq<Op>, at: nat, c: Open)
    requires Linked(u) && LoopState(u, s, at, c) && at < |u| && u[at].kind == Loop2 && c.Frame?
    ensures c.at < at && LoopState(u, LoopClosed(s, at, c.at), at + 1, c.outer)
  {
    var b, cs, cs' := c.at, Positions(c), Positions(c.outer);
    var s' := LoopClosed(s, at, b);
    var ps, qs := Masked(Brackets(s), at), Masked(Brackets(s'), at + 1);
    LastIsLargest(cs', b);
    assert b in cs && LoopSeen(u, s, at, cs, b);
    NewLoopToken(u, s, at, c);
    forall i: nat {:trigger LoopSeen(u, s', at + 1, cs', i)} | i < at + 1
      ensures LoopSeen(u, s', at + 1, cs', i)
    {
      if i < at {
        SeenLater(u, s, at, c, i);
        assert LoopSeen(u, s, at + 1, cs, i);
      }
    }
    forall i: nat | i < at && i != b
      ensures qs[i] == ps[i]
    {
      SeenLater(u, s, at, c, i);
    }
    ScanPop(ps, qs, cs', b, at);
    KindsLater(u, at, c.outer);
  }

  // Rejection is final: the scan makes no choice that another nesting could avoid.

  ghost predicate AgreesAt(u: seq<Op>, s: seq<Op>, ps: seq<int>, i: nat)
    requires i < |s| == |ps| == |u|
  {
    IsLoop(u[i].kind) && s[i].mate != -1 ==> ps[i] == s[i].mate
  }

  /** The pairs made so far are those of `ps`. */
  ghost predicate Agrees(u: seq<Op>, s: seq<Op>, ps: seq<int>, at: nat)
    requires |s| == |ps| == |u| && at <= |u|
  {
    forall i: nat {:trigger AgreesAt(u, s, ps, i)} :: i < at ==> AgreesAt(u, s, ps, i)
  }

  /** Every proper nesting makes the pairs made so far. */
  ghost predicate Forced(u: seq<Op>, s: seq<Op>, at: nat)
    requires |s| == |u| && at <= |u|
  {
    forall ps :: Bracketing(u, ps) ==> Agrees(u, s, ps, at)
  }

  /** No nesting of the brackets is proper. */
  ghost predicate Hopeless(u: seq<Op>)
  {
    forall ps :: !Bracketing(u, ps)
  }

  /** A `[` that a nesting ends before `at` is not open. */
  lemma EndedLoop(u: seq<Op>, s: seq<Op>, at: nat, c: Open, ps: seq<int>, x: nat)
    requires Linked(u) && LoopState(u, s, at, c) && Bracketing(u, ps) && Agrees(u, s, ps, at)
    requires x < at && u[x].kind == Loop1 && ps[x] < at
    ensures x !in Positions(c)
  {
    assert BracketAt(u, ps, x) && Joined(ps, |u|, x);
    assert BracketAt(u, ps, ps[x]) && AgreesAt(u, s, ps, ps[x]);
    assert LoopSeen(u, s, at, Positions(c), x) && LoopSeen(u, s, at, Positions(c), ps[x]);
  }

  /** An open token ends at `at` or later, under every nesting. */
  lemma OpenEndsLater(u: seq<Op>, s: seq<Op>, at: nat, c: Open, ps: seq<int>, x: nat)
    requires Linked(u) && LoopState(u, s, at, c) && Bracketing(u, ps) && Agrees(u, s, ps, at)
    requires x in Positions(c) && x < at
    ensures ps[x] >= at
  {
    assert LoopSeen(u, s, at, Positions(c), x) && BracketAt(u, ps, x);
    if u[x].kind == Loop1 && ps[x] < at {
      EndedLoop(u, s, at, c, ps, x);
    }
  }

  /** What a nesting ends at `at` is still open. */
  lemma EndedIsOpen(u: seq<Op>, s: seq<Op>, at: nat, c: Open, ps: seq<int>)
    requires Linked(u) && LoopState(u, s, at, c) && Bracketing(u, ps) && Agrees(u, s, ps, at)
    requires at < |u| && 0 <= ps[at] < at
    ensures ps[at] in Positions(c)
  {
    var o := ps[at];
    assert Joined(ps, |u|, at) && BracketAt(u, ps, o) && LoopSeen(u, s, at, Positions(c), o);
    assert AgreesAt(u, s, ps, o);
  }

  lemma NothingBetween(ps: seq<int>, n: nat, at: nat, x: nat)
    requires n <= |ps| && Paired(ps, n) && at < n && 0 <= ps[at] < at && x < at <= ps[x]
    ensures x <= ps[at]
  {
    assert Joined(ps, n, at) && Joined(ps, n, x) && Apart(ps, ps[at], x);
  }

  /** A token that ends something can only end the innermost open token. */
  lemma InnermostForced(u: seq<Op>, s: seq<Op>, at: nat, c: Open, ps: seq<int>)
    requires Linked(u) && LoopState(u, s, at, c) && Bracketing(u, ps) && Agrees(u, s, ps, at)
    requires at < |u| && 0 <= ps[at] < at
    ensures c != Nothing && c.at == ps[at]
    ensures IsLoop(u[at].kind) ==> c.Frame?
    ensures !IsLoop(u[at].kind) ==> c.Counted?
  {
    EndedIsOpen(u, s, at, c, ps);
    assert c.at in Positions(c);
    LastIsLargest(Positions(c.outer), c.at);
    OpenEndsLater(u, s, at, c, ps, c.at);
    NothingBetween(ps, |u|, at, c.at);
    assert BracketAt(u, ps, at) && BracketAt(u, ps, c.at);
    assert LoopSeen(u, s, at, Positions(c), c.at) && Joined(ps, |u|, at);
  }

  /** A token that ends something of the other kind than the innermost open token ends nothing. */
  lemma CannotEnd(u: seq<Op>, s: seq<Op>, at: nat, c: Open)
    requires Linked(u) && LoopState(u, s, at, c) && Forced(u, s, at) && at < |u|
    requires if u[at].kind == Loop2 then !c.Frame? else !IsLoop(u[at].kind) && 0 <= BlockPartner(u[at]) < at && !c.Counted?
    ensures Hopeless(u)
  {
    forall ps
      ensures !Bracketing(u, ps)
    {
      if Bracketing(u, ps) {
        assert BracketAt(u, ps, at);
        InnermostForced(u, s, at, c, ps);
      }
    }
  }

  lemma LoopNotEnded(u: seq<Op>, s: seq<Op>, c: Open)
    requires Linked(u) && LoopState(u, s, |u|, c) && Forced(u, s, |u|) && c != Nothing
    ensures Hopeless(u)
  {
    forall ps
      ensures !Bracketing(u, ps)
    {
      if Bracketing(u, ps) {
        assert c.at in Positions(c) && Joined(ps, |u|, c.at) && BracketAt(u, ps, c.at);
        OpenEndsLater(u, s, |u|, c, ps, c.at);
      }
    }
  }

  lemma ForcedSame(u: seq<Op>, s: seq<Op>, s': seq<Op>, at: nat)
    requires |s'| == |s| == |u| && at < |u| && Forced(u, s, at)
    requires forall i :: 0 <= i < at ==> s'[i] == s[i]
    requires IsLoop(u[at].kind) ==> s'[at].mate == -1
    ensures Forced(u, s', at + 1)
  {
    forall ps | Bracketing(u, ps)
      ensures Agrees(u, s', ps, at + 1)
    {
      forall i: nat {:trigger AgreesAt(u, s', ps, i)} | i < at + 1
        ensures AgreesAt(u, s', ps, i)
      {
        assert i < at ==> AgreesAt(u, s, ps, i);
      }
    }
  }

  lemma ForcedClose(u: seq<Op>, s: seq<Op>, at: nat, c: Open)
    requires Linked(u) && LoopState(u, s, at, c) && Forced(u, s, at) && at < |u| && u[at].kind == Loop2 && c.Frame? && c.at < at
    ensures Forced(u, LoopClosed(s, at, c.at), at + 1)
  {
    var s' := LoopClosed(s, at, c.at);
    forall ps | Bracketing(u, ps)
      ensures Agrees(u, s', ps, at + 1)
    {
      assert BracketAt(u, ps, at);
      InnermostForced(u, s, at, c, ps);
      assert Joined(ps, |u|, at);
      forall i: nat {:trigger AgreesAt(u, s', ps, i)} | i < at + 1
        ensures AgreesAt(u, s', ps, i)
      {
        assert i < at ==> AgreesAt(u, s, ps, i);
      }
    }
  }

  /** When nothing is open at the end, the brackets are properly nested. */
  lemma LoopsDone(u: seq<Op>, s: seq<Op>)
    requires Linked(u) && LoopState(u, s, |u|, Nothing)
    ensures Bracketing(u, Brackets(s))
  {
    var ps := Brackets(s);
    assert Masked(ps, |u|) == ps by {
      forall i: nat | i < |u|
        ensures ps[i] < |u|
      {
        assert LoopSeen(u, s, |u|, [], i);
      }
    }
    forall i: nat {:trigger BracketAt(u, ps, i)} | i < |u|
      ensures BracketAt(u, ps, i)
    {
      assert LoopSeen(u, s, |u|, [], i);
    }
  }

  /** The mates of brackets do not enter the links of parens and braces. */
  lemma LinkedSameButLoops(u: seq<Op>, s: seq<Op>)
    requires Linked(u) && SameButLoops(u, s)
    ensures Linked(s) && Halves(s) == Halves(u) && Blocks(s) == Blocks(u)
  {
    assert Halves(s) == Halves(u) && Blocks(s) == Blocks(u);
    forall i: nat {:trigger LinkedAt(s, i)} | i < |s|
      ensures LinkedAt(s, i)
    {
      assert LinkedAt(u, i);
    }
  }

  /** What the parser delivers: a linked list with properly nested brackets, in which every counted
      half runs and the repeat stack of the engines is deep enough. */
  ghost predicate WellFormed(s: seq<Op>)
  {
    && Linked(s) && Bracketing(s, Brackets(s))
    && Shallow(s) && EveryHalfRuns(s) && EndsDone(s)
  }

  lemma WellFormedLoops(u: seq<Op>, s: seq<Op>)
    requires Linked(u) && Shallow(u) && EveryHalfRuns(u) && EndsDone(u)
    requires SameButLoops(u, s) && Bracketing(u, Brackets(s))
    ensures WellFormed(s)
  {
    LinkedSameButLoops(u, s);
    forall i: nat {:trigger BracketAt(s, Brackets(s), i)} | i < |s|
      ensures BracketAt(s, Brackets(s), i)
    {
      assert BracketAt(u, Brackets(s), i);
    }
    forall i: nat {:trigger Depth(s, i)} | i <= |s|
      ensures Depth(s, i) <= MAXNEST
    {
      DepthSameButLoops(u, s, i);
      assert Depth(u, i) <= MAXNEST;
    }
  }

  lemma {:induction false} DepthSameButLoops(u: seq<Op>, s: seq<Op>, i: nat)
    requires SameButLoops(u, s) && i <= |u|
    ensures Depth(s, i) == Depth(u, i)
  {
    if i > 0 { DepthSameButLoops(u, s, i - 1); }
  }

  lemma NothingSeen(u: seq<Op>)
    requires Linked(u)
    ensures LoopState(u, u, 0, Nothing) && Forced(u, u, 0)
  {
  }

  lemma NoFrames(c: Open)
    requires Frames(c) == []
    ensures !c.Frame?
  {
  }

  lemma TopPosition(c: Open)
    ensures c == Nothing || c.at in Positions(c)
  {
  }

  /** No block is open at the end of the list. */
  lemma BlocksAllEnded(u: seq<Op>, s: seq<Op>, c: Open)
    requires Linked(u) && LoopState(u, s, |u|, c) && Frames(c) == []
    ensures c == Nothing
  {
    NoFrames(c);
    forall x: nat | x < |u| && !IsLoop(u[x].kind)
      ensures x !in Positions(c)
    {
      assert Joined(Blocks(u), |u|, x) && LoopSeen(u, s, |u|, Positions(c), x);
    }
    TopPosition(c);
  }
}
