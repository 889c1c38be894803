/** Program texts as people write them: counts in every form, comments, and what is left out. */
module Spelling {
  import opened Ops
  import opened Reader
  import opened Writer

  /** One piece of a text. */
  datatype Piece =
    | Plain(kind: Kind)
    | Bare
    | Counted(gap: string, mark: char, gap': string, minus: bool, digits: string)
    | Aside(ch: char)

  function Signed(minus: bool, number: string): string
  {
    if minus then "-" + number else number
  }

  /** The text of a piece, followed by `rest`. */
  function Put(p: Piece, rest: string): string
  {
    match p
    case Plain(k) => [Letter(k)] + rest
    case Bare => ")" + rest
    case Counted(gap, mark, gap', minus, digits) =>
      ")" + (gap + ([mark] + (gap' + Signed(minus, digits + rest))))
    case Aside(ch) => [ch] + rest
  }

  function Text(ps: seq<Piece>): string
  {
    if ps == [] then "" else Put(ps[0], Text(ps[1..]))
  }

  predicate Comment(s: string)
  {
    forall i :: 0 <= i < |s| ==> !Command(s[i])
  }

  predicate AllDigits(s: string)
  {
    forall i :: 0 <= i < |s| ==> Digit(s[i])
  }

  /** The next command of the text is not a sign that a count follows. */
  predicate NoMark(rest: string)
  {
    var at := Skip(rest, 0);
    at < |rest| ==> rest[at] != '*' && rest[at] != '%'
  }

  /** The piece can be told apart from what follows. */
  predicate Clear(p: Piece, rest: string)
  {
    match p
    case Plain(k) => k != Rep2 && k != IRep1 && k != IRep2 && k != Done
    case Bare => NoMark(rest)
    case Counted(gap, mark, gap', minus, digits) =>
      && Comment(gap) && (mark == '*' || mark == '%') && Comment(gap') && digits != "" && AllDigits(digits)
      && (rest == "" || !Digit(rest[0]))
    case Aside(ch) => ch != ')' && KindOf(ch) == Done
  }

  predicate AllClear(ps: seq<Piece>)
  {
    ps != [] ==> Clear(ps[0], Text(ps[1..])) && AllClear(ps[1..])
  }

  /** What a piece means: no count is 0, a number is at most 100000, and a negative one is 100000. */
  function Meant(p: Piece): seq<Op>
  {
    match p
    case Plain(k) => [NewOp(k, -1)]
    case Bare => [NewOp(Rep2, 0)]
    case Counted(_, _, _, minus, digits) =>
      var n := Decimal(digits, 0);
      [NewOp(Rep2, if n == 0 then 0 else if minus || n > 100000 then 100000 else n)]
    case Aside(_) => []
  }

  function Meaning(ps: seq<Piece>): seq<Op>
  {
    if ps == [] then [] else Meant(ps[0]) + Meaning(ps[1..])
  }

  lemma Split(text: string, pos: nat, a: string, b: string)
    requires pos <= |text| && text[pos..] == a + b
    ensures pos + |a| <= |text| && text[pos..pos + |a|] == a && text[pos + |a|..] == b
    ensures forall i :: 0 <= i < |a| ==> text[pos + i] == a[i]
  {
    var all := text[pos..];
    assert |all| == |a| + |b|;
    assert text[pos..pos + |a|] == all[..|a|] == a;
    assert text[pos + |a|..] == all[|a|..] == b;
    forall i | 0 <= i < |a|
      ensures text[pos + i] == a[i]
    {
      assert all[i] == (a + b)[i];
    }
  }

  lemma {:induction false} SkipGap(text: string, pos: nat, end: nat)
    requires pos <= end < |text| && Command(text[end]) && forall i :: pos <= i < end ==> !Command(text[i])
    ensures Skip(text, pos) == end
    decreases end - pos
  {
    if pos < end { SkipGap(text, pos + 1, end); }
  }

  /** Where a comment ends. */
  lemma GapRead(text: string, pos: nat, gap: string, next: string)
    requires pos <= |text| && text[pos..] == gap + next && Comment(gap) && next != "" && Command(next[0])
    ensures pos + |gap| < |text| && text[pos + |gap|] == next[0] && text[pos + |gap|..] == next
    ensures Skip(text, pos) == pos + |gap|
  {
    Split(text, pos, gap, next);
    var end := pos + |gap|;
    assert text[end] == text[end..][0];
    forall i | pos <= i < end
      ensures !Command(text[i])
    {
      assert text[pos + (i - pos)] == gap[i - pos];
    }
    SkipGap(text, pos, end);
  }

  /** The digits of a count. */
  lemma FiguresRead(text: string, pos: nat, digits: string, rest: string)
    requires pos <= |text| && text[pos..] == digits + rest && AllDigits(digits) && (rest == "" || !Digit(rest[0]))
    ensures DigitsEnd(text, pos) == pos + |digits| <= |text|
    ensures text[pos..pos + |digits|] == digits && text[pos + |digits|..] == rest
  {
    Split(text, pos, digits, rest);
    forall i | pos <= i < pos + |digits|
      ensures Digit(text[i])
    {
      assert text[pos + (i - pos)] == digits[i - pos];
    }
    if rest != "" { assert text[pos + |digits|..][0] == rest[0]; }
    DigitsRead(text, pos, |digits|);
  }

  /** The number, after its sign. */
  lemma SignRead(text: string, pos: nat, minus: bool, number: string) returns (from: nat)
    requires pos <= |text| && text[pos..] == Signed(minus, number) && number != "" && Digit(number[0])
    ensures pos < |text| && Command(text[pos]) && (minus <==> text[pos] == '-')
    ensures from == (if minus then pos + 1 else pos) && from <= |text| && text[from..] == number
  {
    if minus {
      Split(text, pos, "-", number);
      assert text[pos] == "-"[0];
      from := pos + 1;
    } else {
      assert text[pos] == text[pos..][0];
      from := pos;
    }
  }

  /** The sign that a count follows, and the start of the number. */
  lemma MarkRead(text: string, pos: nat, gap: string, mark: char, gap': string, number: string, tail: string, tail': string)
    returns (first: nat)
    requires pos <= |text| && text[pos..] == gap + tail && tail == [mark] + tail' && tail' == gap' + number
    requires Comment(gap) && (mark == '*' || mark == '%') && Comment(gap') && number != "" && Command(number[0])
    ensures var at := Skip(text, pos);
            at < |text| && text[at] == mark && first == Skip(text, at + 1) < |text|
    ensures text[first..] == number
  {
    assert tail[0] == mark;
    GapRead(text, pos, gap, tail);
    var at := pos + |gap|;
    Split(text, at, [mark], tail');
    GapRead(text, at + 1, gap', number);
    first := at + 1 + |gap'|;
  }

  lemma CountIs(text: string, pos: nat, first: nat, minus: bool, digits: string)
    requires pos <= |text|
    requires var at := Skip(text, pos);
             at < |text| && (text[at] == '*' || text[at] == '%') && first == Skip(text, at + 1) < |text|
    requires (minus <==> text[first] == '-')
    requires var from := if minus then first + 1 else first;
             var end := DigitsEnd(text, from);
             text[from..end] == digits
    ensures var n, c := Decimal(digits, 0), Count(text, pos);
            c == if n == 0 then 0 else if minus || n > 100000 then 100000 else n
    ensures CountEnd(text, pos) == DigitsEnd(text, if minus then first + 1 else first)
  {
  }

  lemma ClosingRead(text: string, pos: nat, p: Piece, rest: string)
    requires pos <= |text| && p.Counted? && Clear(p, rest) && text[pos..] == Put(p, rest)
    ensures pos < |text| && text[pos] == ')' && Token(text, pos) == Meant(p) && text[TokenEnd(text, pos)..] == rest
  {
    var number := p.digits + rest;
    assert Digit(number[0]);
    var signed := Signed(p.minus, number);
    var tail' := p.gap' + signed;
    var tail := [p.mark] + tail';
    Split(text, pos, ")", p.gap + tail);
    assert text[pos] == ")"[0];
    BehindParen(text, pos + 1, p, rest, number, signed, tail, tail');
  }

  lemma BehindParen(text: string, pos: nat, p: Piece, rest: string, number: string, signed: string, tail: string, tail': string)
    requires pos <= |text| && p.Counted? && Clear(p, rest) && text[pos..] == p.gap + tail
    requires number == p.digits + rest && Digit(number[0]) && signed == Signed(p.minus, number)
    requires tail == [p.mark] + tail' && tail' == p.gap' + signed
    ensures [NewOp(Rep2, Count(text, pos))] == Meant(p) && text[CountEnd(text, pos)..] == rest
  {
    assert signed != "" && Command(signed[0]);
    var first := MarkRead(text, pos, p.gap, p.mark, p.gap', signed, tail, tail');
    NumberBehind(text, first, p.minus, p.digits, rest, number);
    CountIs(text, pos, first, p.minus, p.digits);
  }

  lemma NumberBehind(text: string, first: nat, minus: bool, digits: string, rest: string, number: string)
    requires first <= |text| && text[first..] == Signed(minus, number) && number == digits + rest && AllDigits(digits)
    requires number != "" && Digit(number[0]) && (rest == "" || !Digit(rest[0]))
    ensures first < |text| && (minus <==> text[first] == '-')
    ensures var from := if minus then first + 1 else first;
            var end := DigitsEnd(text, from);
            text[from..end] == digits && text[end..] == rest
  {
    var from := SignRead(text, first, minus, number);
    FiguresRead(text, from, digits, rest);
  }

  lemma {:induction false} SkipRest(text: string, pos: nat, rest: string)
    requires pos <= |text| && text[pos..] == rest
    ensures Skip(text, pos) == pos + Skip(rest, 0)
  {
    SkipFrom(text, pos, rest, 0);
  }

  lemma {:induction false} SkipFrom(text: string, pos: nat, rest: string, i: nat)
    requires pos <= |text| && text[pos..] == rest && i <= |rest|
    ensures Skip(text, pos + i) == pos + Skip(rest, i)
    decreases |rest| - i
  {
    if i < |rest| {
      assert rest[i] == text[pos + i];
      SkipFrom(text, pos, rest, i + 1);
    }
  }

  lemma BareRead(text: string, pos: nat, rest: string)
    requires pos <= |text| && NoMark(rest) && text[pos..] == ")" + rest
    ensures pos < |text| && text[pos] == ')' && Token(text, pos) == [NewOp(Rep2, 0)]
    ensures Tokens(text, TokenEnd(text, pos)) == Tokens(text, pos + 1) && text[pos + 1..] == rest
  {
    Split(text, pos, ")", rest);
    assert text[pos] == ")"[0];
    SkipRest(text, pos + 1, rest);
    var at := Skip(rest, 0);
    if at < |rest| { assert rest[at] == text[pos + 1 + at]; }
    SkipTokens(text, pos + 1);
  }

  lemma AsideRead(text: string, pos: nat, ch: char, rest: string)
    requires pos <= |text| && ch != ')' && KindOf(ch) == Done && text[pos..] == [ch] + rest
    ensures pos < |text| && text[pos + 1..] == rest && Tokens(text, pos) == Tokens(text, pos + 1)
  {
    Split(text, pos, [ch], rest);
    assert text[pos] == [ch][0];
    SkipTokens(text, pos + 1);
    if Command(ch) { TokenHead(text, pos); } else { SkipTokens(text, pos); }
  }

  lemma PieceRead(text: string, pos: nat, p: Piece, rest: string) returns (next: nat)
    requires pos <= |text| && Clear(p, rest) && text[pos..] == Put(p, rest)
    ensures next <= |text| && text[next..] == rest && Tokens(text, pos) == Meant(p) + Tokens(text, next)
  {
    match p
    case Plain(k) =>
      PlainRead(text, pos, NewOp(k, -1), rest);
      TokenHead(text, pos);
      next := TokenEnd(text, pos);
    case Bare =>
      BareRead(text, pos, rest);
      TokenHead(text, pos);
      next := pos + 1;
    case Counted(_, _, _, _, _) =>
      ClosingRead(text, pos, p, rest);
      TokenHead(text, pos);
      next := TokenEnd(text, pos);
    case Aside(ch) =>
      AsideRead(text, pos, ch, rest);
      next := pos + 1;
      assert Meant(p) + Tokens(text, next) == Tokens(text, next);
  }

  /** A text that is spelled in pieces reads as what the pieces mean. */
  lemma {:induction false} SpelledRead(text: string, pos: nat, ps: seq<Piece>)
    requires pos <= |text| && text[pos..] == Text(ps) && AllClear(ps)
    ensures Tokens(text, pos) == Meaning(ps)
    decreases |ps|
  {
    if ps == [] {
      assert |text[pos..]| == 0;
    } else {
      var next := PieceRead(text, pos, ps[0], Text(ps[1..]));
      SpelledRead(text, next, ps[1..]);
    }
  }

  lemma CountText(mark: char, minus: bool, digits: string, signed: string)
    requires signed == Signed(minus, digits)
    ensures Text([Counted("", mark, "", minus, digits)]) == ")" + ([mark] + signed)
  {
    assert digits + "" == digits && "" + signed == signed && "" + ([mark] + signed) == [mark] + signed;
  }

  /** A paren with the given count. */
  lemma CountsRead(c: nat, mark: char, minus: bool, text: string)
    requires (mark == '*' || mark == '%') && text == ")" + ([mark] + Signed(minus, Number(c)))
    ensures Tokens(text, 0) == [NewOp(Rep2, if c == 0 then 0 else if minus || c > 100000 then 100000 else c)]
  {
    var p := Counted("", mark, "", minus, Number(c));
    NumberRead(c);
    CountText(mark, minus, Number(c), Signed(minus, Number(c)));
    assert text[0..] == text && Clear(p, "");
    SpelledRead(text, 0, [p]);
  }

  lemma OneLetter(text: string, k: Kind)
    requires text == [Letter(k)] && k != IRep1 && k != IRep2 && k != Done && k != Rep2
    ensures Tokens(text, 0) == [NewOp(k, -1)]
  {
    assert text == Text([Plain(k)]) && text[0..] == text && Clear(Plain(k), "");
    SpelledRead(text, 0, [Plain(k)]);
  }

  /** The letters of the plain tokens. */
  lemma Letters()
    ensures Tokens("+", 0) == [NewOp(Inc, -1)] && Tokens("-", 0) == [NewOp(Dec, -1)]
    ensures Tokens("<", 0) == [NewOp(Left, -1)] && Tokens(">", 0) == [NewOp(Right, -1)] && Tokens(".", 0) == [NewOp(Wait, -1)]
    ensures Tokens("[", 0) == [NewOp(Loop1, -1)] && Tokens("]", 0) == [NewOp(Loop2, -1)]
    ensures Tokens("(", 0) == [NewOp(Rep1, -1)] && Tokens("{", 0) == [NewOp(Inner1, -1)] && Tokens("}", 0) == [NewOp(Inner2, -1)]
  {
    OneLetter("+", Inc);
    OneLetter("-", Dec);
    OneLetter("<", Left);
    OneLetter(">", Right);
    OneLetter(".", Wait);
    OneLetter("[", Loop1);
    OneLetter("]", Loop2);
    OneLetter("(", Rep1);
    OneLetter("{", Inner1);
    OneLetter("}", Inner2);
  }

  /** Numbers are decimal. */
  lemma Decimals()
    ensures Number(0) == "0" && Number(128) == "128" && Decimal("100000", 0) == 100000
  {
    assert Number(1) == "1" && Number(12) == "12";
    assert "100000"[1..] == "00000" && "00000"[1..] == "0000" && "0000"[1..] == "000" && "000"[1..] == "00" && "00"[1..] == "0" && "0"[1..] == "";
    assert Decimal("0", 10000) == 100000;
    assert Decimal("00", 1000) == 100000;
    assert Decimal("000", 100) == 100000;
    assert Decimal("0000", 10) == 100000;
  }
}
