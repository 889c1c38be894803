/** Reading a program text into a list of tokens. */
module Reader {
  import opened Ops
  import opened Links
  import opened Parser

  predicate Digit(ch: char)
  {
    '0' <= ch <= '9'
  }

  /** Characters that are not comments. */
  predicate Command(ch: char)
  {
    KindOf(ch) != Done || ch == ')' || ch == ',' || ch == '*' || ch == '%' || Digit(ch)
  }

  /** Where the next command is, or the end of the text. */
  function Skip(text: string, pos: nat): (at: nat)
    requires pos <= |text|
    ensures pos <= at <= |text|
    ensures at < |text| ==> Command(text[at])
    ensures forall i :: pos <= i < at ==> !Command(text[i])
    decreases |text| - pos
  {
    if pos == |text| || Command(text[pos]) then pos else Skip(text, pos + 1)
  }

  // Repetition counts.

  function Value(ch: char): nat
  {
    if Digit(ch) then ch as int - '0' as int else 0
  }

  /** The number written in decimal after the digits read so far. */
  function Decimal(digits: string, c: nat): nat
  {
    if digits == "" then c else Decimal(digits[1..], c * 10 + Value(digits[0]))
  }

  /** The end of the digits that begin at `pos`. */
  function DigitsEnd(text: string, pos: nat): (end: nat)
    requires pos <= |text|
    ensures pos <= end <= |text|
    decreases |text| - pos
  {
    if pos < |text| && Digit(text[pos]) then DigitsEnd(text, pos + 1) else pos
  }

  lemma {:induction false} DecimalGrows(digits: string, c: nat)
    ensures Decimal(digits, c) >= c
    decreases |digits|
  {
    if digits != "" { DecimalGrows(digits[1..], c * 10 + Value(digits[0])); }
  }

  function AtMost(x: nat): nat
  {
    if x > MAXCYCLES then MAXCYCLES else x
  }

  /** The count written at `pos`: nothing counts as 0, and a negative number as the largest count. */
  function Count(text: string, pos: nat): (c: nat)
    requires pos <= |text|
    ensures c <= MAXCYCLES
  {
    var at := Skip(text, pos);
    if at == |text| || (text[at] != '*' && text[at] != '%') then 0
    else
      var first := Skip(text, at + 1);
      var neg := first < |text| && text[first] == '-';
      var from := if neg then first + 1 else first;
      var c := AtMost(Decimal(text[from..DigitsEnd(text, from)], 0));
      if neg && c > 0 then MAXCYCLES else c
  }

  /** Where the count ends. */
  function CountEnd(text: string, pos: nat): (end: nat)
    requires pos <= |text|
    ensures pos <= end <= |text|
  {
    var at := Skip(text, pos);
    if at == |text| || (text[at] != '*' && text[at] != '%') then at
    else
      var first := Skip(text, at + 1);
      DigitsEnd(text, if first < |text| && text[first] == '-' then first + 1 else first)
  }

  // Tokens.

  function NewOp(k: Kind, count: int): Op
  {
    Op(k, -1, -1, count)
  }

  /** The plain instructions and opening tokens; anything else is `Done`. */
  function KindOf(ch: char): Kind
  {
    match ch
    case '+' => Inc
    case '-' => Dec
    case '<' => Left
    case '>' => Right
    case '.' => Wait
    case '[' => Loop1
    case ']' => Loop2
    case '(' => Rep1
    case '{' => Inner1
    case '}' => Inner2
    case _ => Done
  }

  /** What the command at `at` stands for: a token, or nothing. */
  function Token(text: string, at: nat): (token: seq<Op>)
    requires at < |text|
    ensures |token| <= 1
  {
    if text[at] == ')' then [NewOp(Rep2, Count(text, at + 1))]
    else if KindOf(text[at]) != Done then [NewOp(KindOf(text[at]), -1)]
    else []
  }

  /** Where it ends. */
  function TokenEnd(text: string, at: nat): (end: nat)
    requires at < |text|
    ensures at < end <= |text|
  {
    if text[at] == ')' then CountEnd(text, at + 1) else at + 1
  }

  /** The tokens of a text from `pos` on; other characters are comments. */
  function Tokens(text: string, pos: nat): seq<Op>
    requires pos <= |text|
    decreases |text| - pos
  {
    var at := Skip(text, pos);
    if at == |text| then [] else Token(text, at) + Tokens(text, TokenEnd(text, at))
  }

  lemma DigitIgnored(text: string, pos: nat)
    requires pos < |text| && Digit(text[pos])
    ensures Tokens(text, pos) == Tokens(text, pos + 1)
  {
  }

  /** Digits outside of counts are comments. */
  lemma {:induction false} DigitsIgnored(text: string, pos: nat, end: nat)
    requires pos <= |text| && pos <= end <= DigitsEnd(text, pos)
    ensures Tokens(text, end) == Tokens(text, DigitsEnd(text, pos))
    decreases |text| - pos
  {
    var last := DigitsEnd(text, pos);
    if pos < last {
      DigitIgnored(text, pos);
      DigitsIgnored(text, pos + 1, if end == pos then pos + 1 else end);
    }
  }

  /** What the parser demands: every count in range, no links yet, and neither `Done` nor the kinds
      that only the parser assigns. */
  lemma {:induction false} TokensRead(text: string, pos: nat, i: nat)
    requires pos <= |text| && i < |Tokens(text, pos)|
    ensures var o := Tokens(text, pos)[i];
            && o.mate == -1 && o.inner == -1 && o.kind != IRep1 && o.kind != IRep2 && o.kind != Done
            && (o.kind == Rep2 ==> 0 <= o.count <= MAXCYCLES)
    decreases |text| - pos
  {
    var at := Skip(text, pos);
    if i >= |Token(text, at)| { TokensRead(text, TokenEnd(text, at), i - |Token(text, at)|); }
  }

  // The reader.

  /** Reads digits until the number is too large. The result is the whole number, if it is not. */
  method ReadNumber(text: string, start: nat) returns (c: nat, pos: nat)
    requires start <= |text|
    ensures start <= pos <= DigitsEnd(text, start)
    ensures c == AtMost(Decimal(text[start..DigitsEnd(text, start)], 0))
  {
    c, pos := 0, start;
    while pos < |text| && Digit(text[pos])
      invariant start <= pos <= |text| && c <= MAXCYCLES
      invariant DigitsEnd(text, start) == DigitsEnd(text, pos)
      invariant Decimal(text[start..DigitsEnd(text, start)], 0) == Decimal(text[pos..DigitsEnd(text, pos)], c)
    {
      ghost var digits := text[pos..DigitsEnd(text, pos)];
      assert digits[0] == text[pos] && digits[1..] == text[pos + 1..DigitsEnd(text, pos + 1)];
      c := c * 10 + Value(text[pos]);
      pos := pos + 1;
      if c > MAXCYCLES {
        DecimalGrows(digits[1..], c);
        c := MAXCYCLES;
        return;
      }
    }
    assert text[pos..DigitsEnd(text, pos)] == "";
  }

  /** Reads a count; negative numbers are returned as such. */
  method ReadCount(text: string, start: nat) returns (c: int, pos: nat)
    requires start <= |text|
    ensures start <= pos <= CountEnd(text, start) && Tokens(text, pos) == Tokens(text, CountEnd(text, start))
    ensures (if c < 0 then MAXCYCLES else c) == Count(text, start)
  {
    pos := Skip(text, start);
    if pos == |text| || (text[pos] != '*' && text[pos] != '%') { return 0, pos; }
    pos := Skip(text, pos + 1);
    var neg := pos < |text| && text[pos] == '-';
    if neg { pos := pos + 1; }
    ghost var from := pos;
    ghost var end := DigitsEnd(text, from);
    assert CountEnd(text, start) == end;
    c, pos := ReadNumber(text, pos);
    assert Count(text, start) == if neg && c > 0 then MAXCYCLES else c;
    assert Tokens(text, pos) == Tokens(text, end) by { DigitsIgnored(text, from, pos); }
    if neg { c := -c; }
  }

  lemma TokenHead(text: string, at: nat)
    requires at < |text| && Command(text[at])
    ensures Tokens(text, at) == Token(text, at) + Tokens(text, TokenEnd(text, at))
  {
  }

  /** One round of the reader: the token that begins at `at`, if it is one. */
  method ReadToken(text: string, at: nat) returns (token: seq<Op>, pos: nat)
    requires at < |text|
    ensures token == Token(text, at) && at < pos <= |text| && Tokens(text, pos) == Tokens(text, TokenEnd(text, at))
  {
    var ch := text[at];
    token, pos := [], at + 1;
    if ch == ')' {
      var c;
      c, pos := ReadCount(text, pos);
      if c < 0 { c := MAXCYCLES; }
      token := [NewOp(Rep2, c)];
    } else if KindOf(ch) != Done {
      token := [NewOp(KindOf(ch), -1)];
    }
  }

  lemma NextToken(text: string, ops: seq<Op>, token: seq<Op>, at: nat, pos: nat)
    requires at < |text| && Command(text[at]) && token == Token(text, at)
    requires pos <= |text| && Tokens(text, pos) == Tokens(text, TokenEnd(text, at))
    ensures ops + Tokens(text, at) == ops + token + Tokens(text, Skip(text, pos))
  {
    TokenHead(text, at);
    SkipTokens(text, pos);
    Regrouped(ops, token, Tokens(text, pos));
  }

  lemma Regrouped(a: seq<Op>, b: seq<Op>, c: seq<Op>)
    ensures a + (b + c) == a + b + c
  {
  }

  lemma SkipTokens(text: string, pos: nat)
    requires pos <= |text|
    ensures Tokens(text, Skip(text, pos)) == Tokens(text, pos)
  {
  }

  lemma NoTokens(text: string, ops: seq<Op>)
    ensures ops + Tokens(text, |text|) == ops
  {
  }

  method ReadTokens(text: string) returns (ops: seq<Op>)
    ensures ops == Tokens(text, 0)
  {
    ops := [];
    var pos := Skip(text, 0);
    SkipTokens(text, 0);
    assert ops + Tokens(text, pos) == Tokens(text, 0);
    while pos < |text|
      invariant pos <= |text| && ops + Tokens(text, pos) == Tokens(text, 0)
      invariant pos < |text| ==> Command(text[pos])
      decreases |text| - pos
    {
      ghost var was, at := ops, pos;
      var token;
      token, pos := ReadToken(text, pos);
      NextToken(text, was, token, at, pos);
      ops := ops + token;
      pos := Skip(text, pos);
    }
    NoTokens(text, ops);
  }

  /** Reads the tokens, and adds `Done` at the end. */
  method ReadOps(text: string) returns (list: OpList)
    ensures list.Valid() && fresh(list) && fresh(list.ops) && list.ops.Length == list.len
    ensures list.Contents() == Tokens(text, 0) + [NewOp(Done, -1)] && Raw(list.Contents())
  {
    var ops := ReadTokens(text);
    AppendDone(text, ops);
    list := new OpList(ops + [NewOp(Done, -1)]);
  }

  lemma AppendDone(text: string, ops: seq<Op>)
    requires ops == Tokens(text, 0)
    ensures Raw(ops + [NewOp(Done, -1)])
  {
    var s := ops + [NewOp(Done, -1)];
    forall i: nat {:trigger RawAt(s, i)} | i < |s|
      ensures RawAt(s, i)
    {
      if i < |ops| { TokensRead(text, 0, i); }
    }
  }
}
