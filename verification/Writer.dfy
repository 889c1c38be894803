/** Writing a list of tokens, and reading it back. */
module Writer {
  import opened Ops
  import opened Reader

  function Letter(k: Kind): char
  {
    match k
    case Inc => '+'
    case Dec => '-'
    case Left => '<'
    case Right => '>'
    case Wait => '.'
    case Loop1 => '['
    case Loop2 => ']'
    case Rep1 => '('
    case IRep1 => '('
    case Inner1 => '{'
    case Inner2 => '}'
    case Rep2 => ')'
    case IRep2 => ')'
    case Done => '_'
  }

  function Figure(d: nat): char
    requires d < 10
  {
    ('0' as int + d) as char
  }

  function Number(n: nat): (digits: string)
    ensures |digits| > 0
    ensures forall i :: 0 <= i < |digits| ==> Digit(digits[i])
  {
    (if n < 10 then "" else Number(n / 10)) + [Figure(n % 10)]
  }

  function Written(o: Op): string
  {
    if o.kind == Rep2 && o.count >= 0 then ")*" + Number(o.count) else [Letter(o.kind)]
  }

  function Write(ops: seq<Op>): string
  {
    if ops == [] then "" else Written(ops[0]) + Write(ops[1..])
  }

  /** A token as the reader delivers it. */
  predicate Fresh(o: Op)
  {
    && o.mate == -1 && o.inner == -1 && o.kind != IRep1 && o.kind != IRep2 && o.kind != Done
    && if o.kind == Rep2 then 0 <= o.count <= MAXCYCLES else o.count == -1
  }

  lemma {:induction false} DecimalAppend(digits: string, d: char, c: nat)
    ensures Decimal(digits + [d], c) == Decimal(digits, c) * 10 + Value(d)
    decreases |digits|
  {
    if digits != "" {
      DecimalAppend(digits[1..], d, c * 10 + Value(digits[0]));
      assert (digits + [d])[1..] == digits[1..] + [d];
    } else {
      assert [d][1..] == "";
    }
  }

  /** A number that is written out reads as itself. */
  lemma {:induction false} NumberRead(n: nat)
    ensures Decimal(Number(n), 0) == n
    decreases n
  {
    var front := if n < 10 then "" else Number(n / 10);
    DecimalAppend(front, Figure(n % 10), 0);
    if n >= 10 { NumberRead(n / 10); }
  }

  lemma {:induction false} DigitsRead(text: string, pos: nat, k: nat)
    requires pos + k <= |text| && forall i :: pos <= i < pos + k ==> Digit(text[i])
    requires pos + k == |text| || !Digit(text[pos + k])
    ensures DigitsEnd(text, pos) == pos + k
    decreases k
  {
    if k > 0 { DigitsRead(text, pos + 1, k - 1); }
  }

  lemma NoDigitFirst(ops: seq<Op>)
    requires ops != [] && Fresh(ops[0])
    ensures Write(ops) != "" && !Digit(Write(ops)[0])
  {
  }

  lemma CountRead(text: string, pos: nat, c: nat, rest: string)
    requires pos + 2 <= |text| && text[pos] == ')' && text[pos + 1] == '*' && text[pos + 2..] == Number(c) + rest
    requires c <= MAXCYCLES && (rest == "" || !Digit(rest[0]))
    ensures Count(text, pos + 1) == c && CountEnd(text, pos + 1) == pos + 2 + |Number(c)|
  {
    var digits, from := Number(c), pos + 2;
    forall i | 0 <= i < |digits|
      ensures text[from + i] == digits[i]
    {
      assert text[from..][i] == (digits + rest)[i];
    }
    if rest != "" { assert text[from..][|digits|] == rest[0]; }
    assert |text| == from + |digits| + |rest|;
    DigitsRead(text, from, |digits|);
    assert text[from] == digits[0];
    assert text[from..from + |digits|] == digits;
    NumberRead(c);
  }

  lemma LetterRead(k: Kind)
    requires k != IRep1 && k != IRep2 && k != Done
    ensures Command(Letter(k)) && (k != Rep2 ==> KindOf(Letter(k)) == k && Letter(k) != ')') && !Digit(Letter(k))
  {
  }

  lemma PlainRead(text: string, pos: nat, o: Op, rest: string)
    requires pos <= |text| && Fresh(o) && o.kind != Rep2 && text[pos..] == [Letter(o.kind)] + rest
    ensures pos < |text| && Command(text[pos]) && Token(text, pos) == [o] && text[TokenEnd(text, pos)..] == rest
  {
    assert text[pos..][0] == Letter(o.kind) && text[pos..][1..] == rest;
    LetterRead(o.kind);
  }

  lemma RepRead(text: string, pos: nat, c: nat, digits: string, rest: string)
    requires pos <= |text| && c <= MAXCYCLES && digits == Number(c) && text[pos..] == ")*" + digits + rest
    requires rest == "" || !Digit(rest[0])
    ensures pos < |text| && Command(text[pos]) && Token(text, pos) == [NewOp(Rep2, c)] && text[TokenEnd(text, pos)..] == rest
  {
    var next := RepSlices(text, pos, digits, rest);
    CountRead(text, pos, c, rest);
  }

  lemma RepSlices(text: string, pos: nat, digits: string, rest: string) returns (next: nat)
    requires pos <= |text| && text[pos..] == ")*" + digits + rest
    ensures next == pos + 2 + |digits| <= |text| && text[next..] == rest
    ensures text[pos] == ')' && text[pos + 1] == '*' && text[pos + 2..] == digits + rest
  {
    next := pos + 2 + |digits|;
    var all := text[pos..];
    assert |all| == 2 + |digits| + |rest|;
    assert all[0] == ')' && all[1] == '*';
    assert text[pos + 2..] == all[2..] == digits + rest;
    assert text[next..] == all[2 + |digits|..] == rest;
  }

  /** Every list of tokens that the reader can deliver is delivered for the text written from it. */
  lemma {:induction false} ReadWritten(text: string, pos: nat, ops: seq<Op>)
    requires pos <= |text| && text[pos..] == Write(ops) && forall i :: 0 <= i < |ops| ==> Fresh(ops[i])
    ensures Tokens(text, pos) == ops
    decreases |ops|
  {
    if ops == [] {
      assert |text[pos..]| == 0;
    } else {
      var o, rest := ops[0], Write(ops[1..]);
      if o.kind == Rep2 {
        if |ops| > 1 { NoDigitFirst(ops[1..]); }
        RepRead(text, pos, o.count, Number(o.count), rest);
      } else {
        PlainRead(text, pos, o, rest);
      }
      TokenHead(text, pos);
      ReadWritten(text, TokenEnd(text, pos), ops[1..]);
      assert ops == [o] + ops[1..];
    }
  }
}
