/**
 * Text helpers used by the engine's templates: decimal printing of numbers as
 * JavaScript template literals print them, `Array.prototype.join`, and the
 * concatenation that a loop of `+=` performs.
 */
module Text {

  /** `part` occurs somewhere inside `s`. */
  ghost predicate IsInfix(part: string, s: string) {
    exists at: nat :: OccursAt(part, s, at)
  }

  /** `part` stands in `s` starting at position `at`. */
  predicate OccursAt(part: string, s: string, at: nat) {
    at + |part| <= |s| && s[at .. at + |part|] == part
  }

  lemma InfixAt(part: string, s: string, at: nat)
    requires OccursAt(part, s, at)
    ensures IsInfix(part, s)
  {
  }

  /** A piece found in `s` is still found once text is added on either side. */
  lemma {:induction false} InfixWiden(part: string, s: string, before: string, after: string)
    requires IsInfix(part, s)
    ensures IsInfix(part, before + s + after)
  {
    var at: nat :| OccursAt(part, s, at);
    var w := before + s + after;
    assert w[|before| + at .. |before| + at + |part|] == s[at .. at + |part|];
    InfixAt(part, w, |before| + at);
  }

  // ---------------------------------------------------------------- numbers

  predicate IsDigit(c: char) {
    '0' <= c <= '9'
  }

  function Digit(d: nat): (c: char)
    requires d < 10
    ensures IsDigit(c)
    ensures c as int - '0' as int == d
  {
    ('0' as int + d) as char
  }

  /** Decimal text of a natural number: digits only, never empty, no leading zero. */
  function NatToString(n: nat): (s: string)
    ensures |s| > 0
    ensures forall i :: 0 <= i < |s| ==> IsDigit(s[i])
    ensures s[0] == '0' ==> n == 0
    decreases n
  {
    if n < 10 then [Digit(n)] else NatToString(n / 10) + [Digit(n % 10)]
  }

  /** Value of a string of decimal digits (the reading a user gives the printed count). */
  function ParseNat(s: string): nat
    requires forall i :: 0 <= i < |s| ==> IsDigit(s[i])
  {
    if s == [] then 0
    else
      var last := s[|s| - 1];
      assert IsDigit(last);
      ParseNat(s[..|s| - 1]) * 10 + (last as int - '0' as int) as nat
  }

  lemma {:induction false} NatToStringRoundTrip(n: nat)
    ensures ParseNat(NatToString(n)) == n
    decreases n
  {
    if n >= 10 {
      NatToStringRoundTrip(n / 10);
      var s := NatToString(n);
      assert s[..|s| - 1] == NatToString(n / 10);
    }
  }

  /** Distinct counts print as distinct text. */
  lemma NatToStringInjective(a: nat, b: nat)
    requires NatToString(a) == NatToString(b)
    ensures a == b
  {
    NatToStringRoundTrip(a);
    NatToStringRoundTrip(b);
  }

  /** Length of the run of digits that starts `s`. */
  function DigitRun(s: string): nat {
    if s == [] || !IsDigit(s[0]) then 0 else 1 + DigitRun(s[1..])
  }

  lemma {:induction false} DigitRunOfDigits(x: string, t: string)
    requires forall i :: 0 <= i < |x| ==> IsDigit(x[i])
    requires |t| > 0 && !IsDigit(t[0])
    ensures DigitRun(x + t) == |x|
    decreases |x|
  {
    if x == [] {
      assert x + t == t;
    } else {
      assert (x + t)[1..] == x[1..] + t;
      DigitRunOfDigits(x[1..], t);
    }
  }

  /** Digits followed by text that starts with a non-digit split in only one way. */
  lemma DigitsThenText(x: string, tx: string, y: string, ty: string)
    requires forall i :: 0 <= i < |x| ==> IsDigit(x[i])
    requires forall i :: 0 <= i < |y| ==> IsDigit(y[i])
    requires |tx| > 0 && !IsDigit(tx[0]) && |ty| > 0 && !IsDigit(ty[0])
    requires x + tx == y + ty
    ensures x == y && tx == ty
  {
    DigitRunOfDigits(x, tx);
    DigitRunOfDigits(y, ty);
    assert x == (x + tx)[..|x|];
    assert y == (y + ty)[..|y|];
    assert tx == (x + tx)[|x|..];
    assert ty == (y + ty)[|y|..];
  }

  /** A count printed between two fixed pieces of text can be read back: the framed text determines it. */
  lemma FramedNatInjective(before: string, after: string, a: nat, b: nat)
    requires before + NatToString(a) + after == before + NatToString(b) + after
    ensures a == b
  {
    var x, y := NatToString(a), NatToString(b);
    var w := before + x + after;
    assert |x| == |y|;
    assert w[|before| .. |before| + |x|] == x;
    assert (before + y + after)[|before| .. |before| + |y|] == y;
    NatToStringInjective(a, b);
  }

  /** Length of the run of digits that ends `s`. */
  function TrailingDigitRun(s: string): nat {
    if s == [] || !IsDigit(s[|s| - 1]) then 0 else 1 + TrailingDigitRun(s[..|s| - 1])
  }

  lemma {:induction false} TrailingDigitRunOfDigits(p: string, x: string)
    requires |p| > 0 && !IsDigit(p[|p| - 1])
    requires forall i :: 0 <= i < |x| ==> IsDigit(x[i])
    ensures TrailingDigitRun(p + x) == |x|
    decreases |x|
  {
    if x == [] {
      assert p + x == p;
    } else {
      var w := p + x;
      assert w[..|w| - 1] == p + x[..|x| - 1];
      TrailingDigitRunOfDigits(p, x[..|x| - 1]);
    }
  }

  /** Text ending in a non-digit followed by digits splits in only one way. */
  lemma TextThenDigits(p1: string, x1: string, p2: string, x2: string)
    requires |p1| > 0 && !IsDigit(p1[|p1| - 1]) && |p2| > 0 && !IsDigit(p2[|p2| - 1])
    requires forall i :: 0 <= i < |x1| ==> IsDigit(x1[i])
    requires forall i :: 0 <= i < |x2| ==> IsDigit(x2[i])
    requires p1 + x1 == p2 + x2
    ensures p1 == p2 && x1 == x2
  {
    TrailingDigitRunOfDigits(p1, x1);
    TrailingDigitRunOfDigits(p2, x2);
    var w := p1 + x1;
    assert p1 == w[..|w| - |x1|] && x1 == w[|w| - |x1|..];
    assert p2 == w[..|w| - |x2|] && x2 == w[|w| - |x2|..];
  }

  /**
   * A count printed after text that ends in a non-digit, and before a common
   * ending, can be read back even when the text before it differs.
   */
  lemma AfterTextNatInjective(before1: string, before2: string, after: string, a: nat, b: nat)
    requires |before1| > 0 && !IsDigit(before1[|before1| - 1])
    requires |before2| > 0 && !IsDigit(before2[|before2| - 1])
    requires before1 + NatToString(a) + after == before2 + NatToString(b) + after
    ensures a == b && before1 == before2
  {
    var x, y := NatToString(a), NatToString(b);
    var w := before1 + x + after;
    assert before1 + x == w[..|w| - |after|];
    assert before2 + y == (before2 + y + after)[..|w| - |after|];
    TextThenDigits(before1, x, before2, y);
    NatToStringInjective(a, b);
  }

  /** Decimal text of an integer, with a leading minus sign when negative. */
  function IntToString(i: int): (s: string)
    ensures |s| > 0
    ensures s[0] == '-' <==> i < 0
    ensures s[0] == '-' || IsDigit(s[0])
    ensures i >= 0 ==> s == NatToString(i)
    ensures i < 0 ==> s[1..] == NatToString(-i)
  {
    if i < 0 then "-" + NatToString(-i) else NatToString(i)
  }

  // ---------------------------------------------------------- join / concat

  /** `parts.join(sep)`: the parts in order with `sep` between neighbours. */
  function Join(parts: seq<string>, sep: string): string {
    if |parts| == 0 then ""
    else if |parts| == 1 then parts[0]
    else parts[0] + sep + Join(parts[1..], sep)
  }

  /** Every part stands, unchanged, at some position of the joined text. */
  lemma {:induction false} JoinOffset(parts: seq<string>, sep: string, k: nat) returns (at: nat)
    requires k < |parts|
    ensures at + |parts[k]| <= |Join(parts, sep)|
    ensures Join(parts, sep)[at .. at + |parts[k]|] == parts[k]
  {
    var j := Join(parts, sep);
    if k == 0 {
      at := 0;
      if |parts| > 1 {
        assert j == parts[0] + (sep + Join(parts[1..], sep));
      }
    } else {
      var rest := Join(parts[1..], sep);
      var inner := JoinOffset(parts[1..], sep, k - 1);
      at := |parts[0]| + |sep| + inner;
      assert j == (parts[0] + sep) + rest;
      assert j[at .. at + |parts[k]|] == rest[inner .. inner + |parts[k]|];
    }
  }

  lemma JoinContains(parts: seq<string>, sep: string, k: nat)
    requires k < |parts|
    ensures IsInfix(parts[k], Join(parts, sep))
  {
    var at := JoinOffset(parts, sep, k);
    InfixAt(parts[k], Join(parts, sep), at);
  }

  /** Each part preceded by the separator. */
  function Prefixed(parts: seq<string>, sep: string): (r: seq<string>)
    ensures |r| == |parts|
  {
    seq(|parts|, k requires 0 <= k < |parts| => sep + parts[k])
  }

  /**
   * The joined text is the first part, then every later part in list order,
   * each after one separator, and nothing else.
   */
  lemma {:induction false} JoinInOrder(parts: seq<string>, sep: string)
    requires |parts| > 0
    ensures Join(parts, sep) == parts[0] + Concat(Prefixed(parts[1..], sep))
    decreases |parts|
  {
    if |parts| == 1 {
      assert Prefixed(parts[1..], sep) == [];
    } else {
      var rest := parts[1..];
      JoinInOrder(rest, sep);
      assert rest[1..] == parts[2..];
      var tail := Prefixed(parts[2..], sep);
      assert Prefixed(rest, sep) == [sep + rest[0]] + tail;
      ConcatAppend([sep + rest[0]], tail);
      assert Concat([sep + rest[0]]) == Concat([]) + (sep + rest[0]);
      AppendAssoc(parts[0], sep, rest[0] + Concat(tail));
      AppendAssoc(sep, rest[0], Concat(tail));
    }
  }

  /** The text a loop `for (p of parts) out += p` appends. */
  function Concat(parts: seq<string>): string {
    if parts == [] then "" else Concat(parts[..|parts| - 1]) + parts[|parts| - 1]
  }

  lemma {:induction false} ConcatAppend(a: seq<string>, b: seq<string>)
    ensures Concat(a + b) == Concat(a) + Concat(b)
    decreases |b|
  {
    if b == [] {
      assert a + b == a;
    } else {
      var c := a + b;
      var b' := b[..|b| - 1];
      assert c[..|c| - 1] == a + b';
      ConcatAppend(a, b');
    }
  }

  /** Part `i` sits between the concatenation of the parts before it and of those after it. */
  lemma ConcatAt(parts: seq<string>, i: nat)
    requires i < |parts|
    ensures Concat(parts) == Concat(parts[..i]) + parts[i] + Concat(parts[i + 1..])
  {
    var upTo := parts[..i + 1];
    assert parts == upTo + parts[i + 1..];
    ConcatAppend(upTo, parts[i + 1..]);
    assert upTo[..|upTo| - 1] == parts[..i];
  }

  /** A section made of a heading and lines, split around its line `i`. */
  lemma SectionSplit(before: string, heading: string, lines: seq<string>, i: nat, after: string)
    requires i < |lines|
    ensures before + (heading + Concat(lines)) + after
            == before + heading + Concat(lines[..i]) + lines[i] + Concat(lines[i + 1..]) + after
  {
    ConcatAt(lines, i);
    var a, l, b := Concat(lines[..i]), lines[i], Concat(lines[i + 1..]);
    var x := before + heading;
    AppendAssoc(before, heading, a + l + b);
    AppendAssoc(x, a + l, b);
    AppendAssoc(x, a, l);
  }

  /** One more loop round appends one more part. */
  lemma ConcatSnoc(parts: seq<string>, i: nat)
    requires i < |parts|
    ensures Concat(parts[..i + 1]) == Concat(parts[..i]) + parts[i]
  {
    assert parts[..i + 1][..i] == parts[..i];
  }

  lemma AppendAssoc(a: string, b: string, c: string)
    ensures (a + b) + c == a + (b + c)
  {
  }
}
