/** The part of Go's `fmt` package that the CF API client relies on: the
    formatting done by `Sprintf` and `Errorf` with the `%s` and `%d` verbs, and
    decimal rendering of an `int`. */
module Fmt {

  /** An operand of a formatting call: a Go `string` or a Go `int`. */
  datatype Arg = Str(s: string) | Int(n: int)

  predicate IsDigit(c: char) {
    '0' <= c <= '9'
  }

  function DigitChar(d: nat): (c: char)
    requires d < 10
    ensures IsDigit(c) && DigitValue(c) == d
  {
    "0123456789"[d]
  }

  function DigitValue(c: char): nat
    requires IsDigit(c)
  {
    (c as int - '0' as int) as nat
  }

  /** Decimal digits of `n`, most significant first, without leading zeros. */
  function FormatNat(n: nat): (s: string)
    ensures |s| > 0
    ensures forall i :: 0 <= i < |s| ==> IsDigit(s[i])
    ensures s[0] == '0' ==> n == 0 && s == "0"
    decreases n
  {
    if n < 10 then [DigitChar(n)] else FormatNat(n / 10) + [DigitChar(n % 10)]
  }

  /** What `%d` prints for an `int`: a minus sign for negative values. */
  function FormatInt(n: int): (s: string)
    ensures |s| > 0
    ensures s[0] == '-' <==> n < 0
    ensures forall i :: 0 < i < |s| ==> IsDigit(s[i])
    ensures n >= 0 ==> IsDigit(s[0])
  {
    if n < 0 then "-" + FormatNat(-n) else FormatNat(n)
  }

  /** Reads back a string of decimal digits; the inverse of FormatNat. */
  function ParseNat(s: string): nat
    requires forall i :: 0 <= i < |s| ==> IsDigit(s[i])
  {
    if s == [] then 0 else ParseNat(s[..|s| - 1]) * 10 + DigitValue(s[|s| - 1])
  }

  lemma {:induction false} ParseFormatNat(n: nat)
    ensures ParseNat(FormatNat(n)) == n
    decreases n
  {
    var s := FormatNat(n);
    if n >= 10 {
      var front := FormatNat(n / 10);
      assert s[..|s| - 1] == front;
      ParseFormatNat(n / 10);
    }
  }

  /** Distinct integers print differently under `%d`. */
  lemma FormatIntInjective(a: int, b: int)
    requires FormatInt(a) == FormatInt(b)
    ensures a == b
  {
    FormatIntSign(a);
    FormatIntSign(b);
    if a < 0 {
      FormatNatInjective(-a, -b);
    } else {
      FormatNatInjective(a, b);
    }
  }

  lemma FormatNatInjective(x: nat, y: nat)
    requires FormatNat(x) == FormatNat(y)
    ensures x == y
  {
    ParseFormatNat(x);
    ParseFormatNat(y);
  }

  /** After its minus sign, `%d` output of a negative number is its magnitude. */
  lemma FormatIntSign(n: int)
    ensures n < 0 ==> FormatInt(n)[1..] == FormatNat(-n)
  {
  }

  /** What one verb prints for one operand; a mismatched operand is printed
      the way Go reports it, as in "%!d(string=x)". */
  function Render(verb: char, a: Arg): string {
    match a
    case Str(s) => if verb == 's' then s else "%!" + [verb] + "(string=" + s + ")"
    case Int(n) => if verb == 'd' then FormatInt(n) else "%!" + [verb] + "(int=" + FormatInt(n) + ")"
  }

  predicate IsVerb(c: char) {
    c == 's' || c == 'd'
  }

  /** Text with no `%`, which formatting copies unchanged. */
  predicate Plain(text: string) {
    forall i :: 0 <= i < |text| ==> text[i] != '%'
  }

  /** Whether the format string starts with a `%s` or `%d` verb. */
  predicate StartsWithVerb(format: string) {
    |format| >= 2 && format[0] == '%' && IsVerb(format[1])
  }

  /** What a verb prints: its operand, or "%!s(MISSING)" when none is left. */
  function Directive(verb: char, args: seq<Arg>): string {
    if args == [] then "%!" + [verb] + "(MISSING)" else Render(verb, args[0])
  }

  /** The operands left once a verb has consumed one. */
  function Remaining(args: seq<Arg>): seq<Arg> {
    if args == [] then [] else args[1..]
  }

  /** `fmt.Sprintf(format, args...)`: each `%s` or `%d` consumes the next
      operand, and every other character is copied. */
  function Sprintf(format: string, args: seq<Arg>): (r: string)
    ensures Plain(format) ==> r == format
    decreases |format|
  {
    if format == [] then ""
    else if StartsWithVerb(format) then Directive(format[1], args) + Sprintf(format[2..], Remaining(args))
    else [format[0]] + Sprintf(format[1..], args)
  }

  /** Text without a `%` is copied through unchanged, operands untouched. */
  lemma {:induction false} SprintfLiteral(text: string, rest: string, args: seq<Arg>)
    requires Plain(text)
    ensures Sprintf(text + rest, args) == text + Sprintf(rest, args)
    decreases |text|
  {
    if text == [] {
      assert text + rest == rest;
    } else {
      var c, tail := text[0], text[1..];
      SplitFirst(text, rest);
      SprintfChar(c, tail + rest, args);
      SprintfLiteral(tail, rest, args);
      Regroup(c, tail, Sprintf(rest, args));
    }
  }

  lemma SplitFirst(text: string, rest: string)
    requires text != []
    ensures text == [text[0]] + text[1..]
    ensures text + rest == [text[0]] + (text[1..] + rest)
  {
  }

  lemma Regroup(c: char, tail: string, s: string)
    ensures [c] + (tail + s) == ([c] + tail) + s
  {
  }

  lemma SprintfChar(c: char, rest: string, args: seq<Arg>)
    requires c != '%'
    ensures Sprintf([c] + rest, args) == [c] + Sprintf(rest, args)
  {
  }

  /** A `%s` or `%d` consumes exactly one operand. */
  lemma SprintfVerb(verb: char, rest: string, a: Arg, args: seq<Arg>)
    requires IsVerb(verb)
    ensures Sprintf(['%', verb] + rest, [a] + args) == Render(verb, a) + Sprintf(rest, args)
  {
  }

  /** `Sprintf("%s" + text + "%s", a, b)` joins the two strings around the text. */
  lemma SprintfAround(text: string, a: string, b: string)
    requires Plain(text)
    ensures Sprintf("%s" + (text + "%s"), [Str(a), Str(b)]) == a + (text + b)
  {
    SprintfLeadingTwo(text + "%s", Str(a), Str(b));
    SprintfTrailing(text, 's', Str(b));
  }

  lemma SprintfLeadingTwo(rest: string, a: Arg, b: Arg)
    ensures Sprintf("%s" + rest, [a, b]) == Render('s', a) + Sprintf(rest, [b])
  {
    assert "%s" + rest == ['%', 's'] + rest;
    assert [a, b] == [a] + [b];
    SprintfVerb('s', rest, a, [b]);
  }

  /** `Sprintf(text + "%d", n)` appends the decimal form of `n` to the text. */
  lemma SprintfTrailingInt(text: string, n: int)
    requires Plain(text)
    ensures Sprintf(text + "%d", [Int(n)]) == text + FormatInt(n)
  {
    SprintfTrailing(text, 'd', Int(n));
  }

  /** A format that ends in its only verb prints the text, then the operand. */
  lemma SprintfTrailing(text: string, verb: char, a: Arg)
    requires Plain(text)
    requires IsVerb(verb)
    ensures Sprintf(text + ['%', verb], [a]) == text + Render(verb, a)
  {
    SprintfLiteral(text, ['%', verb], [a]);
    SprintfSingle(verb, a);
  }

  lemma SprintfSingle(verb: char, a: Arg)
    requires IsVerb(verb)
    ensures Sprintf(['%', verb], [a]) == Render(verb, a)
  {
    assert ['%', verb] + [] == ['%', verb];
    assert [a] + [] == [a];
    SprintfVerb(verb, [], a, []);
  }
}
