/** JSON values, as far as the bridge looks at one, and Python's `str` and `int` of them. */
module JsonValues {
  import opened Wrappers

  /** Of an array or object only its truth value and text matter. `NonFinite` is `Infinity`,
      `-Infinity` or `NaN`, which Python's decoder accepts. `BridgeText` is a description the
      bridge wrote itself; its wording is not modelled. */
  datatype Json =
    | Null
    | Text(text: string)
    | Number(n: int)
    | Boolean(b: bool)
    | Fraction(value: real, rendering: string)
    | NonFinite(rendering: string)
    | Compound(truthy: bool, rendering: string)
    | BridgeText

  predicate Truthy(v: Json) {
    match v
    case Null => false
    case Text(s) => s != ""
    case Number(n) => n != 0
    case Boolean(b) => b
    case Fraction(x, _) => x != 0.0
    case NonFinite(_) => true
    case Compound(b, _) => b
    case BridgeText => true
  }

  function Digits(n: nat): string {
    if n < 10 then [('0' as int + n) as char] else Digits(n / 10) + [('0' as int + n % 10) as char]
  }

  /** The source's `str(value)`. */
  function Str(v: Json): string {
    match v
    case Null => "None"
    case Text(s) => s
    case Number(n) => if n < 0 then "-" + Digits(-n) else Digits(n)
    case Boolean(b) => if b then "True" else "False"
    case Fraction(_, r) => r
    case NonFinite(r) => r
    case Compound(_, r) => r
    case BridgeText => ""
  }

  // ----- int(value)

  predicate IsDigit(c: char) { '0' <= c <= '9' }

  predicate IsSpace(c: char) { c == ' ' || '\t' <= c <= '\r' }

  function StripLeft(s: string): string {
    if s != "" && IsSpace(s[0]) then StripLeft(s[1..]) else s
  }

  function StripRight(s: string): string {
    if s != "" && IsSpace(s[|s| - 1]) then StripRight(s[..|s| - 1]) else s
  }

  /** Digits, with single underscores allowed between them. */
  function ParseDigits(s: string): Option<int> {
    if s == "" || !IsDigit(s[|s| - 1]) then None
    else
      var digit := s[|s| - 1] as int - '0' as int;
      var front := s[..|s| - 1];
      if front == "" then Some(digit)
      else
        match ParseDigits(if front[|front| - 1] == '_' then front[..|front| - 1] else front)
        case None => None
        case Some(n) => Some(10 * n + digit)
  }

  function CountDigits(s: string): nat {
    if s == "" then 0 else CountDigits(s[..|s| - 1]) + if IsDigit(s[|s| - 1]) then 1 else 0
  }

  /** Python's limit on the digits of a number in a text. */
  const MAX_DIGITS := 4300

  function ParseSigned(t: string): Option<int> {
    if CountDigits(t) > MAX_DIGITS then None
    else if t != "" && t[0] == '-' then
      match ParseDigits(t[1..])
      case None => None
      case Some(n) => Some(-n)
    else if t != "" && t[0] == '+' then ParseDigits(t[1..])
    else ParseDigits(t)
  }

  function ParseInt(s: string): Option<int> { ParseSigned(StripRight(StripLeft(s))) }

  /** Toward zero. */
  function Truncated(x: real): int { if x < 0.0 then -((-x).Floor) else x.Floor }

  /** The source's `int(value)`; no value stands for the exception it raises. */
  function IntOf(v: Json): Option<int> {
    match v
    case Text(s) => ParseInt(s)
    case Number(n) => Some(n)
    case Boolean(b) => Some(if b then 1 else 0)
    case Fraction(x, _) => Some(Truncated(x))
    case _ => None
  }

  lemma {:induction false} DigitsParse(n: nat)
    ensures var s := Digits(n);
            s != "" && IsDigit(s[0]) && IsDigit(s[|s| - 1]) && CountDigits(s) == |s| && ParseDigits(s) == Some(n)
  {
    if n < 10 {
      assert Digits(n)[..0] == "";
    } else {
      DigitsParse(n / 10);
      assert Digits(n)[..|Digits(n)| - 1] == Digits(n / 10);
    }
  }

  lemma {:induction false} CountAfterSign(digits: string)
    ensures CountDigits("-" + digits) == CountDigits(digits)
  {
    if digits != "" {
      CountAfterSign(digits[..|digits| - 1]);
      assert ("-" + digits)[..|digits|] == "-" + digits[..|digits| - 1];
    }
  }

  lemma SignedParse(digits: string, n: int)
    requires digits != "" && IsDigit(digits[0])
    requires ParseDigits(digits) == Some(n) && CountDigits(digits) <= MAX_DIGITS
    ensures ParseSigned(digits) == Some(n) && ParseSigned("-" + digits) == Some(-n)
  {
    CountAfterSign(digits);
    assert ("-" + digits)[1..] == digits;
  }

  lemma NothingToStrip(s: string)
    requires s != "" && !IsSpace(s[0]) && !IsSpace(s[|s| - 1])
    ensures StripRight(StripLeft(s)) == s
  {
  }

  /** `int(str(n))` is n. */
  lemma IntOfStr(n: int)
    requires |Digits(if n < 0 then -n else n)| <= MAX_DIGITS
    ensures IntOf(Text(Str(Number(n)))) == Some(n)
  {
    var magnitude: nat := if n < 0 then -n else n;
    DigitsParse(magnitude);
    SignedParse(Digits(magnitude), magnitude);
    NothingToStrip(Str(Number(n)));
  }

  predicate Spaces(s: string) { forall k :: 0 <= k < |s| ==> IsSpace(s[k]) }

  lemma {:induction false} LeadingSpaces(spaces: string, s: string)
    requires Spaces(spaces)
    ensures StripLeft(spaces + s) == StripLeft(s)
  {
    if spaces == "" {
      assert spaces + s == s;
    } else {
      LeadingSpaces(spaces[1..], s);
      assert (spaces + s)[1..] == spaces[1..] + s;
    }
  }

  lemma {:induction false} TrailingSpaces(s: string, spaces: string)
    requires Spaces(spaces)
    ensures StripRight(s + spaces) == StripRight(s)
  {
    if spaces == "" {
      assert s + spaces == s;
    } else {
      TrailingSpaces(s, spaces[..|spaces| - 1]);
      assert (s + spaces)[..|s + spaces| - 1] == s + spaces[..|spaces| - 1];
    }
  }

  /** Spaces around a number do not matter to `int`. */
  lemma SpacesIgnored(before: string, s: string, after: string)
    requires Spaces(before) && Spaces(after) && s != "" && !IsSpace(s[0])
    ensures IntOf(Text(before + (s + after))) == IntOf(Text(s))
  {
    LeadingSpaces(before, s + after);
    TrailingSpaces(s, after);
    assert StripLeft(s + after) == s + after && StripLeft(s) == s;
  }

  /** Fractions are cut off toward zero. */
  lemma FractionsAreCutOff(x: real, rendering: string)
    ensures var n := IntOf(Fraction(x, rendering));
            n.Some? && if x < 0.0 then x <= n.value as real < x + 1.0 else x - 1.0 < n.value as real <= x
  {
  }
}
