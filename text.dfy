/** Text helpers shared by the cache code: Hutool's blank test, Java's decimal
    rendering of a long (used whenever an id is concatenated into a key), and
    the time units the store and the logical-expiration envelope use. */
module Text {

  /** Hutool's CharUtil.isBlankChar: Java whitespace, Unicode space separators
      and a few invisible characters Hutool adds to them. */
  predicate IsBlankChar(c: char)
  {
    || c == ' ' || c == '\t' || c == '\n' || c == '\U{B}' || c == '\U{C}' || c == '\r'
    || ('\U{1C}' <= c <= '\U{1F}')
    || c == '\U{A0}' || c == '\U{1680}' || ('\U{2000}' <= c <= '\U{200A}')
    || c == '\U{2028}' || c == '\U{2029}' || c == '\U{202F}' || c == '\U{205F}' || c == '\U{3000}'
    || c == '\U{FEFF}' || c == '\U{202A}' || c == '\U{0}' || c == '\U{3164}' || c == '\U{2800}' || c == '\U{180E}'
  }

  /** StrUtil.isBlank on a non-null string: every character is blank
      (so the empty string is blank). */
  predicate IsBlank(s: string)
  {
    forall i :: 0 <= i < |s| ==> IsBlankChar(s[i])
  }

  lemma EmptyIsBlank()
    ensures IsBlank("")
  {
  }

  function DigitChar(d: nat): (c: char)
    requires d < 10
    ensures '0' <= c <= '9' && c as int - '0' as int == d
  {
    ('0' as int + d) as char
  }

  /** Decimal digits of a non-negative number, most significant first. */
  function Digits(n: nat): string
    decreases n
  {
    if n < 10 then [DigitChar(n)] else Digits(n / 10) + [DigitChar(n % 10)]
  }

  /** Long.toString: an optional minus sign followed by the digits. */
  function LongText(n: int): string
  {
    if n < 0 then "-" + Digits(-n) else Digits(n)
  }

  lemma {:induction false} DigitsShape(n: nat)
    ensures |Digits(n)| >= 1
    ensures (|Digits(n)| == 1) == (n < 10)
    ensures forall i :: 0 <= i < |Digits(n)| ==> '0' <= Digits(n)[i] <= '9'
    decreases n
  {
    if n >= 10 {
      DigitsShape(n / 10);
    }
  }

  /** Different numbers have different digit strings. */
  lemma {:induction false} DigitsInjective(a: nat, b: nat)
    requires Digits(a) == Digits(b)
    ensures a == b
    decreases a
  {
    DigitsShape(a);
    DigitsShape(b);
    if a >= 10 && b >= 10 {
      var da, db := Digits(a), Digits(b);
      assert da[|da| - 1] == DigitChar(a % 10);
      assert db[|db| - 1] == DigitChar(b % 10);
      assert da[..|da| - 1] == Digits(a / 10);
      assert db[..|db| - 1] == Digits(b / 10);
      DigitsInjective(a / 10, b / 10);
    } else {
      assert Digits(a)[0] == DigitChar(a) && Digits(b)[0] == DigitChar(b);
    }
  }

  /** The first character of Long.toString tells the sign. */
  lemma LongTextSign(n: int)
    ensures |LongText(n)| >= 1
    ensures (LongText(n)[0] == '-') == (n < 0)
  {
    DigitsShape(if n < 0 then -n else n);
  }

  /** Long.toString is one-to-one: two ids render to the same text only when
      they are the same id, so `prefix + id` keys of distinct ids differ. */
  lemma LongTextInjective(a: int, b: int)
    requires LongText(a) == LongText(b)
    ensures a == b
  {
    LongTextSign(a);
    LongTextSign(b);
    if a < 0 {
      assert LongText(a)[1..] == Digits(-a);
      assert LongText(b)[1..] == Digits(-b);
      DigitsInjective(-a, -b);
    } else {
      DigitsInjective(a, b);
    }
  }

  /** Keys built from two prefixes and the same id text coincide only when the
      prefixes do. */
  lemma SameSuffixCancels(p: string, q: string, s: string)
    requires p + s == q + s
    ensures p == q
  {
    assert |p| == |q|;
    assert p == (p + s)[..|p|];
    assert q == (q + s)[..|q|];
  }

  /** Keys built from the same prefix and two id texts coincide only when the
      ids do. */
  lemma SamePrefixCancels(p: string, s: string, t: string)
    requires p + s == p + t
    ensures s == t
  {
    assert s == (p + s)[|p|..];
    assert t == (p + t)[|p|..];
  }

  /** java.util.concurrent.TimeUnit, all seven of its values. */
  datatype TimeUnit = Nanoseconds | Microseconds | Milliseconds | Seconds | Minutes | Hours | Days

  /** A TTL or a delay as the source writes it: an amount and its unit. */
  datatype Duration = Duration(amount: nat, unit: TimeUnit)

  /** TimeUnit.toSeconds: truncating for units below a second, exact above. */
  function ToSeconds(amount: nat, unit: TimeUnit): (s: nat)
    ensures unit == Nanoseconds ==> s * 1000000000 <= amount < s * 1000000000 + 1000000000
    ensures unit == Microseconds ==> s * 1000000 <= amount < s * 1000000 + 1000000
    ensures unit == Seconds ==> s == amount
    ensures unit == Milliseconds ==> s * 1000 <= amount < s * 1000 + 1000
    ensures unit == Minutes ==> s == amount * 60
    ensures unit == Hours ==> s == amount * 3600
    ensures unit == Days ==> s == amount * 86400
  {
    match unit
    case Nanoseconds => amount / 1000000000
    case Microseconds => amount / 1000000
    case Milliseconds => amount / 1000
    case Seconds => amount
    case Minutes => amount * 60
    case Hours => amount * 3600
    case Days => amount * 86400
  }
}
