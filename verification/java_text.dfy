/** The few pieces of java.lang and commons-lang that the two services rely on:
    nullable references, list filtering, String.valueOf(int), Integer.parseInt,
    Character.isWhitespace and StringUtils.isBlank. */
module JavaText {

  /** A Java reference that may be null. */
  datatype Option<T> = None | Some(value: T)

  /** A value or the exception that was thrown instead. */
  datatype Result<T, E> = Ok(value: T) | Err(error: E)

  /** The elements of `s` that satisfy `p`, in their original order: what a loop
      that copies the accepted elements of a list into a new ArrayList builds. */
  function Filter<T(!new)>(s: seq<T>, p: T -> bool): (r: seq<T>)
    ensures |r| <= |s|
    ensures forall x :: x in r <==> x in s && p(x)
    decreases |s|
  {
    if s == [] then []
    else Filter(s[..|s| - 1], p) + (if p(s[|s| - 1]) then [s[|s| - 1]] else [])
  }

  /** Filtering distributes over concatenation, so the relative order of the
      kept elements is the order they had in the input. */
  lemma {:induction false} FilterConcat<T(!new)>(a: seq<T>, b: seq<T>, p: T -> bool)
    ensures Filter(a + b, p) == Filter(a, p) + Filter(b, p)
    decreases |b|
  {
    if b == [] {
      assert a + b == a;
    } else {
      var b' := b[..|b| - 1];
      assert (a + b)[..|a + b| - 1] == a + b';
      assert (a + b)[|a + b| - 1] == b[|b| - 1];
      FilterConcat(a, b', p);
    }
  }

  /** Every element of a filtered list satisfies the filter. */
  lemma FilterAll<T(!new)>(s: seq<T>, p: T -> bool)
    ensures forall i :: 0 <= i < |Filter(s, p)| ==> p(Filter(s, p)[i])
  {
    var r := Filter(s, p);
    forall i | 0 <= i < |r| ensures p(r[i]) {
      assert r[i] in r;
    }
  }

  // ---------------------------------------------------------------------------
  // Decimal text: String.valueOf(int) and Integer.parseInt

  predicate IsDigit(c: char) {
    '0' <= c <= '9'
  }

  function DigitChar(d: nat): (c: char)
    requires d < 10
    ensures IsDigit(c) && c as int - '0' as int == d
  {
    ('0' as int + d) as char
  }

  function DigitValue(c: char): nat
    requires IsDigit(c)
  {
    c as int - '0' as int
  }

  /** Non-empty run of digits. */
  predicate IsDigits(s: string) {
    |s| >= 1 && forall i :: 0 <= i < |s| ==> IsDigit(s[i])
  }

  /** The text Integer.parseInt accepts in this model: an optional minus sign and digits. */
  predicate IsDecimal(s: string) {
    IsDigits(s) || (|s| >= 2 && s[0] == '-' && IsDigits(s[1..]))
  }

  /** Decimal digits of a natural number, most significant first, no leading zero. */
  function NatToString(n: nat): (s: string)
    ensures IsDigits(s)
    ensures s[0] == '0' ==> n == 0
    decreases n
  {
    if n < 10 then [DigitChar(n)] else NatToString(n / 10) + [DigitChar(n % 10)]
  }

  /** String.valueOf(int): a leading '-' for negative numbers, then the digits. */
  function IntToString(n: int): (s: string)
    ensures IsDecimal(s)
    ensures (s[0] == '-') == (n < 0)
  {
    if n < 0 then "-" + NatToString(-n) else NatToString(n)
  }

  function ParseNat(s: string): nat
    requires IsDigits(s)
    decreases |s|
  {
    if |s| == 1 then DigitValue(s[0])
    else ParseNat(s[..|s| - 1]) * 10 + DigitValue(s[|s| - 1])
  }

  /** Integer.parseInt on well-formed decimal text. */
  function ParseInt(s: string): int
    requires IsDecimal(s)
  {
    if IsDigits(s) then ParseNat(s) else 0 - ParseNat(s[1..])
  }

  lemma {:induction false} ParseNatToString(n: nat)
    ensures ParseNat(NatToString(n)) == n
    decreases n
  {
    if n >= 10 {
      var s := NatToString(n);
      assert s == NatToString(n / 10) + [DigitChar(n % 10)];
      assert s[..|s| - 1] == NatToString(n / 10);
      ParseNatToString(n / 10);
    }
  }

  /** A minus sign in front of digits negates their value. */
  lemma ParseNegative(t: string)
    requires IsDigits(t)
    ensures IsDecimal("-" + t) && ParseInt("-" + t) == 0 - ParseNat(t)
  {
    var u := "-" + t;
    assert u[1..] == t;
    assert !IsDigits(u) by { assert !IsDigit(u[0]); }
  }

  /** Integer.parseInt(String.valueOf(n)) == n: decimal labels and environment
      values written with String.valueOf carry the number unchanged. */
  lemma ParseIntToString(n: int)
    ensures ParseInt(IntToString(n)) == n
  {
    var s := IntToString(n);
    if n < 0 {
      var t := NatToString(-n);
      assert s == "-" + t;
      ParseNegative(t);
      ParseNatToString(-n);
    } else {
      assert s == NatToString(n);
      ParseNatToString(n);
    }
  }

  /** Different numbers have different decimal texts. */
  lemma IntToStringInjective(a: int, b: int)
    requires IntToString(a) == IntToString(b)
    ensures a == b
  {
    ParseIntToString(a);
    ParseIntToString(b);
  }

  // ---------------------------------------------------------------------------
  // Whitespace, blankness and prefixes

  /** Character.isWhitespace: the ASCII separators plus the Unicode space,
      line and paragraph separators other than the non-breaking ones. */
  predicate IsWhitespace(c: char) {
    || c == ' ' || c == '\t' || c == '\n' || c == '\U{0B}' || c == '\U{0C}' || c == '\r'
    || ('\U{1C}' <= c <= '\U{1F}')
    || c == '\U{1680}'
    || ('\U{2000}' <= c <= '\U{2006}')
    || ('\U{2008}' <= c <= '\U{200A}')
    || c == '\U{2028}' || c == '\U{2029}' || c == '\U{205F}' || c == '\U{3000}'
  }

  /** StringUtils.isBlank on a non-null string: empty or only whitespace. */
  predicate IsBlank(s: string) {
    forall i :: 0 <= i < |s| ==> IsWhitespace(s[i])
  }

  /** String.startsWith. */
  predicate StartsWith(s: string, prefix: string) {
    |prefix| <= |s| && s[..|prefix|] == prefix
  }
}
