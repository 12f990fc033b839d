/** The Python string operations the scraper relies on: int() on a cell,
    the 02d number format, lower(), slicing off the last character,
    split('/').pop(), replace(':', ' -') and os.path.join. */
module Text {
  import opened Common

  predicate IsDigit(c: char) {
    '0' <= c <= '9'
  }

  predicate AllDigits(s: string) {
    forall i :: 0 <= i < |s| ==> IsDigit(s[i])
  }

  /** A non-empty run of decimal digits. */
  predicate IsDigits(s: string) {
    |s| > 0 && AllDigits(s)
  }

  /** The whitespace int() ignores around a number (its ASCII part: space,
      tab, line feed, carriage return, vertical tab and form feed). */
  predicate IsSpace(c: char) {
    c == ' ' || c == '\t' || c == '\n' || c == '\r' || c == '\U{000B}' || c == '\U{000C}'
  }

  function DigitValue(c: char): nat
    requires IsDigit(c)
  {
    c as int - '0' as int
  }

  function DigitChar(d: nat): (c: char)
    requires d < 10
    ensures IsDigit(c) && DigitValue(c) == d
  {
    ('0' as int + d) as char
  }

  /** The number a run of decimal digits denotes; leading zeros are allowed. */
  function DigitsValue(s: string): nat
    requires AllDigits(s)
  {
    if s == [] then 0 else 10 * DigitsValue(s[..|s| - 1]) + DigitValue(s[|s| - 1])
  }

  /** The canonical decimal numeral of n: digits only, no leading zero. */
  function Decimal(n: nat): (s: string)
    ensures IsDigits(s)
    ensures s[0] == '0' ==> n == 0
    ensures |s| == 1 <==> n < 10
  {
    if n < 10 then [DigitChar(n)] else Decimal(n / 10) + [DigitChar(n % 10)]
  }

  lemma {:induction false} DecimalValue(n: nat)
    ensures DigitsValue(Decimal(n)) == n
  {
    if n >= 10 {
      var s := Decimal(n);
      assert s[..|s| - 1] == Decimal(n / 10);
      DecimalValue(n / 10);
    }
  }

  lemma {:induction false} LeadingZeroValue(s: string)
    requires AllDigits(s)
    ensures AllDigits("0" + s) && DigitsValue("0" + s) == DigitsValue(s)
  {
    if s != [] {
      assert ("0" + s)[..|s|] == "0" + s[..|s| - 1];
      LeadingZeroValue(s[..|s| - 1]);
    }
  }

  function TrimStart(s: string): string {
    if s != [] && IsSpace(s[0]) then TrimStart(s[1..]) else s
  }

  function TrimEnd(s: string): string {
    if s != [] && IsSpace(s[|s| - 1]) then TrimEnd(s[..|s| - 1]) else s
  }

  /** What lstrip() keeps is a suffix of its input. */
  lemma {:induction false} TrimStartSuffix(s: string)
    ensures |TrimStart(s)| <= |s| && TrimStart(s) == s[|s| - |TrimStart(s)|..]
  {
    if s != [] && IsSpace(s[0]) {
      TrimStartSuffix(s[1..]);
    }
  }

  /** What rstrip() keeps is a prefix of its input. */
  lemma {:induction false} TrimEndPrefix(s: string)
    ensures |TrimEnd(s)| <= |s| && TrimEnd(s) == s[..|TrimEnd(s)|]
  {
    if s != [] && IsSpace(s[|s| - 1]) {
      TrimEndPrefix(s[..|s| - 1]);
    }
  }

  /** str.strip() restricted to the whitespace int() skips. */
  function Strip(s: string): string {
    TrimEnd(TrimStart(s))
  }

  /** int() of text without surrounding whitespace: one optional sign, then
      one or more decimal digits. */
  function ParseTrimmed(t: string): Option<int> {
    if t != [] && (t[0] == '+' || t[0] == '-') then
      if IsDigits(t[1..]) then
        Some(if t[0] == '-' then -(DigitsValue(t[1..]) as int) else DigitsValue(t[1..]))
      else
        None
    else if IsDigits(t) then
      Some(DigitsValue(t))
    else
      None
  }

  /** Python's int() applied to a string: None stands for the ValueError it raises.
      Accepted: surrounding whitespace, one optional sign, one or more decimal digits. */
  function ParseInt(s: string): Option<int> {
    ParseTrimmed(Strip(s))
  }

  /** int() of text without a single digit raises. */
  lemma NoDigitNoNumber(s: string)
    requires forall i :: 0 <= i < |s| ==> !IsDigit(s[i])
    ensures ParseInt(s) == None
  {
    var u := TrimStart(s);
    TrimStartSuffix(s);
    TrimEndPrefix(u);
    var t := Strip(s);
    assert forall i :: 0 <= i < |t| ==> t[i] == s[|s| - |u| + i];
  }

  /** |n|, the number 02d writes the digits of. */
  function Magnitude(n: int): (m: nat)
    ensures m == n || m == -n
  {
    if n < 0 then -n else n
  }

  /** Python's f'{n:02d}': a sign for negative numbers, then at least two
      characters in all, padded with zeros (the sign counts towards the two). */
  function Pad2(n: int): string
  {
    var d := Decimal(Magnitude(n));
    if n < 0 then "-" + d
    else if |d| < 2 then "0" + d
    else d
  }

  /** 02d writes at least two characters, starting with '-' exactly for
      negative numbers; what it writes without a sign is all digits. */
  lemma Pad2Digits(n: int)
    ensures |Pad2(n)| >= 2
    ensures n < 0 <==> Pad2(n)[0] == '-'
    ensures n >= 0 <==> IsDigits(Pad2(n))
    ensures IsDigit(Pad2(n)[|Pad2(n)| - 1])
  {
    if n < 0 {
      assert !IsDigit(Pad2(n)[0]);
    } else if n < 10 {
      assert Pad2(n) == "0" + Decimal(n);
      LeadingZeroValue(Decimal(n));
    }
  }

  lemma StripUnpadded(s: string)
    requires s != [] && !IsSpace(s[0]) && !IsSpace(s[|s| - 1])
    ensures Strip(s) == s
  {
    assert TrimStart(s) == s;
  }

  lemma ParseDigits(d: string)
    requires IsDigits(d)
    ensures ParseInt(d) == Some(DigitsValue(d) as int)
  {
    StripUnpadded(d);
  }

  lemma ParseNegative(d: string)
    requires IsDigits(d)
    ensures ParseInt("-" + d) == Some(-(DigitsValue(d) as int))
  {
    var t := "-" + d;
    assert t[1..] == d;
    assert !IsSpace(t[|t| - 1]) by {
      assert t[|t| - 1] == d[|d| - 1];
    }
    StripUnpadded(t);
  }

  lemma ParsePad2Negative(n: int)
    requires n < 0
    ensures ParseInt(Pad2(n)) == Some(n)
  {
    var m: nat := -n;
    ParseNegativeDecimal(m);
    assert Pad2(n) == "-" + Decimal(m);
  }

  lemma ParseNegativeDecimal(m: nat)
    ensures ParseInt("-" + Decimal(m)) == Some(-(m as int))
  {
    DecimalValue(m);
    ParseNegative(Decimal(m));
  }

  lemma ParsePad2OneDigit(n: int)
    requires 0 <= n < 10
    ensures ParseInt(Pad2(n)) == Some(n)
  {
    var d := Decimal(n);
    LeadingZeroValue(d);
    DecimalValue(n);
    ParseDigits("0" + d);
  }

  lemma ParsePad2Wide(n: int)
    requires n >= 10
    ensures ParseInt(Pad2(n)) == Some(n)
  {
    DecimalValue(n);
    ParseDigits(Decimal(n));
  }

  /** int() reads back every number that 02d writes. */
  lemma ParsePad2(n: int)
    ensures ParseInt(Pad2(n)) == Some(n)
  {
    if n < 0 {
      ParsePad2Negative(n);
    } else if n < 10 {
      ParsePad2OneDigit(n);
    } else {
      ParsePad2Wide(n);
    }
  }

  /** Distinct numbers are written differently. */
  lemma Pad2Injective(a: int, b: int)
    requires Pad2(a) == Pad2(b)
    ensures a == b
  {
    ParsePad2(a);
    ParsePad2(b);
  }

  function LowerChar(c: char): char {
    if 'A' <= c <= 'Z' then (c as int + 32) as char else c
  }

  /** str.lower() on ASCII letters. */
  function Lower(s: string): (r: string)
    ensures |r| == |s|
    ensures forall i :: 0 <= i < |r| ==> !('A' <= r[i] <= 'Z')
    ensures forall i :: 0 <= i < |r| ==> r[i] == s[i] || ('A' <= s[i] <= 'Z' && r[i] as int == s[i] as int + 32)
  {
    seq(|s|, i requires 0 <= i < |s| => LowerChar(s[i]))
  }

  /** Python's s[:-1]: everything but the last character; "" stays "". */
  function DropLast(s: string): (r: string)
    ensures s == [] ==> r == []
    ensures s != [] ==> r + [s[|s| - 1]] == s
  {
    if s == [] then [] else s[..|s| - 1]
  }

  /** Python's s.split('/').pop(): the text after the last '/', or all of s. */
  function LastSegment(s: string): (r: string)
    ensures '/' !in r
    ensures |r| <= |s| && r == s[|s| - |r|..]
    ensures |r| < |s| ==> s[|s| - |r| - 1] == '/'
  {
    if s == [] || s[|s| - 1] == '/' then [] else LastSegment(s[..|s| - 1]) + [s[|s| - 1]]
  }

  /** Python's s.replace(':', ' -'). */
  function ReplaceColons(s: string): (r: string)
    ensures ':' !in r
    ensures ':' !in s ==> r == s
    ensures |r| >= |s|
  {
    if s == [] then [] else (if s[0] == ':' then " -" else [s[0]]) + ReplaceColons(s[1..])
  }

  /** The last segment is everything after the last '/': it does not depend on
      what precedes that '/', and a string without '/' is its own last segment. */
  lemma {:induction false} LastSegmentAfterSlash(prefix: string, segment: string)
    requires '/' !in segment
    ensures LastSegment(segment) == segment
    ensures LastSegment(prefix + "/" + segment) == segment
    decreases |segment|
  {
    var s := prefix + "/" + segment;
    if segment == [] {
      assert s[|s| - 1] == '/';
    } else {
      var init := segment[..|segment| - 1];
      assert segment == init + [segment[|segment| - 1]];
      assert s[..|s| - 1] == prefix + "/" + init;
      LastSegmentAfterSlash(prefix, init);
    }
  }

  /** replace(':', ' -') works character by character: it distributes over
      concatenation, turns a ':' into " -" and keeps every other character. */
  lemma {:induction false} ReplaceColonsAppend(a: string, b: string)
    ensures ReplaceColons(a + b) == ReplaceColons(a) + ReplaceColons(b)
    decreases |a|
  {
    if a == [] {
      assert a + b == b;
    } else {
      assert (a + b)[0] == a[0] && (a + b)[1..] == a[1..] + b;
      ReplaceColonsAppend(a[1..], b);
    }
  }

  lemma ReplaceColonsChar(c: char)
    ensures c == ':' ==> ReplaceColons([c]) == " -"
    ensures c != ':' ==> ReplaceColons([c]) == [c]
  {
    assert [c][1..] == [];
  }

  /** posixpath.join(a, b) for two components. */
  function PathJoin(a: string, b: string): string
  {
    if b != [] && b[0] == '/' then b
    else if a == [] || a[|a| - 1] == '/' then a + b
    else a + "/" + b
  }

  /** What join gives: b at the end; when b is relative, a at the start and
      a single '/' between them unless a is empty or already ends in '/'. */
  lemma PathJoinShape(a: string, b: string)
    ensures var r := PathJoin(a, b);
      && |b| <= |r| <= |a| + 1 + |b| && r[|r| - |b|..] == b
      && ((b == [] || b[0] != '/') ==> |a| <= |r| && r[..|a|] == a)
      && ((b == [] || b[0] != '/') && a != [] ==> |a| + |b| < |r| + 1 && r[|r| - |b| - 1] == '/')
      && (b != [] && b[0] == '/' ==> r == b)
      && ((b == [] || b[0] != '/') && a == [] ==> r == b)
      && ((b == [] || b[0] != '/') && a != [] && a[|a| - 1] == '/' ==> r == a + b)
      && ((b == [] || b[0] != '/') && a != [] && a[|a| - 1] != '/' ==> r == a + "/" + b)
  {
  }
}
