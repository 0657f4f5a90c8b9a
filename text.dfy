/**
 * The few pieces of Python's string handling that the modelled scripts rely on:
 * `str.strip()`, `str.split()`, `str.split(sep)`, `in`, `str.lower()` and the
 * decimal forms accepted by `int()` and `float()`.
 */
module Text {
  import opened Wrappers
  import opened NumPy

  /**
   * The ASCII characters that `str.isspace()` accepts, which `str.split()`,
   * `str.strip()`, `int()` and `float()` treat as whitespace: space, tab,
   * line feed, vertical tab, form feed, carriage return, and the four
   * separators 0x1C to 0x1F.
   */
  predicate IsSpace(c: char) {
    c == ' ' || ('\t' <= c <= '\r') || ('\U{1C}' <= c <= '\U{1F}')
  }

  predicate NoSpace(s: string) {
    forall i :: 0 <= i < |s| ==> !IsSpace(s[i])
  }

  predicate IsDigit(c: char) {
    '0' <= c <= '9'
  }

  predicate AllDigits(s: string) {
    forall i :: 0 <= i < |s| ==> IsDigit(s[i])
  }

  // ---------------------------------------------------------------------------
  // Whitespace
  // ---------------------------------------------------------------------------

  function TrimStart(s: string): (r: string)
    ensures |r| <= |s| && r == s[|s| - |r|..]
    ensures |r| > 0 ==> !IsSpace(r[0])
    ensures forall i :: 0 <= i < |s| - |r| ==> IsSpace(s[i])
  {
    if |s| > 0 && IsSpace(s[0]) then TrimStart(s[1..]) else s
  }

  function TrimEnd(s: string): (r: string)
    ensures |r| <= |s| && r == s[..|r|]
    ensures |r| > 0 ==> !IsSpace(r[|r| - 1])
    ensures forall i :: |r| <= i < |s| ==> IsSpace(s[i])
  {
    if |s| > 0 && IsSpace(s[|s| - 1]) then TrimEnd(s[..|s| - 1]) else s
  }

  /** Python's `s.strip()`: the longest infix that neither starts nor ends with whitespace. */
  function Strip(s: string): (r: string)
    ensures |r| <= |s|
    ensures |r| > 0 ==> !IsSpace(r[0]) && !IsSpace(r[|r| - 1])
  {
    TrimEnd(TrimStart(s))
  }

  /** A string that neither starts nor ends with whitespace is left alone by `strip()`. */
  lemma StripUnchanged(s: string)
    requires |s| > 0 ==> !IsSpace(s[0]) && !IsSpace(s[|s| - 1])
    ensures Strip(s) == s
  {
  }

  // ---------------------------------------------------------------------------
  // Splitting
  // ---------------------------------------------------------------------------

  /** The longest prefix of `s` that holds no whitespace. */
  function LeadingWord(s: string): (w: string)
    ensures |w| <= |s| && w == s[..|w|] && NoSpace(w)
    ensures |w| < |s| ==> IsSpace(s[|w|])
  {
    if |s| == 0 || IsSpace(s[0]) then [] else [s[0]] + LeadingWord(s[1..])
  }

  /** Non-empty words without whitespace. */
  predicate NonBlankWords(ws: seq<string>) {
    forall k :: 0 <= k < |ws| ==> |ws[k]| > 0 && NoSpace(ws[k])
  }

  lemma NonBlankCons(w: string, ws: seq<string>)
    requires |w| > 0 && NoSpace(w) && NonBlankWords(ws)
    ensures NonBlankWords([w] + ws)
  {
    assert forall k :: 1 <= k < |[w] + ws| ==> ([w] + ws)[k] == ws[k - 1];
  }

  /** Python's `s.split()`: the maximal runs of non-whitespace characters, in order. */
  function Words(s: string): (ws: seq<string>)
    ensures NonBlankWords(ws)
    decreases |s|
  {
    var t := TrimStart(s);
    if t == [] then []
    else
      var w := LeadingWord(t);
      assert |w| > 0 by {
        assert !IsSpace(t[0]);
      }
      NonBlankCons(w, Words(t[|w|..]));
      [w] + Words(t[|w|..])
  }

  /** A text with no leading whitespace splits into its leading word and the words of what follows it. */
  lemma WordsUnfold(s: string)
    requires |s| > 0 && !IsSpace(s[0])
    ensures Words(s) == [LeadingWord(s)] + Words(s[|LeadingWord(s)|..])
  {
    assert TrimStart(s) == s;
  }

  /** A single whitespace-free word splits into itself. */
  lemma WordsOfOne(b: string)
    requires |b| > 0 && NoSpace(b)
    ensures Words(b) == [b]
  {
    assert TrimStart(b) == b;
    LeadingWordOf(b, []);
    assert b + [] == b;
    assert b[|b|..] == [];
  }

  /** Two whitespace-free words separated by one space split back into those two words. */
  lemma WordsOfTwo(a: string, b: string)
    requires |a| > 0 && NoSpace(a)
    requires |b| > 0 && NoSpace(b)
    ensures Words(a + " " + b) == [a, b]
  {
    var s := a + " " + b;
    var rest := " " + b;
    assert s == a + rest && s[0] == a[0];
    LeadingWordOf(a, rest);
    WordsUnfold(s);
    assert s[|a|..] == rest;
    WordsAfterSpace(b);
  }

  /** A whitespace-free word after one space splits into that word. */
  lemma WordsAfterSpace(b: string)
    requires |b| > 0 && NoSpace(b)
    ensures Words(" " + b) == [b]
  {
    var rest := " " + b;
    assert |rest| > 0 && IsSpace(rest[0]);
    assert TrimStart(rest) == TrimStart(rest[1..]);
    assert rest[1..] == b;
    WordsOfOne(b);
    assert Words(rest) == Words(b);
  }

  /** `LeadingWord` stops exactly at the first whitespace character that follows a word. */
  lemma {:induction false} LeadingWordOf(a: string, rest: string)
    requires NoSpace(a)
    requires |rest| == 0 || IsSpace(rest[0])
    ensures LeadingWord(a + rest) == a
  {
    if |a| > 0 {
      assert (a + rest)[1..] == a[1..] + rest;
      LeadingWordOf(a[1..], rest);
    } else {
      assert a + rest == rest;
    }
  }

  /**
   * Python's `s.split(sep)` for a non-empty separator: the pieces between the
   * non-overlapping occurrences of `sep`, found from left to right.
   */
  function Split(s: string, sep: string): (parts: seq<string>)
    requires |sep| > 0
    ensures |parts| >= 1
    decreases |s|
  {
    if |s| < |sep| then [s]
    else if s[..|sep|] == sep then [""] + Split(s[|sep|..], sep)
    else
      var rest := Split(s[1..], sep);
      [[s[0]] + rest[0]] + rest[1..]
  }

  /** Python's `pat in s`. */
  predicate Contains(s: string, pat: string)
    decreases |s|
  {
    pat <= s || (|s| > 0 && Contains(s[1..], pat))
  }

  /** A string that does not contain the separator is a single piece. */
  lemma {:induction false} SplitWithoutSeparator(s: string, sep: string)
    requires |sep| > 0 && !Contains(s, sep)
    ensures Split(s, sep) == [s]
    decreases |s|
  {
    if |s| >= |sep| {
      assert !(sep <= s);
      SplitWithoutSeparator(s[1..], sep);
      assert [s[0]] + s[1..] == s;
    }
  }

  /** Splitting `a + sep + b`, where `a` holds no separator, gives `a` followed by the pieces of `b`. */
  lemma {:induction false} SplitAfterPiece(a: string, sep: string, b: string)
    requires |sep| > 0
    requires !Contains(a + sep[..|sep| - 1], sep)
    ensures Split(a + sep + b, sep) == [a] + Split(b, sep)
    decreases |a|
  {
    var s := a + sep + b;
    if |a| == 0 {
      assert s == sep + b;
      assert s[..|sep|] == sep;
      assert s[|sep|..] == b;
    } else {
      var t := a + sep[..|sep| - 1];
      assert |t| >= |sep|;
      assert t[..|sep|] == s[..|sep|];
      assert !(sep <= t);
      assert s[1..] == a[1..] + sep + b;
      assert a + sep[..|sep| - 1] == [a[0]] + (a[1..] + sep[..|sep| - 1]);
      assert (a + sep[..|sep| - 1])[1..] == a[1..] + sep[..|sep| - 1];
      SplitAfterPiece(a[1..], sep, b);
      assert [a[0]] + a[1..] == a;
    }
  }

  /**
   * A string in which the first character of `pat` does not occur, followed by
   * fewer characters than `pat` has, does not contain `pat`.
   */
  lemma {:induction false} NotContainsWithout(a: string, t: string, pat: string)
    requires |pat| > 0 && pat[0] !in a && |t| < |pat|
    ensures !Contains(a + t, pat)
    decreases |a|
  {
    if |a| == 0 {
      assert a + t == t;
      NotContainsShort(t, pat);
    } else {
      assert (a + t)[0] == a[0];
      assert (a + t)[1..] == a[1..] + t;
      assert forall c :: c in a[1..] ==> c in a;
      NotContainsWithout(a[1..], t, pat);
    }
  }

  lemma {:induction false} NotContainsShort(t: string, pat: string)
    requires |t| < |pat|
    ensures !Contains(t, pat)
    decreases |t|
  {
    if |t| > 0 {
      NotContainsShort(t[1..], pat);
    }
  }

  /** `pat in a + pat + b`. */
  lemma {:induction false} ContainsInfix(a: string, pat: string, b: string)
    ensures Contains(a + pat + b, pat)
    decreases |a|
  {
    if |a| == 0 {
      assert a + pat + b == pat + b;
      assert pat <= pat + b;
    } else {
      assert (a + pat + b)[1..] == a[1..] + pat + b;
      ContainsInfix(a[1..], pat, b);
    }
  }

  /** `a + sep + b`, where neither piece holds the first character of `sep`, splits back into the two pieces. */
  lemma SplitAround(a: string, sep: string, b: string)
    requires |sep| > 0 && sep[0] !in a && sep[0] !in b
    ensures Contains(a + sep + b, sep)
    ensures Split(a + sep + b, sep) == [a, b]
  {
    ContainsInfix(a, sep, b);
    NotContainsWithout(a, sep[..|sep| - 1], sep);
    SplitAfterPiece(a, sep, b);
    NotContainsWithout(b, [], sep);
    assert b + [] == b;
    SplitWithoutSeparator(b, sep);
  }

  /** What a string contains, it still contains with text added after it. */
  lemma {:induction false} ContainsAppend(m: string, b: string, pat: string)
    requires Contains(m, pat)
    ensures Contains(m + b, pat)
    decreases |m|
  {
    if !(pat <= m) {
      ContainsAppend(m[1..], b, pat);
      assert (m + b)[1..] == m[1..] + b;
    }
  }

  /** What a string contains, it still contains with text added before it. */
  lemma {:induction false} ContainsPrepend(a: string, s: string, pat: string)
    requires Contains(s, pat)
    ensures Contains(a + s, pat)
    decreases |a|
  {
    if |a| == 0 {
      assert a + s == s;
    } else {
      ContainsPrepend(a[1..], s, pat);
      assert (a + s)[1..] == a[1..] + s;
    }
  }

  /**
   * Python's `sep.join(parts)`: empty for no parts; otherwise it begins with
   * the first part, followed by the separator when there are more.
   */
  function Join(parts: seq<string>, sep: string): string
    decreases |parts|
  {
    if |parts| == 0 then "" else if |parts| == 1 then parts[0] else parts[0] + sep + Join(parts[1..], sep)
  }

  /** The joined text is empty for no parts, starts with the first part, and with a separator after it when more follow. */
  lemma JoinPrefix(parts: seq<string>, sep: string)
    ensures |parts| == 0 ==> Join(parts, sep) == ""
    ensures |parts| > 0 ==> parts[0] <= Join(parts, sep)
    ensures |parts| > 1 ==> parts[0] + sep <= Join(parts, sep)
  {
    if |parts| > 1 {
      assert Join(parts, sep) == (parts[0] + sep) + Join(parts[1..], sep);
    }
  }

  /** Splitting at a one-character separator undoes joining with it, when no part holds that character. */
  lemma {:induction false} SplitJoin(parts: seq<string>, c: char)
    requires |parts| > 0
    requires forall k :: 0 <= k < |parts| ==> c !in parts[k]
    ensures Split(Join(parts, [c]), [c]) == parts
    decreases |parts|
  {
    var sep := [c];
    if |parts| == 1 {
      NotContainsWithout(parts[0], [], sep);
      assert parts[0] + [] == parts[0];
      SplitWithoutSeparator(parts[0], sep);
    } else {
      NotContainsWithout(parts[0], sep[..0], sep);
      SplitAfterPiece(parts[0], sep, Join(parts[1..], sep));
      SplitJoin(parts[1..], c);
      assert [parts[0]] + parts[1..] == parts;
    }
  }

  /** `line.strip()` removes the newline that ends a line written to a file. */
  lemma StripLine(x: string)
    requires |x| > 0 && !IsSpace(x[0]) && !IsSpace(x[|x| - 1])
    ensures Strip(x + "\n") == x
  {
    var s := x + "\n";
    assert TrimStart(s) == s;
    assert s[..|s| - 1] == x;
    assert TrimEnd(s) == TrimEnd(x);
    StripUnchanged(x);
  }

  // ---------------------------------------------------------------------------
  // Case
  // ---------------------------------------------------------------------------

  function LowerChar(c: char): (r: char)
    ensures 'A' <= c <= 'Z' ==> 'a' <= r <= 'z'
    ensures !('A' <= c <= 'Z') ==> r == c
  {
    if 'A' <= c <= 'Z' then (c as int + 32) as char else c
  }

  /** Python's `s.lower()` on ASCII letters. */
  function Lower(s: string): (r: string)
    ensures |r| == |s|
    ensures forall i :: 0 <= i < |s| ==> r[i] == LowerChar(s[i])
  {
    seq(|s|, i requires 0 <= i < |s| => LowerChar(s[i]))
  }

  // ---------------------------------------------------------------------------
  // Decimal integers
  // ---------------------------------------------------------------------------

  function DigitChar(d: nat): (c: char)
    requires d < 10
    ensures IsDigit(c) && c as int - '0' as int == d
  {
    ('0' as int + d) as char
  }

  /** The value of a string of decimal digits, most significant first. */
  function DigitsValue(s: string): nat
    requires AllDigits(s)
  {
    if s == [] then 0 else DigitsValue(s[..|s| - 1]) * 10 + (s[|s| - 1] as int - '0' as int)
  }

  /** The decimal spelling of a natural number, as Python's `str(n)` gives it. */
  function NatToString(n: nat): (s: string)
    ensures |s| > 0 && AllDigits(s)
  {
    if n < 10 then [DigitChar(n)] else NatToString(n / 10) + [DigitChar(n % 10)]
  }

  function IntToString(i: int): (s: string)
    ensures |s| > 0
  {
    if i < 0 then "-" + NatToString(-i) else NatToString(i)
  }

  /** The spelling of an integer is a single word: an optional `-` and digits. */
  lemma IntToStringNoSpace(i: int)
    ensures NoSpace(IntToString(i))
    ensures IntToString(i)[0] == '-' || IsDigit(IntToString(i)[0])
  {
    var s := IntToString(i);
    var d := NatToString(if i < 0 then -i else i);
    assert AllDigits(d);
    if i < 0 {
      assert s == "-" + d;
      assert forall k :: 1 <= k < |s| ==> s[k] == d[k - 1];
    }
  }

  lemma {:induction false} DigitsValueOfNatToString(n: nat)
    ensures DigitsValue(NatToString(n)) == n
  {
    if n >= 10 {
      var s := NatToString(n);
      assert s[..|s| - 1] == NatToString(n / 10);
      DigitsValueOfNatToString(n / 10);
    }
  }

  /** The body of an integer literal: one or more decimal digits. */
  function ParseDigits(s: string): (r: Option<nat>)
    ensures r.Some? <==> |s| > 0 && AllDigits(s)
  {
    if |s| > 0 && AllDigits(s) then Some(DigitsValue(s)) else None
  }

  /** A sign only at the front, every other character a decimal digit, and at least one digit. */
  predicate IntLiteral(t: string) {
    && |t| > 0
    && IsDigit(t[|t| - 1])
    && forall i :: 0 <= i < |t| ==> IsDigit(t[i]) || (i == 0 && (t[i] == '-' || t[i] == '+'))
  }

  /**
   * Python's `int(s)` on a string: optional surrounding whitespace, an optional
   * sign and at least one decimal digit; anything else raises ValueError.
   */
  function ParseInt(s: string): (r: Result<int>)
    ensures r.Ok? ==> |Strip(s)| > 0
    ensures r.Ok? && r.value < 0 ==> Strip(s)[0] == '-'
    ensures r.Ok? && AllDigits(Strip(s)) ==> r.value == DigitsValue(Strip(s))
  {
    var t := Strip(s);
    var negative := |t| > 0 && t[0] == '-';
    var body := if |t| > 0 && (t[0] == '-' || t[0] == '+') then t[1..] else t;
    match ParseDigits(body)
    case Some(v) => Ok(if negative then -(v as int) else v as int)
    case None => Err(ValueError("invalid literal for int()"))
  }

  /** `int(str(i)) == i`: the spelling of an integer parses back to it. */
  lemma ParseIntOfIntToString(i: int)
    ensures ParseInt(IntToString(i)) == Ok(i)
  {
    var s := IntToString(i);
    var n: nat := if i < 0 then -i else i;
    var d := NatToString(n);
    DigitsValueOfNatToString(n);
    assert !IsSpace(d[|d| - 1]);
    if i < 0 {
      assert s == "-" + d;
      assert s[1..] == d;
    }
    StripUnchanged(s);
  }

  /** `int()` accepts exactly the texts that, once stripped, are an optional sign followed by decimal digits. */
  lemma ParseIntAccepts(s: string)
    ensures ParseInt(s).Ok? <==> IntLiteral(Strip(s))
  {
    var t := Strip(s);
    if |t| > 0 && (t[0] == '-' || t[0] == '+') {
      var body := t[1..];
      assert forall i :: 1 <= i < |t| ==> t[i] == body[i - 1];
    }
  }

  // ---------------------------------------------------------------------------
  // Decimal reals
  // ---------------------------------------------------------------------------

  function Pow10(k: nat): (p: nat)
    ensures p >= 1
  {
    if k == 0 then 1 else 10 * Pow10(k - 1)
  }

  /** A run of digits holds no decimal point. */
  lemma {:induction false} IndexOfDigits(s: string)
    requires AllDigits(s)
    ensures FirstWhere(s, '.') == |s|
  {
    if |s| > 0 {
      IndexOfDigits(s[1..]);
    }
  }

  /** The unsigned decimal body `digits[.digits]`, with at least one digit in all. */
  function ParseUnsignedDecimal(s: string): (r: Option<real>)
    ensures r.Some? ==> r.value >= 0.0
  {
    var k := FirstWhere(s, '.');
    var whole := s[..k];
    var frac := if k < |s| then s[k + 1..] else [];
    if AllDigits(whole) && AllDigits(frac) && |whole| + |frac| > 0 then
      Some(DigitsValue(whole) as real + Fraction(frac))
    else None
  }

  /** The value of the digits after a decimal point. */
  function Fraction(frac: string): (r: real)
    requires AllDigits(frac)
    ensures 0.0 <= r
  {
    if frac == [] then 0.0 else DigitsValue(frac) as real / Pow10(|frac|) as real
  }

  /**
   * Python's `float(s)` restricted to plain decimals: optional surrounding
   * whitespace, an optional sign, digits with at most one decimal point.
   */
  function ParseFloat(s: string): (r: Result<real>)
    ensures r.Ok? ==> |Strip(s)| > 0
    ensures r.Ok? && r.value < 0.0 ==> Strip(s)[0] == '-'
    ensures r.Ok? && Strip(s)[0] == '-' ==> r.value <= 0.0
  {
    var t := Strip(s);
    var negative := |t| > 0 && t[0] == '-';
    var body := if |t| > 0 && (t[0] == '-' || t[0] == '+') then t[1..] else t;
    match ParseUnsignedDecimal(body)
    case Some(v) => Ok(if negative then -v else v)
    case None => Err(ValueError("could not convert string to float"))
  }

  /** Every text `int()` accepts, `float()` accepts too, with the same value. */
  lemma ParseFloatOfIntText(s: string)
    requires ParseInt(s).Ok?
    ensures ParseFloat(s) == Ok(ParseInt(s).value as real)
  {
    var t := Strip(s);
    var body := if |t| > 0 && (t[0] == '-' || t[0] == '+') then t[1..] else t;
    assert |body| > 0 && AllDigits(body);
    DecimalOfDigits(body);
  }

  /** `float(str(n)) == n` for every natural number. */
  lemma ParseFloatOfNatToString(n: nat)
    ensures ParseFloat(NatToString(n)) == Ok(n as real)
  {
    DigitsValueOfNatToString(n);
    ParseFloatOfDigits(NatToString(n));
  }

  /** A non-empty run of digits parses as the number it spells. */
  lemma ParseFloatOfDigits(d: string)
    requires |d| > 0 && AllDigits(d)
    ensures ParseFloat(d) == Ok(DigitsValue(d) as real)
  {
    assert IsDigit(d[0]) && IsDigit(d[|d| - 1]);
    StripUnchanged(d);
    assert d[0] != '-' && d[0] != '+';
    DecimalOfDigits(d);
  }

  lemma DecimalOfDigits(d: string)
    requires |d| > 0 && AllDigits(d)
    ensures ParseUnsignedDecimal(d) == Some(DigitsValue(d) as real)
  {
    IndexOfDigits(d);
    assert d[..|d|] == d;
  }
}
