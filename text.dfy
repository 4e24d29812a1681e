/** The JavaScript string and number primitives the site's rules are built on,
    stated on `string` (`seq<char>`) and unbounded integers. */
module Text {
  import opened Wrappers

  /** The characters matched by `\s` in a JavaScript regular expression; they are also
      the characters `trim` and `parseInt` skip. */
  predicate IsWhitespace(c: char) {
    c == '\t' || c == '\n' || c == '\U{B}' || c == '\U{C}' || c == '\r' || c == ' '
    || c == '\U{A0}' || c == '\U{1680}' || ('\U{2000}' <= c <= '\U{200A}')
    || c == '\U{2028}' || c == '\U{2029}' || c == '\U{202F}' || c == '\U{205F}'
    || c == '\U{3000}' || c == '\U{FEFF}'
  }

  /** `!s.trim()`: trimming leaves nothing, so every character is white space. */
  function IsBlank(s: string): (r: bool)
    ensures r <==> forall i :: 0 <= i < |s| ==> IsWhitespace(s[i])
  {
    |s| == 0 || (IsWhitespace(s[0]) && IsBlank(s[1..]))
  }

  function UpperChar(c: char): char {
    if 'a' <= c <= 'z' then (c as int - 32) as char else c
  }

  function LowerChar(c: char): char {
    if 'A' <= c <= 'Z' then (c as int + 32) as char else c
  }

  /** `s.toUpperCase()` on the ASCII letters. */
  function ToUpper(s: string): (r: string)
    ensures |r| == |s| && forall i :: 0 <= i < |s| ==> r[i] == UpperChar(s[i])
  {
    seq(|s|, i requires 0 <= i < |s| => UpperChar(s[i]))
  }

  /** `s.toLowerCase()` on the ASCII letters. */
  function ToLower(s: string): (r: string)
    ensures |r| == |s| && forall i :: 0 <= i < |s| ==> r[i] == LowerChar(s[i])
  {
    seq(|s|, i requires 0 <= i < |s| => LowerChar(s[i]))
  }

  /** `needle` occurs in `hay` at index `i`. */
  ghost predicate OccursAt(hay: string, needle: string, i: int) {
    0 <= i <= |hay| - |needle| && hay[i..i + |needle|] == needle
  }

  /** `hay.includes(needle)`: the needle occurs somewhere in the hay. */
  function Contains(hay: string, needle: string): (r: bool)
    ensures r <==> exists i :: OccursAt(hay, needle, i)
    decreases |hay|
  {
    if needle <= hay then
      assert OccursAt(hay, needle, 0);
      true
    else if |hay| == 0 then
      false
    else
      ContainsStep(hay, needle);
      Contains(hay[1..], needle)
  }

  /** Once the needle is not a prefix, its occurrences are those in the tail. */
  lemma ContainsStep(hay: string, needle: string)
    requires |hay| > 0 && !(needle <= hay)
    ensures (exists i :: OccursAt(hay, needle, i)) <==> (exists i :: OccursAt(hay[1..], needle, i))
  {
    if i :| OccursAt(hay, needle, i) {
      assert i != 0;
      assert OccursAt(hay[1..], needle, i - 1);
    }
    if i :| OccursAt(hay[1..], needle, i) {
      assert OccursAt(hay, needle, i + 1);
    }
  }

  /** A needle holding a character the hay lacks does not occur in it. */
  lemma NotContainsMissingChar(hay: string, needle: string, j: nat)
    requires j < |needle| && needle[j] !in hay
    ensures !Contains(hay, needle)
  {
    forall k | 0 <= k <= |hay| - |needle|
      ensures !OccursAt(hay, needle, k)
    {
      assert hay[k..k + |needle|][j] == hay[k + j];
    }
  }

  /** JavaScript's `a || b` on strings: `a` unless it is empty. */
  function OrElse(a: string, b: string): string {
    if a != "" then a else b
  }

  /** `value || undefined` for an optional text input. */
  function Optional(value: string): (r: Option<string>)
    ensures r.None? <==> value == ""
    ensures r.Some? ==> r.value == value
  {
    if value == "" then None else Some(value)
  }

  /** `parts.join(sep)`. */
  function Join(parts: seq<string>, sep: char): string {
    if |parts| == 0 then ""
    else if |parts| == 1 then parts[0]
    else parts[0] + [sep] + Join(parts[1..], sep)
  }

  /** The first index from `i` on holding `sep`, or `|s|`. */
  function FieldEnd(s: string, sep: char, i: nat): (k: nat)
    requires i <= |s|
    ensures i <= k <= |s|
    ensures forall j :: i <= j < k ==> s[j] != sep
    ensures k < |s| ==> s[k] == sep
    decreases |s| - i
  {
    if i < |s| && s[i] != sep then FieldEnd(s, sep, i + 1) else i
  }

  /** `s.split(sep)[0]`: the longest prefix without `sep`. */
  function FirstField(s: string, sep: char): (r: string)
    ensures r <= s && sep !in r
    ensures |r| < |s| ==> s[|r|] == sep
  {
    s[..FieldEnd(s, sep, 0)]
  }

  /** `s.split(sep)` for a one-character separator; always at least one field. */
  function Split(s: string, sep: char): (r: seq<string>)
    ensures |r| >= 1
  {
    if |s| == 0 then [""]
    else
      var rest := Split(s[1..], sep);
      if s[0] == sep then [""] + rest else [[s[0]] + rest[0]] + rest[1..]
  }

  lemma {:induction false} SplitWithoutSeparator(a: string, sep: char)
    requires sep !in a
    ensures Split(a, sep) == [a]
  {
    if |a| > 0 {
      SplitWithoutSeparator(a[1..], sep);
      assert [a[0]] + a[1..] == a;
    }
  }

  lemma {:induction false} SplitAfterField(a: string, sep: char, b: string)
    requires sep !in a
    ensures Split(a + [sep] + b, sep) == [a] + Split(b, sep)
  {
    if |a| == 0 {
      assert (a + [sep] + b)[1..] == b;
    } else {
      SplitAfterField(a[1..], sep, b);
      assert (a + [sep] + b)[1..] == a[1..] + [sep] + b;
      assert [a[0]] + a[1..] == a;
    }
  }

  /** Splitting a join gives the parts back, when no part holds the separator. */
  lemma {:induction false} SplitJoin(parts: seq<string>, sep: char)
    requires |parts| >= 1
    requires forall i :: 0 <= i < |parts| ==> sep !in parts[i]
    ensures Split(Join(parts, sep), sep) == parts
  {
    if |parts| == 1 {
      SplitWithoutSeparator(parts[0], sep);
    } else {
      SplitJoin(parts[1..], sep);
      SplitAfterField(parts[0], sep, Join(parts[1..], sep));
      assert [parts[0]] + parts[1..] == parts;
    }
  }

  predicate IsDigit(c: char) {
    '0' <= c <= '9'
  }

  predicate AllDigits(s: string) {
    forall i :: 0 <= i < |s| ==> IsDigit(s[i])
  }

  function DigitValue(c: char): nat
    requires IsDigit(c)
  {
    c as int - '0' as int
  }

  function DigitChar(d: nat): (c: char)
    requires d <= 9
    ensures IsDigit(c) && DigitValue(c) == d
  {
    ('0' as int + d) as char
  }

  /** Decimal digits of `n`, most significant first. */
  function NatToDigits(n: nat): (r: string)
    ensures |r| >= 1 && AllDigits(r)
  {
    if n < 10 then [DigitChar(n)] else NatToDigits(n / 10) + [DigitChar(n % 10)]
  }

  /** `n.toString()` for an integral number. */
  function IntToString(n: int): (r: string)
    ensures |r| >= 1
  {
    if n < 0 then "-" + NatToDigits(-n) else NatToDigits(n)
  }

  /** The index of the first character at or after `i` that is not white space. */
  function SkipWhitespace(s: string, i: nat): (k: nat)
    requires i <= |s|
    ensures i <= k <= |s|
    ensures forall j :: i <= j < k ==> IsWhitespace(s[j])
    ensures k < |s| ==> !IsWhitespace(s[k])
    decreases |s| - i
  {
    if i < |s| && IsWhitespace(s[i]) then SkipWhitespace(s, i + 1) else i
  }

  /** The end of the run of decimal digits that starts at `i`. */
  function DigitsEnd(s: string, i: nat): (k: nat)
    requires i <= |s|
    ensures i <= k <= |s|
    ensures forall j :: i <= j < k ==> IsDigit(s[j])
    ensures k < |s| ==> !IsDigit(s[k])
    decreases |s| - i
  {
    if i < |s| && IsDigit(s[i]) then DigitsEnd(s, i + 1) else i
  }

  /** The number the decimal digits `s[a..b]` denote; an empty run denotes 0. */
  function DigitsValue(s: string, a: nat, b: nat): nat
    requires a <= b <= |s| && forall j :: a <= j < b ==> IsDigit(s[j])
    decreases b - a
  {
    if a == b then 0 else DigitsValue(s, a, b - 1) * 10 + DigitValue(s[b - 1])
  }

  /** The value of a digit run depends only on its characters, not on where it sits. */
  lemma {:induction false} DigitsValueShift(s: string, a: nat, b: nat, t: string, c: nat)
    requires a <= b <= |s| && c + (b - a) <= |t|
    requires forall j :: a <= j < b ==> s[j] == t[j - a + c]
    requires forall j :: a <= j < b ==> IsDigit(s[j])
    ensures forall j :: c <= j < c + (b - a) ==> IsDigit(t[j])
    ensures DigitsValue(s, a, b) == DigitsValue(t, c, c + (b - a))
    decreases b - a
  {
    forall j | c <= j < c + (b - a)
      ensures IsDigit(t[j])
    {
      assert s[j - c + a] == t[j];
    }
    if a < b {
      DigitsValueShift(s, a, b - 1, t, c);
    }
  }

  lemma {:induction false} DigitsValueOfNat(n: nat)
    ensures DigitsValue(NatToDigits(n), 0, |NatToDigits(n)|) == n
  {
    if n >= 10 {
      var s := NatToDigits(n);
      var x := NatToDigits(n / 10);
      DigitsValueOfNat(n / 10);
      DigitsValueShift(s, 0, |x|, x, 0);
    }
  }

  /** `parseInt(s)` in radix 10: leading white space, an optional sign, then the longest
      run of digits. `None` is NaN: no digit follows. */
  function ParseInt(s: string): (r: Option<int>)
    ensures r.Some? ==> exists i :: 0 <= i < |s| && IsDigit(s[i])
  {
    var k := SkipWhitespace(s, 0);
    var signed := k < |s| && (s[k] == '-' || s[k] == '+');
    var start := if signed then k + 1 else k;
    var end := DigitsEnd(s, start);
    if end == start then None
    else
      var v: int := DigitsValue(s, start, end);
      if signed && s[k] == '-' then Some(-v) else Some(v)
  }

  predicate AllWhitespace(s: string) {
    forall i :: 0 <= i < |s| ==> IsWhitespace(s[i])
  }

  predicate IsSign(sign: string) {
    sign == "" || sign == "+" || sign == "-"
  }

  /** `SkipWhitespace` stops right after a white-space prefix that is followed by a
      non-white-space character or by the end. */
  lemma SkipWhitespacePrefix(s: string, w: string)
    requires |w| <= |s| && s[..|w|] == w && AllWhitespace(w)
    requires |w| < |s| ==> !IsWhitespace(s[|w|])
    ensures SkipWhitespace(s, 0) == |w|
  {
    forall j | 0 <= j < |w|
      ensures IsWhitespace(s[j])
    {
      assert s[j] == w[j];
    }
  }

  /** `SkipWhitespace` stops at the first character that is not white space. */
  lemma SkipWhitespaceRun(s: string, a: nat)
    requires a <= |s|
    requires forall j :: 0 <= j < a ==> IsWhitespace(s[j])
    requires a < |s| ==> !IsWhitespace(s[a])
    ensures SkipWhitespace(s, 0) == a
  {
  }

  /** `DigitsEnd` stops right after a digit run that is followed by a non-digit or by the end. */
  lemma DigitsEndRun(s: string, a: nat, b: nat)
    requires a <= b <= |s|
    requires forall j :: a <= j < b ==> IsDigit(s[j])
    requires b < |s| ==> !IsDigit(s[b])
    ensures DigitsEnd(s, a) == b
  {
  }

  /** `parseInt` read off the positions where the white space, the sign and the digits end. */
  lemma ParseIntOfParts(s: string, k: nat, start: nat, e: nat)
    requires k <= start < e <= |s|
    requires SkipWhitespace(s, 0) == k
    requires start == if s[k] == '-' || s[k] == '+' then k + 1 else k
    requires DigitsEnd(s, start) == e
    ensures var v: int := DigitsValue(s, start, e); ParseInt(s) == Some(if s[k] == '-' then -v else v)
  {
  }

  /** `parseInt` of white space up to `a`, an optional sign up to `b`, and a longest run of
      digits up to `e` is the run's value, negated after a '-'; whatever follows is ignored. */
  lemma ParseIntRun(s: string, a: nat, b: nat, e: nat)
    requires a <= b < e <= |s|
    requires forall j :: 0 <= j < a ==> IsWhitespace(s[j])
    requires b == a || (b == a + 1 && (s[a] == '-' || s[a] == '+'))
    requires forall j :: b <= j < e ==> IsDigit(s[j])
    requires e < |s| ==> !IsDigit(s[e])
    ensures var v: int := DigitsValue(s, b, e); ParseInt(s) == Some(if b == a + 1 && s[a] == '-' then -v else v)
  {
    assert IsDigit(s[b]);
    assert SkipWhitespace(s, 0) == a by {
      SkipWhitespaceRun(s, a);
    }
    DigitsEndRun(s, b, e);
    ParseIntOfParts(s, a, b, e);
  }

  /** `parseInt` is NaN when no digit follows the white space and the optional sign. */
  lemma ParseIntNoDigits(w: string, sign: string, rest: string)
    requires AllWhitespace(w) && IsSign(sign)
    requires rest == "" || !IsDigit(rest[0])
    requires sign == "" && rest != "" ==> !IsWhitespace(rest[0]) && rest[0] != '+' && rest[0] != '-'
    ensures ParseInt(w + sign + rest) == None
  {
    var s := w + sign + rest;
    var start := |w| + |sign|;
    assert SkipWhitespace(s, 0) == |w| by {
      assert s[..|w|] == w;
      assert |w| < |s| ==> s[|w|] == if sign == "" then rest[0] else sign[0];
      SkipWhitespacePrefix(s, w);
    }
    assert start < |s| ==> s[start] == rest[0];
    assert DigitsEnd(s, start) == start by {
      DigitsEndRun(s, start, start);
    }
  }

  /** A plain run of digits parses to its value. */
  lemma ParseIntDigits(s: string)
    requires s != "" && AllDigits(s)
    ensures ParseInt(s) == Some(DigitsValue(s, 0, |s|))
  {
    ParseIntRun(s, 0, 0, |s|);
  }

  /** Printing an integer and parsing it back gives the integer. */
  lemma ParseIntToString(n: int)
    ensures ParseInt(IntToString(n)) == Some(n)
  {
    var s := IntToString(n);
    var m: nat := if n < 0 then -n else n;
    var d := NatToDigits(m);
    DigitsValueOfNat(m);
    assert !IsWhitespace(s[0]);
    assert SkipWhitespace(s, 0) == 0;
    if n < 0 {
      DigitsValueShift(d, 0, |d|, s, 1);
      assert DigitsEnd(s, 1) == |s|;
    } else {
      assert DigitsEnd(s, 0) == |s|;
    }
  }

  /** `s.replace(/[^0-9]/g, '')`: the digits of `s`, in order. */
  function KeepDigits(s: string): (r: string)
    ensures AllDigits(r) && |r| <= |s|
    ensures r == "" <==> forall i :: 0 <= i < |s| ==> !IsDigit(s[i])
  {
    if |s| == 0 then ""
    else
      var r := (if IsDigit(s[0]) then [s[0]] else "") + KeepDigits(s[1..]);
      assert (forall i :: 0 <= i < |s| ==> !IsDigit(s[i]))
             <==> !IsDigit(s[0]) && forall i :: 0 <= i < |s| - 1 ==> !IsDigit(s[1..][i]) by {
        assert forall i :: 0 <= i < |s| - 1 ==> s[1..][i] == s[i + 1];
      }
      r
  }

  /** Filtering is done character by character: the digits of a concatenation are the digits
      of its first part followed by those of its second. */
  lemma {:induction false} KeepDigitsAppend(a: string, b: string)
    ensures KeepDigits(a + b) == KeepDigits(a) + KeepDigits(b)
  {
    if |a| == 0 {
      assert a + b == b;
    } else {
      var head := if IsDigit(a[0]) then [a[0]] else "";
      assert KeepDigits(a + b) == head + KeepDigits(a[1..] + b) by {
        assert (a + b)[0] == a[0] && (a + b)[1..] == a[1..] + b;
      }
      KeepDigitsAppend(a[1..], b);
      assert head + (KeepDigits(a[1..]) + KeepDigits(b)) == (head + KeepDigits(a[1..])) + KeepDigits(b);
    }
  }

  /** A single character is kept exactly when it is a digit. */
  lemma KeepDigitsChar(c: char)
    ensures KeepDigits([c]) == if IsDigit(c) then [c] else ""
  {
    assert [c][1..] == "";
  }

  lemma {:induction false} KeepDigitsOfDigits(s: string)
    requires AllDigits(s)
    ensures KeepDigits(s) == s
  {
    if |s| > 0 {
      KeepDigitsOfDigits(s[1..]);
      assert [s[0]] + s[1..] == s;
    }
  }
}
