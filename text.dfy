/** The Python string built-ins the BND codec relies on, stated over `string`:
    str.lower, str.split() with no argument, str.find, str(n) for integers,
    int(token), the "{0:.6f}" format and float() for coordinates, and the
    line splitting done by readlines() on a text-mode file.

    Coordinates are fixed-point values counted in millionths (a coordinate c
    stands for the number c / 10^6), which is exactly the precision the text
    format keeps, so formatting and parsing are an exact pair here. */
module Text {

  datatype Option<T> = None | Some(value: T)

  // ------------------------------------------------------------------
  // Characters

  /** The characters str.split() treats as whitespace (str.isspace):
      tab, line feed, vertical tab, form feed, carriage return, the four
      separators 0x1C..0x1F and space, and beyond ASCII the next line
      U+0085, the no-break space U+00A0, the Ogham space U+1680, the
      spaces U+2000..U+200A, the line and paragraph separators U+2028 and
      U+2029, the narrow no-break space U+202F, the medium mathematical
      space U+205F and the ideographic space U+3000. */
  predicate IsSpace(c: char) {
    c == ' ' || (9 <= c as int <= 13) || (28 <= c as int <= 31)
    || (c as int >= 0x85 && IsWideSpace(c as int))
  }

  /** The whitespace code points of str.isspace() above ASCII. */
  predicate IsWideSpace(n: int) {
    n == 0x85 || n == 0xA0 || n == 0x1680 || (0x2000 <= n <= 0x200A)
    || n == 0x2028 || n == 0x2029 || n == 0x202F || n == 0x205F || n == 0x3000
  }

  predicate IsNewline(c: char) {
    c == '\n' || c == '\r'
  }

  predicate IsUpper(c: char) {
    'A' <= c <= 'Z'
  }

  predicate IsDigit(c: char) {
    '0' <= c <= '9'
  }

  /** str.lower() on one character (ASCII letters only). */
  function LowerChar(c: char): (r: char)
    ensures !IsUpper(r)
    ensures IsSpace(r) <==> IsSpace(c)
    ensures IsNewline(r) <==> IsNewline(c)
    ensures !IsUpper(c) ==> r == c
  {
    if IsUpper(c) then (c as int + 32) as char else c
  }

  /** str.lower() */
  function Lower(s: string): string {
    seq(|s|, i requires 0 <= i < |s| => LowerChar(s[i]))
  }

  predicate NoUpper(s: string) {
    forall i :: 0 <= i < |s| ==> !IsUpper(s[i])
  }

  /** A token of str.split(): a non-empty run of non-whitespace characters. */
  predicate IsToken(t: string) {
    t != [] && forall i :: 0 <= i < |t| ==> !IsSpace(t[i])
  }

  predicate AllSpace(w: string) {
    forall i :: 0 <= i < |w| ==> IsSpace(w[i])
  }

  predicate NoNewline(s: string) {
    forall i :: 0 <= i < |s| ==> !IsNewline(s[i])
  }

  lemma LowerConcat(a: string, b: string)
    ensures Lower(a + b) == Lower(a) + Lower(b)
  {
  }

  lemma LowerOfNoUpper(s: string)
    requires NoUpper(s)
    ensures Lower(s) == s
  {
  }

  lemma LowerToken(t: string)
    requires IsToken(t)
    ensures IsToken(Lower(t)) && NoUpper(Lower(t))
  {
  }

  // ------------------------------------------------------------------
  // Indexing into concatenations, with the index given exactly

  lemma WholePrefix<T>(s: seq<T>)
    ensures s[..|s|] == s
  {
  }

  /** A slice that lies in the left operand of a concatenation. */
  lemma SliceLeft<T>(a: seq<T>, b: seq<T>, lo: nat, hi: nat)
    requires lo <= hi <= |a|
    ensures (a + b)[lo..hi] == a[lo..hi]
  {
  }

  /** A slice that lies in the right operand of a concatenation. */
  lemma SliceRight<T>(a: seq<T>, b: seq<T>, lo: nat, hi: nat, lo': nat, hi': nat)
    requires lo == |a| + lo' && hi == |a| + hi' && lo' <= hi' <= |b|
    ensures (a + b)[lo..hi] == b[lo'..hi']
  {
  }

  lemma AppendAssoc<T>(x: seq<T>, a: seq<T>, b: seq<T>)
    ensures x + (a + b) == x + a + b
  {
  }

  /** x + s, with s taken apart at its last element. */
  lemma SnocAssoc<T>(x: seq<T>, s: seq<T>)
    requires s != []
    ensures x + s[..|s| - 1] + [s[|s| - 1]] == x + s
  {
    assert s[..|s| - 1] + [s[|s| - 1]] == s;
  }

  lemma AppendEmpty<T>(x: seq<T>)
    ensures x + [] == x
  {
  }

  /** Slices of the parts of a four-part concatenation a + b + c + d. */
  lemma SliceOfFirst<T>(a: seq<T>, b: seq<T>, c: seq<T>, d: seq<T>, lo: nat, hi: nat)
    requires lo <= hi <= |a|
    ensures (a + b + c + d)[lo..hi] == a[lo..hi]
  {
    SliceLeft(a + b + c, d, lo, hi);
    SliceLeft(a + b, c, lo, hi);
    SliceLeft(a, b, lo, hi);
  }

  lemma SliceOfSecond<T>(a: seq<T>, b: seq<T>, c: seq<T>, d: seq<T>, lo: nat, hi: nat, lo': nat, hi': nat)
    requires lo == |a| + lo' && hi == |a| + hi' && lo' <= hi' <= |b|
    ensures (a + b + c + d)[lo..hi] == b[lo'..hi']
  {
    SliceLeft(a + b + c, d, lo, hi);
    SliceLeft(a + b, c, lo, hi);
    SliceRight(a, b, lo, hi, lo', hi');
  }

  lemma SliceOfThird<T>(a: seq<T>, b: seq<T>, c: seq<T>, d: seq<T>, lo: nat, hi: nat, lo': nat, hi': nat)
    requires lo == |a| + |b| + lo' && hi == |a| + |b| + hi' && lo' <= hi' <= |c|
    ensures (a + b + c + d)[lo..hi] == c[lo'..hi']
  {
    SliceLeft(a + b + c, d, lo, hi);
    SliceRight(a + b, c, lo, hi, lo', hi');
  }

  lemma SliceOfFourth<T>(a: seq<T>, b: seq<T>, c: seq<T>, d: seq<T>, lo: nat, hi: nat, lo': nat, hi': nat)
    requires lo == |a| + |b| + |c| + lo' && hi == |a| + |b| + |c| + hi' && lo' <= hi' <= |d|
    ensures (a + b + c + d)[lo..hi] == d[lo'..hi']
  {
    SliceRight(a + b + c, d, lo, hi, lo', hi');
  }

  lemma AppendIndexLeft<T>(a: seq<T>, b: seq<T>, i: nat)
    requires i < |a|
    ensures (a + b)[i] == a[i]
  {
  }

  lemma AppendIndexRight<T>(a: seq<T>, b: seq<T>, i: nat, j: nat)
    requires i == |a| + j && j < |b|
    ensures (a + b)[i] == b[j]
  {
  }

  // ------------------------------------------------------------------
  // str.split()

  /** Length of the leading run of non-whitespace characters. */
  function TokenLen(s: string): (n: nat)
    ensures n <= |s|
    ensures forall i :: 0 <= i < n ==> !IsSpace(s[i])
    ensures n < |s| ==> IsSpace(s[n])
    decreases |s|
  {
    if s == [] || IsSpace(s[0]) then 0 else 1 + TokenLen(s[1..])
  }

  /** str.split() with no argument: the maximal runs of non-whitespace. */
  function Split(s: string): (r: seq<string>)
    ensures forall k :: 0 <= k < |r| ==> IsToken(r[k])
    decreases |s|
  {
    if s == [] then []
    else if IsSpace(s[0]) then Split(s[1..])
    else
      var n := TokenLen(s);
      [s[..n]] + Split(s[n..])
  }

  /** Leading whitespace is dropped by split(). */
  lemma {:induction false} SplitSpaces(w: string, rest: string)
    requires AllSpace(w)
    ensures Split(w + rest) == Split(rest)
    decreases |w|
  {
    if w == [] {
      assert w + rest == rest;
    } else {
      var s := w + rest;
      assert s[0] == w[0] && s[1..] == w[1..] + rest;
      assert Split(s) == Split(s[1..]);
      SplitSpaces(w[1..], rest);
    }
  }

  /** A no-break space (U+00A0) between two tokens separates them, as it
      does for str.split(), so "a\u00a0b" is two fields. */
  lemma SplitNoBreakSpace(a: string, b: string)
    requires IsToken(a) && IsToken(b)
    ensures Split(a + "\U{00A0}" + b) == [a, b]
  {
    assert IsWideSpace(0xA0);
    SplitField(a, "\U{00A0}", b);
    SplitToken(b, "");
    assert b + "" == b;
  }

  /** A token followed by whitespace (or by nothing) is split off whole. */
  lemma SplitToken(t: string, rest: string)
    requires IsToken(t)
    requires rest == [] || IsSpace(rest[0])
    ensures Split(t + rest) == [t] + Split(rest)
  {
    var s := t + rest;
    assert forall i :: 0 <= i < |t| ==> s[i] == t[i];
    assert |t| < |s| ==> s[|t|] == rest[0];
    var n := TokenLen(s);
    assert n == |t|;
    assert s[..n] == t && s[n..] == rest;
  }

  /** Split(t + w + rest) == [t] + Split(rest) for a token t and a non-empty
      whitespace separator w. */
  lemma SplitField(t: string, w: string, rest: string)
    requires IsToken(t) && w != [] && AllSpace(w)
    ensures Split(t + w + rest) == [t] + Split(rest)
  {
    assert t + w + rest == t + (w + rest);
    SplitToken(t, w + rest);
    SplitSpaces(w, rest);
  }

  lemma NoUpperConcat(a: string, b: string)
    requires NoUpper(a) && NoUpper(b)
    ensures NoUpper(a + b)
  {
    forall i | 0 <= i < |a + b|
      ensures !IsUpper((a + b)[i])
    {
      if i >= |a| {
        assert (a + b)[i] == b[i - |a|];
      }
    }
  }

  /** Fields of a line made of lower-case tokens t0 .. t3 separated by
      non-empty runs of whitespace: the first run w0, the others w. */
  predicate Separator(w: string) {
    w != [] && AllSpace(w) && NoUpper(w)
  }

  predicate Field(t: string) {
    IsToken(t) && NoUpper(t)
  }

  lemma Split1(d: string)
    requires Field(d)
    ensures Split(d) == [d]
  {
    SplitToken(d, "");
    assert d + "" == d;
  }

  /** One field, one run of whitespace, and the rest of the line. */
  lemma SplitStep(t: string, w: string, rest: string)
    requires Field(t) && Separator(w) && NoUpper(rest)
    ensures NoUpper(t + w + rest)
    ensures Split(Lower(t + w + rest)) == [t] + Split(Lower(rest))
  {
    NoUpperConcat(t, w);
    NoUpperConcat(t + w, rest);
    LowerOfNoUpper(t + w + rest);
    LowerOfNoUpper(rest);
    SplitField(t, w, rest);
  }

  /** The last field of a line. */
  lemma SplitLast(t: string)
    requires Field(t)
    ensures NoUpper(t) && Split(Lower(t)) == [t]
  {
    LowerOfNoUpper(t);
    Split1(t);
  }

  lemma Split4(t0: string, w0: string, t1: string, w: string, t2: string, t3: string)
    requires Field(t0) && Field(t1) && Field(t2) && Field(t3) && Separator(w0) && Separator(w)
    ensures Split(Lower(t0 + w0 + t1 + w + t2 + w + t3)) == [t0, t1, t2, t3]
  {
    var s2 := t2 + w + t3;
    var s1 := t1 + w + s2;
    Regroup(t0 + w0 + t1, w, t2, t3);
    Nest(t0 + w0, t1, w, s2);
    SplitLast(t3);
    SplitStep(t2, w, t3);
    SplitStep(t1, w, s2);
    SplitStep(t0, w0, s1);
  }

  lemma Split5(t0: string, w0: string, t1: string, w: string, t2: string, t3: string, t4: string)
    requires Field(t0) && Field(t1) && Field(t2) && Field(t3) && Field(t4)
    requires Separator(w0) && Separator(w)
    ensures Split(Lower(t0 + w0 + t1 + w + t2 + w + t3 + w + t4)) == [t0, t1, t2, t3, t4]
  {
    var s3 := t3 + w + t4;
    var s2 := t2 + w + s3;
    var s1 := t1 + w + s2;
    Regroup(t0 + w0 + t1 + w + t2, w, t3, t4);
    Regroup(t0 + w0 + t1, w, t2, s3);
    Nest(t0 + w0, t1, w, s2);
    SplitLast(t4);
    SplitStep(t3, w, t4);
    SplitStep(t2, w, s3);
    SplitStep(t1, w, s2);
    SplitStep(t0, w0, s1);
  }

  /** Re-nesting the tail of a line: x w a w b is x w (a w b). */
  lemma Regroup(x: string, w: string, a: string, b: string)
    ensures x + w + a + w + b == x + w + (a + w + b)
  {
  }

  /** Re-nesting the tail of a line: x a w b is x (a w b). */
  lemma Nest(x: string, a: string, w: string, b: string)
    ensures x + a + w + b == x + (a + w + b)
  {
  }

  lemma Split6(t0: string, w0: string, t1: string, w: string, t2: string, t3: string, t4: string,
               t5: string)
    requires Field(t0) && Field(t1) && Field(t2) && Field(t3) && Field(t4) && Field(t5)
    requires Separator(w0) && Separator(w)
    ensures Split(Lower(t0 + w0 + t1 + w + t2 + w + t3 + w + t4 + w + t5)) == [t0, t1, t2, t3, t4, t5]
  {
    var s4 := t4 + w + t5;
    var s3 := t3 + w + s4;
    var s2 := t2 + w + s3;
    var s1 := t1 + w + s2;
    Regroup(t0 + w0 + t1 + w + t2 + w + t3, w, t4, t5);
    Regroup(t0 + w0 + t1 + w + t2, w, t3, s4);
    Regroup(t0 + w0 + t1, w, t2, s3);
    Nest(t0 + w0, t1, w, s2);
    SplitLast(t5);
    SplitStep(t4, w, t5);
    SplitStep(t3, w, s4);
    SplitStep(t2, w, s3);
    SplitStep(t1, w, s2);
    SplitStep(t0, w0, s1);
  }

  // ------------------------------------------------------------------
  // str.find(c)

  /** str.find for one character: the first index of c, or -1. */
  function Find(s: string, c: char): (r: int)
    ensures r == -1 <==> c !in s
    ensures r != -1 ==> 0 <= r < |s| && s[r] == c && c !in s[..r]
  {
    if s == [] then -1
    else if s[0] == c then 0
    else
      var k := Find(s[1..], c);
      assert s == [s[0]] + s[1..];
      if k == -1 then -1
      else
        assert s[..k + 1] == [s[0]] + s[1..][..k];
        k + 1
  }

  // ------------------------------------------------------------------
  // Decimal numbers: str(n), int(token)

  predicate AllDigits(s: string) {
    forall i :: 0 <= i < |s| ==> IsDigit(s[i])
  }

  function DigitChar(d: nat): (c: char)
    requires d < 10
    ensures IsDigit(c) && c as int - '0' as int == d
  {
    ('0' as int + d) as char
  }

  /** The value of a string of decimal digits (leading zeros allowed). */
  function DigitsValue(s: string): nat
    requires AllDigits(s)
    decreases |s|
  {
    if s == [] then 0
    else 10 * DigitsValue(s[..|s| - 1]) + (s[|s| - 1] as int - '0' as int)
  }

  /** str(n) for a non-negative integer; reading the digits back gives n. */
  function NatToString(n: nat): (r: string)
    ensures IsToken(r) && NoUpper(r) && AllDigits(r) && '.' !in r
    ensures DigitsValue(r) == n
  {
    if n < 10 then [DigitChar(n)]
    else
      var p := NatToString(n / 10);
      var r := p + [DigitChar(n % 10)];
      assert r[..|r| - 1] == p;
      r
  }

  function Pow10(k: nat): (r: nat)
    ensures r >= 1
  {
    if k == 0 then 1 else 10 * Pow10(k - 1)
  }

  /** k written with exactly w digits, zero padded on the left ("%0wd"). */
  function FixedDigits(k: nat, w: nat): (r: string)
    requires k < Pow10(w)
    ensures |r| == w && AllDigits(r) && DigitsValue(r) == k
    decreases w
  {
    if w == 0 then ""
    else
      var p := FixedDigits(k / 10, w - 1);
      var r := p + [DigitChar(k % 10)];
      assert r[..|r| - 1] == p;
      r
  }

  /** int(token): an optional sign followed by at least one decimal digit. */
  function ParseInt(s: string): (r: Option<int>)
    ensures r.Some? ==> s != []
  {
    if s != [] && (s[0] == '-' || s[0] == '+') then
      if |s| > 1 && AllDigits(s[1..]) then
        var v: int := DigitsValue(s[1..]);
        Some(if s[0] == '-' then -v else v)
      else None
    else if s != [] && AllDigits(s) then Some(DigitsValue(s))
    else None
  }

  /** int(str(n)) == n. */
  lemma ParseIntOfNat(n: nat)
    ensures ParseInt(NatToString(n)) == Some(n)
  {
    var s := NatToString(n);
    assert IsDigit(s[0]);
  }

  // ------------------------------------------------------------------
  // Coordinates: "{0:.6f}".format and float()

  const Scale: nat := 1000000

  lemma Pow10Six()
    ensures Pow10(6) == Scale
  {
    assert Pow10(1) == 10;
    assert Pow10(3) == 1000;
    assert Pow10(5) == 100000;
  }

  /** The characters that make up a formatted coordinate. */
  predicate NumberChars(s: string) {
    forall i :: 0 <= i < |s| ==> IsDigit(s[i]) || s[i] == '.' || s[i] == '-'
  }

  /** "{0:.6f}" of the fixed-point value c / 10^6: an optional minus sign,
      the whole part, a point and exactly six fractional digits. */
  function FormatCoord(c: int): (r: string)
  {
    if c < 0 then "-" + FormatUnsigned(-c) else FormatUnsigned(c)
  }

  /** "{0:.6f}" of a non-negative fixed-point value. */
  function FormatUnsigned(a: nat): string
  {
    NatToString(a / Scale) + "." + Fraction6(a % Scale)
  }

  /** The six fractional digits "{0:.6f}" writes for k millionths. */
  function Fraction6(k: nat): (r: string)
    requires k < Scale
    ensures |r| == 6 && AllDigits(r) && DigitsValue(r) == k
  {
    Pow10Six();
    FixedDigits(k, 6)
  }

  /** A formatted coordinate is one lower-case token of split(). */
  lemma FormatCoordToken(c: int)
    ensures Field(FormatCoord(c))
  {
    var a: nat := if c < 0 then -c else c;
    var w := NatToString(a / Scale);
    var f := Fraction6(a % Scale);
    assert NumberChars(w) && NumberChars(".") && NumberChars(f);
    var u := w + "." + f;
    assert u == FormatUnsigned(a);
    assert NumberChars(w + ".");
    assert NumberChars(u);
    assert NumberChars("-" + u);
  }

  /** n '0' characters: the fraction of a decimal read to six places. */
  function Zeros(n: nat): (r: string)
    ensures |r| == n && AllDigits(r)
  {
    seq(n, _ => '0')
  }

  /** float() on an unsigned decimal: digits, optionally a point and at
      most six fractional digits, as a fixed-point value in millionths. */
  function ParseUnsigned(body: string): (r: Option<nat>)
  {
    var dot := Find(body, '.');
    if dot == -1 then ParseParts(body, "") else ParseParts(body[..dot], body[dot + 1..])
  }

  /** The value of the digits before and after the point. */
  function ParseParts(whole: string, frac: string): (r: Option<nat>)
  {
    if whole != [] && AllDigits(whole) && AllDigits(frac) && |frac| <= 6 then
      var padded := frac + Zeros(6 - |frac|);
      assert AllDigits(padded);
      Some(DigitsValue(whole) * Scale + DigitsValue(padded))
    else None
  }

  /** float(token) on decimal notation with an optional sign. */
  function ParseCoord(s: string): (r: Option<int>)
  {
    var signed := s != [] && (s[0] == '-' || s[0] == '+');
    match ParseUnsigned(if signed then s[1..] else s)
    case None => None
    case Some(mag) =>
      var v: int := mag;
      Some(if signed && s[0] == '-' then -v else v)
  }

  lemma FindAfter(w: string, c: char, rest: string)
    requires c !in w
    ensures Find(w + [c] + rest, c) == |w|
  {
    var s := w + [c] + rest;
    assert s[|w|] == c;
    var r := Find(s, c);
    assert forall i :: 0 <= i < |w| ==> s[i] == w[i];
    assert r >= |w|;
  }

  /** float() on whole digits, a point and six fractional digits. */
  lemma ParseUnsignedDigits(w: string, f: string)
    requires w != [] && AllDigits(w) && '.' !in w && AllDigits(f) && |f| == 6
    ensures ParseUnsigned(w + "." + f) == Some(DigitsValue(w) * Scale + DigitsValue(f))
  {
    ParseUnsignedSplit(w, f);
    ParsePartsFull(w, f);
  }

  lemma ParsePartsFull(w: string, f: string)
    requires w != [] && AllDigits(w) && AllDigits(f) && |f| == 6
    ensures ParseParts(w, f) == Some(DigitsValue(w) * Scale + DigitsValue(f))
  {
    assert f + Zeros(6 - |f|) == f;
  }

  lemma ParseUnsignedSplit(w: string, f: string)
    requires '.' !in w
    ensures ParseUnsigned(w + "." + f) == ParseParts(w, f)
  {
    var body := w + "." + f;
    FindAfter(w, '.', f);
    assert body[..|w|] == w && body[|w| + 1..] == f;
  }

  lemma ParseUnsignedFixed(q: nat, k: nat)
    requires k < Scale
    ensures ParseUnsigned(NatToString(q) + "." + Fraction6(k)) == Some(q * Scale + k)
  {
    ParseUnsignedDigits(NatToString(q), Fraction6(k));
  }

  lemma DivModScale(a: nat)
    ensures (a / Scale) * Scale + a % Scale == a && a % Scale < Scale
  {
  }

  lemma ParseFormatUnsigned(a: nat)
    ensures ParseUnsigned(FormatUnsigned(a)) == Some(a)
    ensures IsDigit(FormatUnsigned(a)[0])
  {
    DivModScale(a);
    ParseUnsignedFixed(a / Scale, a % Scale);
    assert IsDigit(NatToString(a / Scale)[0]);
  }

  /** float("{0:.6f}".format(c)) == c: the coordinate pair is exact. */
  lemma ParseFormatCoord(c: int)
    ensures ParseCoord(FormatCoord(c)) == Some(c)
  {
    var a: nat := if c < 0 then -c else c;
    ParseFormatUnsigned(a);
    var body := FormatUnsigned(a);
    if c < 0 {
      var s := "-" + body;
      assert FormatCoord(c) == s;
      assert s != [] && s[0] == '-' && s[1..] == body;
      assert ParseCoord(s) == Some(c);
    } else {
      assert FormatCoord(c) == body;
      assert body[0] != '-' && body[0] != '+';
      assert ParseCoord(body) == Some(c);
    }
  }

  // ------------------------------------------------------------------
  // Lines of a text file

  /** Length of the leading run of characters that end no line. */
  function LineLen(s: string): (n: nat)
    ensures n <= |s|
    ensures forall i :: 0 <= i < n ==> !IsNewline(s[i])
    ensures n < |s| ==> IsNewline(s[n])
    decreases |s|
  {
    if s == [] || IsNewline(s[0]) then 0 else 1 + LineLen(s[1..])
  }

  /** The lines of a text-mode file, without their terminators. A line
      ends at '\n' or '\r'; for "\r\n" this yields an extra empty line,
      which every consumer here treats like the blank line it stands next
      to. The text after the last terminator is a last (possibly empty)
      line. */
  function Lines(s: string): (r: seq<string>)
    ensures |r| >= 1
    decreases |s|
  {
    var n := LineLen(s);
    if n == |s| then [s] else [s[..n]] + Lines(s[n + 1..])
  }

  /** The text made of the given lines, each followed by "\n". */
  function JoinLines(ls: seq<string>): string {
    if ls == [] then "" else ls[0] + "\n" + JoinLines(ls[1..])
  }

  lemma {:induction false} JoinLinesAppend(a: seq<string>, b: seq<string>)
    ensures JoinLines(a + b) == JoinLines(a) + JoinLines(b)
    decreases |a|
  {
    if a == [] {
      assert a + b == b;
    } else {
      assert (a + b)[0] == a[0] && (a + b)[1..] == a[1..] + b;
      JoinLinesAppend(a[1..], b);
    }
  }

  /** A line without terminators followed by "\n" is split off whole. */
  lemma LinesCons(l: string, tail: string)
    requires NoNewline(l)
    ensures Lines(l + "\n" + tail) == [l] + Lines(tail)
  {
    var s := l + "\n" + tail;
    assert forall i :: 0 <= i < |l| ==> s[i] == l[i];
    assert s[|l|] == '\n';
    var n := LineLen(s);
    assert n == |l|;
    assert s[..n] == l && s[n + 1..] == tail;
  }

  lemma JoinLinesSnoc(ls: seq<string>, l: string)
    ensures JoinLines(ls + [l]) == JoinLines(ls) + l + "\n"
  {
    JoinLinesAppend(ls, [l]);
    assert JoinLines([l]) == l + "\n" + "";
  }

  lemma Assoc(x: string, a: string, b: string)
    ensures x + (a + b) == x + a + b
  {
  }

  lemma AppendLine(x: string, l: string, rest: string)
    ensures x + (l + "\n" + rest) == x + l + "\n" + rest
  {
  }

  /** Six lines joined, written as one left-to-right concatenation. */
  lemma JoinLines6(l0: string, l1: string, l2: string, l3: string, l4: string, l5: string)
    ensures JoinLines([l0, l1, l2, l3, l4, l5])
      == l0 + "\n" + l1 + "\n" + l2 + "\n" + l3 + "\n" + l4 + "\n" + l5 + "\n"
  {
    var ls := [l0, l1, l2, l3, l4, l5];
    assert ls[6..] == [];
    assert JoinLines(ls[5..]) == l5 + "\n" + JoinLines(ls[6..]);
    AppendLine(l0 + "\n" + l1 + "\n" + l2 + "\n" + l3 + "\n" + l4 + "\n", l5, "");
    assert JoinLines(ls[4..]) == l4 + "\n" + JoinLines(ls[5..]);
    AppendLine(l0 + "\n" + l1 + "\n" + l2 + "\n" + l3 + "\n", l4, JoinLines(ls[5..]));
    assert JoinLines(ls[3..]) == l3 + "\n" + JoinLines(ls[4..]);
    AppendLine(l0 + "\n" + l1 + "\n" + l2 + "\n", l3, JoinLines(ls[4..]));
    assert JoinLines(ls[2..]) == l2 + "\n" + JoinLines(ls[3..]);
    AppendLine(l0 + "\n" + l1 + "\n", l2, JoinLines(ls[3..]));
    assert JoinLines(ls[1..]) == l1 + "\n" + JoinLines(ls[2..]);
    AppendLine(l0 + "\n", l1, JoinLines(ls[2..]));
    assert JoinLines(ls) == l0 + "\n" + JoinLines(ls[1..]);
    assert l0 + "\n" + l1 + "\n" + l2 + "\n" + l3 + "\n" + l4 + "\n" + l5 + "\n" + ""
      == l0 + "\n" + l1 + "\n" + l2 + "\n" + l3 + "\n" + l4 + "\n" + l5 + "\n";
  }

  lemma JoinLinesBlank(ls: seq<string>)
    ensures JoinLines(ls + [""]) == JoinLines(ls) + "\n"
  {
    JoinLinesSnoc(ls, "");
    assert JoinLines(ls) + "" == JoinLines(ls);
  }

  lemma JoinLinesPrefix(a: seq<string>, c: seq<string>)
    requires a <= c
    ensures JoinLines(a) <= JoinLines(c)
  {
    assert c == a + c[|a|..];
    JoinLinesAppend(a, c[|a|..]);
  }

  /** Reading back text written line by line gives the same lines. */
  lemma {:induction false} LinesOfJoin(ls: seq<string>, rest: string)
    requires forall k :: 0 <= k < |ls| ==> NoNewline(ls[k])
    ensures Lines(JoinLines(ls) + rest) == ls + Lines(rest)
    decreases |ls|
  {
    if ls == [] {
      assert JoinLines(ls) + rest == rest;
    } else {
      var tail := JoinLines(ls[1..]) + rest;
      Assoc(ls[0] + "\n", JoinLines(ls[1..]), rest);
      LinesCons(ls[0], tail);
      LinesOfJoin(ls[1..], rest);
      ConsAppend(ls[0], ls[1..], Lines(rest));
      assert [ls[0]] + ls[1..] == ls;
    }
  }

  lemma ConsAppend<T>(x: T, a: seq<T>, b: seq<T>)
    ensures [x] + (a + b) == [x] + a + b
  {
  }

}
