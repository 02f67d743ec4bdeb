/** String and number helpers standing for the Python built-ins the collectors
    call: `str.lower`, `str.strip`, `str.split`, `str.join`, `str.replace`,
    `in` on strings, `float()` on strings, and `format` with `d`, `03d` and
    `.1f`. Characters are compared by code point. */
module Text {
  import opened Common

  // ------------------------------------------------------------ characters

  predicate IsDigit(c: char) { '0' <= c <= '9' }

  predicate IsUpperAscii(c: char) { 'A' <= c <= 'Z' }

  predicate IsLowerAscii(c: char) { 'a' <= c <= 'z' }

  predicate IsAsciiLetter(c: char) { IsUpperAscii(c) || IsLowerAscii(c) }

  /** The class `[a-zA-Z0-9]`. */
  predicate IsAsciiAlnum(c: char) { IsAsciiLetter(c) || IsDigit(c) }

  /** The class `[a-z0-9]` that slugs are made of, besides `-`. */
  predicate IsSlugChar(c: char) { IsLowerAscii(c) || IsDigit(c) }

  /** The characters for which Python's `str.isspace()` holds; these are the
      characters `\s` matches and `str.strip()` removes. */
  predicate IsSpace(c: char)
  {
    var n := c as int;
    || 0x09 <= n <= 0x0d || 0x1c <= n <= 0x20 || n == 0x85 || n == 0xa0 || n == 0x1680
    || 0x2000 <= n <= 0x200a || n == 0x2028 || n == 0x2029 || n == 0x202f || n == 0x205f
    || n == 0x3000
  }

  function LowerChar(c: char): char
  {
    if IsUpperAscii(c) then (c as int + 32) as char else c
  }

  function UpperChar(c: char): char
  {
    if IsLowerAscii(c) then (c as int - 32) as char else c
  }

  /** `s.lower()` on the ASCII letters. */
  function Lower(s: string): (r: string)
    ensures |r| == |s|
    ensures forall i :: 0 <= i < |s| ==> r[i] == LowerChar(s[i])
  {
    seq(|s|, i requires 0 <= i < |s| => LowerChar(s[i]))
  }

  /** `s.title()` on ASCII text: a letter is upper-cased when the character
      before it is not a letter, and lower-cased otherwise. */
  function Title(s: string): (r: string)
    ensures |r| == |s|
  {
    seq(|s|, i requires 0 <= i < |s| =>
      if i == 0 || !IsAsciiLetter(s[i - 1]) then UpperChar(s[i]) else LowerChar(s[i]))
  }

  /** Title-casing changes case only: lower-casing undoes it. */
  lemma TitleLower(s: string)
    ensures Lower(Title(s)) == Lower(s)
  {
    var t := Title(s);
    forall i | 0 <= i < |s| ensures LowerChar(t[i]) == LowerChar(s[i]) {
      CaseLower(s[i]);
    }
  }

  /** Lower-casing forgets the case a character had. */
  lemma CaseLower(c: char)
    ensures LowerChar(UpperChar(c)) == LowerChar(c) && LowerChar(LowerChar(c)) == LowerChar(c)
  {
  }

  // ------------------------------------------------------------ searching

  predicate StartsWith(s: string, prefix: string)
  {
    |prefix| <= |s| && s[..|prefix|] == prefix
  }

  predicate EndsWith(s: string, suffix: string)
  {
    |suffix| <= |s| && s[|s| - |suffix|..] == suffix
  }

  /** Python `sub in s`. */
  predicate Contains(s: string, sub: string)
    decreases |s|
  {
    StartsWith(s, sub) || (s != [] && Contains(s[1..], sub))
  }

  /** `s.find(c)`: the first index of `c`, or -1. */
  function Find(s: string, c: char): (r: int)
    ensures -1 <= r < |s|
    ensures r == -1 <==> c !in s
    ensures r >= 0 ==> s[r] == c && c !in s[..r]
  {
    if s == [] then -1
    else if s[0] == c then 0
    else
      var k := Find(s[1..], c);
      assert s[1..][..k + 1] == s[1..k + 2] by {}
      if k == -1 then -1 else k + 1
  }

  /** `s.replace(pat, rep)`: every non-overlapping occurrence, left to right. */
  function ReplaceAll(s: string, pat: string, rep: string): string
    requires pat != []
    decreases |s|
  {
    if s == [] then []
    else if StartsWith(s, pat) then rep + ReplaceAll(s[|pat|..], pat, rep)
    else [s[0]] + ReplaceAll(s[1..], pat, rep)
  }

  /** `s.replace(a, b)` for single characters `a` and `b`. */
  function ReplaceChar(s: string, a: char, b: char): (r: string)
    ensures |r| == |s|
    ensures forall i :: 0 <= i < |s| ==> r[i] == if s[i] == a then b else s[i]
  {
    seq(|s|, i requires 0 <= i < |s| => if s[i] == a then b else s[i])
  }

  /** Strict lexicographic order by code point, as MongoDB sorts strings. */
  predicate LexLess(a: string, b: string)
    decreases |a|
  {
    if a == [] then b != []
    else if b == [] then false
    else if a[0] != b[0] then a[0] < b[0]
    else LexLess(a[1..], b[1..])
  }

  lemma {:induction false} LexLessIrreflexive(a: string)
    ensures !LexLess(a, a)
    decreases |a|
  {
    if a != [] { LexLessIrreflexive(a[1..]); }
  }

  lemma {:induction false} LexLessTransitive(a: string, b: string, c: string)
    requires LexLess(a, b) && LexLess(b, c)
    ensures LexLess(a, c)
    decreases |a|
  {
    if a != [] && b != [] && c != [] && a[0] == b[0] && b[0] == c[0] {
      LexLessTransitive(a[1..], b[1..], c[1..]);
    }
  }

  lemma {:induction false} LexLessTotal(a: string, b: string)
    ensures a == b || LexLess(a, b) || LexLess(b, a)
    decreases |a|
  {
    if a != [] && b != [] && a[0] == b[0] {
      LexLessTotal(a[1..], b[1..]);
      if a[1..] == b[1..] {
        assert a == [a[0]] + a[1..] && b == [b[0]] + b[1..];
      }
    }
  }

  // ------------------------------------------------------------ stripping and runs

  /** `s` without its leading characters that satisfy `p`. */
  function DropWhile(s: string, p: char -> bool): (r: string)
    ensures |r| <= |s| && r == s[|s| - |r|..]
    ensures r != [] ==> !p(r[0])
    ensures forall i :: 0 <= i < |s| - |r| ==> p(s[i])
    decreases |s|
  {
    if s != [] && p(s[0]) then DropWhile(s[1..], p) else s
  }

  /** `s` without its trailing characters that satisfy `p`. */
  function TrimEnd(s: string, p: char -> bool): (r: string)
    ensures |r| <= |s| && r == s[..|r|]
    ensures r != [] ==> !p(r[|r| - 1])
    ensures forall i :: |r| <= i < |s| ==> p(s[i])
    decreases |s|
  {
    if s != [] && p(s[|s| - 1]) then TrimEnd(s[..|s| - 1], p) else s
  }

  /** `s.strip()` (with `p` = IsSpace) or `s.strip(chars)`: a contiguous
      piece of `s` that neither starts nor ends with a character in `p`. */
  function Strip(s: string, p: char -> bool): (r: string)
    ensures |r| <= |s|
    ensures r != [] ==> !p(r[0]) && !p(r[|r| - 1])
  {
    TrimEnd(DropWhile(s, p), p)
  }

  /** `re.sub(P + '+', rep, s)` for a character class P: every maximal run of
      characters satisfying `p` becomes the single character `rep`. */
  function ReplaceRuns(s: string, p: char -> bool, rep: char): string
    decreases |s|
  {
    if s == [] then []
    else if p(s[0]) then [rep] + ReplaceRuns(DropWhile(s[1..], p), p, rep)
    else [s[0]] + ReplaceRuns(s[1..], p, rep)
  }

  /** Every character of a run replacement is `rep` or a kept character of `s`. */
  lemma {:induction false} ReplaceRunsAlphabet(s: string, p: char -> bool, rep: char, ok: char -> bool)
    requires ok(rep)
    requires forall i :: 0 <= i < |s| && !p(s[i]) ==> ok(s[i])
    ensures forall i :: 0 <= i < |ReplaceRuns(s, p, rep)| ==> ok(ReplaceRuns(s, p, rep)[i])
    decreases |s|
  {
    if s != [] {
      if p(s[0]) {
        var d := DropWhile(s[1..], p);
        ReplaceRunsAlphabet(d, p, rep, ok);
      } else {
        ReplaceRunsAlphabet(s[1..], p, rep, ok);
      }
    }
  }

  /** The first character of a run replacement. */
  lemma ReplaceRunsHead(s: string, p: char -> bool, rep: char)
    requires s != []
    ensures ReplaceRuns(s, p, rep) != []
    ensures ReplaceRuns(s, p, rep)[0] == if p(s[0]) then rep else s[0]
  {
  }

  /** A run replacement ends with the last character of `s` when that one is kept. */
  lemma {:induction false} ReplaceRunsLast(s: string, p: char -> bool, rep: char)
    requires s != [] && !p(s[|s| - 1])
    ensures ReplaceRuns(s, p, rep) != []
    ensures ReplaceRuns(s, p, rep)[|ReplaceRuns(s, p, rep)| - 1] == s[|s| - 1]
    decreases |s|
  {
    if p(s[0]) {
      var d := DropWhile(s[1..], p);
      assert d != [] && d[|d| - 1] == s[|s| - 1];
      ReplaceRunsLast(d, p, rep);
    } else if |s| > 1 {
      ReplaceRunsLast(s[1..], p, rep);
    }
  }

  /** A replacement character is never followed by another one, provided no
      kept character of `s` equals it. */
  lemma {:induction false} ReplaceRunsNoDouble(s: string, p: char -> bool, rep: char)
    requires forall i :: 0 <= i < |s| && !p(s[i]) ==> s[i] != rep
    ensures NoDouble(ReplaceRuns(s, p, rep), rep)
    decreases |s|
  {
    var out := ReplaceRuns(s, p, rep);
    if s != [] {
      if p(s[0]) {
        var d := DropWhile(s[1..], p);
        assert forall i :: 0 <= i < |d| ==> d[i] == s[1..][|s| - 1 - |d| + i];
        ReplaceRunsNoDouble(d, p, rep);
        if d != [] { ReplaceRunsHead(d, p, rep); }
        assert out == [rep] + ReplaceRuns(d, p, rep);
      } else {
        ReplaceRunsNoDouble(s[1..], p, rep);
        assert out == [s[0]] + ReplaceRuns(s[1..], p, rep);
      }
    }
  }

  /** Kept characters pass through a run replacement unchanged. */
  lemma {:induction false} ReplaceRunsWord(w: string, t: string, p: char -> bool, rep: char)
    requires forall i :: 0 <= i < |w| ==> !p(w[i])
    ensures ReplaceRuns(w + t, p, rep) == w + ReplaceRuns(t, p, rep)
    decreases |w|
  {
    if w != [] {
      assert (w + t)[0] == w[0] && (w + t)[1..] == w[1..] + t;
      assert ReplaceRuns(w + t, p, rep) == [w[0]] + ReplaceRuns(w[1..] + t, p, rep);
      ReplaceRunsWord(w[1..], t, p, rep);
      assert [w[0]] + (w[1..] + ReplaceRuns(t, p, rep)) == w + ReplaceRuns(t, p, rep);
    } else {
      assert w + t == t;
    }
  }

  /** A kept first character passes through. */
  lemma ReplaceRunsKept(s: string, p: char -> bool, rep: char)
    requires s != [] && !p(s[0])
    ensures ReplaceRuns(s, p, rep) == [s[0]] + ReplaceRuns(s[1..], p, rep)
  {
  }

  /** A single matching character before a kept one becomes `rep`. */
  lemma ReplaceRunsSep(c: char, t: string, p: char -> bool, rep: char)
    requires p(c) && (t == [] || !p(t[0]))
    ensures ReplaceRuns([c] + t, p, rep) == [rep] + ReplaceRuns(t, p, rep)
  {
    assert ([c] + t)[1..] == t;
  }

  /** A word followed by one separator: the word, then `rep`. */
  lemma WordThenSeparator(w: string, c: char, t: string, p: char -> bool, rep: char)
    requires forall i :: 0 <= i < |w| ==> !p(w[i])
    requires p(c) && (t == [] || !p(t[0]))
    ensures ReplaceRuns(w + ([c] + t), p, rep) == w + ([rep] + ReplaceRuns(t, p, rep))
  {
    ReplaceRunsSep(c, t, p, rep);
    ReplaceRunsWord(w, [c] + t, p, rep);
  }

  /** No two adjacent copies of `c`. */
  predicate NoDouble(s: string, c: char)
  {
    forall i :: 0 <= i < |s| - 1 ==> !(s[i] == c && s[i + 1] == c)
  }

  /** Stripping keeps only characters of the original, so what holds of all
      of them holds of the result. */
  lemma StripKeeps(s: string, p: char -> bool, q: char -> bool)
    requires forall i :: 0 <= i < |s| ==> q(s[i])
    ensures forall i :: 0 <= i < |Strip(s, p)| ==> q(Strip(s, p)[i])
  {
    StripSlice(s, p);
  }

  lemma StripSlice(s: string, p: char -> bool)
    ensures |s| - |DropWhile(s, p)| + |Strip(s, p)| <= |s|
    ensures Strip(s, p) == s[|s| - |DropWhile(s, p)|..|s| - |DropWhile(s, p)| + |Strip(s, p)|]
  {
    var d := DropWhile(s, p);
    var a := |s| - |d|;
    assert d == s[a..];
    assert Strip(s, p) == d[..|Strip(s, p)|];
  }

  // ------------------------------------------------------------ slugs

  predicate IsDash(c: char) { c == '-' }

  /** The class `[^a-z0-9]`. */
  predicate NotSlugChar(c: char) { !IsSlugChar(c) }

  /** What the port weather service accepts as a slug: lower-case letters,
      digits and single hyphens between them. */
  predicate WellFormedSlug(s: string)
  {
    && (forall i :: 0 <= i < |s| ==> IsSlugChar(s[i]) || s[i] == '-')
    && (s != [] ==> s[0] != '-' && s[|s| - 1] != '-')
    && NoDouble(s, '-')
  }

  /** Stripping never brings two copies of `c` together. */
  lemma StripNoDouble(s: string, p: char -> bool, c: char)
    requires NoDouble(s, c)
    ensures NoDouble(Strip(s, p), c)
  {
    var d := DropWhile(s, p);
    NoDoubleSlice(s, |s| - |d|, |s|, c);
    NoDoubleSlice(d, 0, |TrimEnd(d, p)|, c);
  }

  lemma NoDoubleSlice(s: string, a: nat, b: nat, c: char)
    requires a <= b <= |s| && NoDouble(s, c)
    ensures NoDouble(s[a..b], c)
  {
    var r := s[a..b];
    forall i | 0 <= i < |r| - 1 ensures !(r[i] == c && r[i + 1] == c) {
      assert r[i] == s[a + i] && r[i + 1] == s[a + i + 1];
    }
  }

  // ------------------------------------------------------------ split and join

  /** `sep.join(xs)` for a one-character separator. */
  function Join(xs: seq<string>, sep: char): string
  {
    if |xs| == 0 then []
    else if |xs| == 1 then xs[0]
    else xs[0] + [sep] + Join(xs[1..], sep)
  }

  /** `s.split(sep)` for a one-character separator: never empty. */
  function Split(s: string, sep: char): (r: seq<string>)
    ensures |r| >= 1
  {
    if s == [] then [[]]
    else if s[0] == sep then [[]] + Split(s[1..], sep)
    else
      var rest := Split(s[1..], sep);
      [[s[0]] + rest[0]] + rest[1..]
  }

  lemma {:induction false} SplitPrefix(x: string, tail: string, sep: char)
    requires sep !in x
    ensures Split(x + tail, sep) == [x + Split(tail, sep)[0]] + Split(tail, sep)[1..]
    decreases |x|
  {
    if x == [] {
      var sp := Split(tail, sep);
      assert x + tail == tail && x + sp[0] == sp[0];
      assert sp == [sp[0]] + sp[1..];
    } else {
      assert (x + tail)[0] == x[0] != sep;
      assert (x + tail)[1..] == x[1..] + tail;
      SplitPrefix(x[1..], tail, sep);
      assert [x[0]] + (x[1..] + Split(tail, sep)[0]) == x + Split(tail, sep)[0];
    }
  }

  /** Splitting a join gives back the pieces when none contains the separator. */
  lemma {:induction false} SplitJoin(xs: seq<string>, sep: char)
    requires |xs| >= 1
    requires forall i :: 0 <= i < |xs| ==> sep !in xs[i]
    ensures Split(Join(xs, sep), sep) == xs
    decreases |xs|
  {
    if |xs| == 1 {
      SplitPrefix(xs[0], [], sep);
      assert xs[0] + [] == xs[0];
    } else {
      var rest := Join(xs[1..], sep);
      SplitJoin(xs[1..], sep);
      assert Join(xs, sep) == xs[0] + ([sep] + rest);
      SplitPrefix(xs[0], [sep] + rest, sep);
      assert ([sep] + rest)[0] == sep && ([sep] + rest)[1..] == rest;
      assert Split([sep] + rest, sep) == [[]] + Split(rest, sep);
      assert xs[0] + [] == xs[0];
      assert xs == [xs[0]] + xs[1..];
    }
  }

  lemma {:induction false} JoinLength(xs: seq<string>, sep: char)
    ensures |Join(xs, sep)| == (if |xs| == 0 then 0 else |xs| - 1) + SumLengths(xs)
    decreases |xs|
  {
    if |xs| > 1 { JoinLength(xs[1..], sep); }
  }

  function SumLengths(xs: seq<string>): nat
  {
    if xs == [] then 0 else |xs[0]| + SumLengths(xs[1..])
  }

  // ------------------------------------------------------------ integers

  function DigitChar(d: nat): char
    requires d < 10
  {
    ('0' as int + d) as char
  }

  function DigitValue(c: char): nat
    requires IsDigit(c)
  {
    c as int - '0' as int
  }

  /** `str(n)` for a natural number. */
  function NatToString(n: nat): (r: string)
    ensures r != [] && forall i :: 0 <= i < |r| ==> IsDigit(r[i])
  {
    if n < 10 then [DigitChar(n)] else NatToString(n / 10) + [DigitChar(n % 10)]
  }

  /** `str(i)`, also `f"{i}"` and `f"{i:d}"`. */
  function IntToString(i: int): string
  {
    if i < 0 then "-" + NatToString(-i) else NatToString(i)
  }

  predicate AllDigits(s: string)
  {
    forall i :: 0 <= i < |s| ==> IsDigit(s[i])
  }

  /** The value of a string of decimal digits. */
  function DigitsValue(s: string): nat
    requires AllDigits(s)
  {
    if s == [] then 0 else DigitsValue(s[..|s| - 1]) * 10 + DigitValue(s[|s| - 1])
  }

  /** Reading back what `str(n)` printed gives `n`. */
  lemma {:induction false} DigitsValueOfNatToString(n: nat)
    ensures DigitsValue(NatToString(n)) == n
  {
    if n >= 10 {
      var s := NatToString(n);
      assert s[..|s| - 1] == NatToString(n / 10);
      DigitsValueOfNatToString(n / 10);
    }
  }

  /** `f"{n:03d}"`: at least three digits, padded with zeros on the left. */
  function ZeroPad3(n: nat): (r: string)
    ensures |r| >= 3 && AllDigits(r)
  {
    var s := NatToString(n);
    if |s| >= 3 then s else seq(3 - |s|, _ => '0') + s
  }

  // ------------------------------------------------------------ float text

  /** `float(s)` for decimal text: surrounding whitespace, an optional sign,
      and digits with at most one decimal point and at least one digit. */
  function ParseFloat(s: string): Option<real>
  {
    ParseSigned(Strip(s, IsSpace))
  }

  /** An optional sign followed by an unsigned decimal. */
  function ParseSigned(t: string): Option<real>
  {
    if t == [] then None
    else
      var body := if t[0] == '-' || t[0] == '+' then t[1..] else t;
      match ParseUnsigned(body)
      case None => None
      case Some(v) => Some(if t[0] == '-' then -v else v)
  }

  /** Digits, optionally followed by `.` and more digits; one digit at least. */
  function ParseUnsigned(s: string): Option<real>
  {
    var parts := Split(s, '.');
    var whole := parts[0];
    var frac := if |parts| == 2 then parts[1] else [];
    if |parts| <= 2 && AllDigits(whole) && AllDigits(frac) && |whole| + |frac| > 0 then
      Some(DigitsValue(whole) as real + FractionValue(frac))
    else None
  }

  /** The value of the digits after a decimal point: `d1 d2 ...` is d1/10 + d2/100 + ... */
  function FractionValue(s: string): real
    requires AllDigits(s)
  {
    if s == [] then 0.0 else (DigitValue(s[0]) as real + FractionValue(s[1..])) / 10.0
  }

  /** `round()` to the nearest integer, ties to even, of a non-negative real. */
  function RoundHalfEven(x: real): (n: nat)
    requires x >= 0.0
  {
    var f := x.Floor;
    var d := x - f as real;
    if d > 0.5 then f + 1
    else if d < 0.5 then f
    else if f % 2 == 0 then f else f + 1
  }

  /** `f"{r:.1f}"`, the value written with exactly one decimal, rounded half
      to even on the exact value. */
  function FormatOneDecimal(r: real): string
  {
    var m := if r < 0.0 then -r else r;
    var n := RoundHalfEven(m * 10.0);
    (if r < 0.0 then "-" else "") + NatToString(n / 10) + "." + NatToString(n % 10)
  }

  /** An integral value prints as its integer followed by `.0`. */
  lemma FormatOneDecimalOfInt(i: int)
    ensures FormatOneDecimal(i as real) == IntToString(i) + ".0"
  {
    var m := if i < 0 then -i else i;
    assert (if i as real < 0.0 then -(i as real) else i as real) * 10.0 == (m * 10) as real;
    assert ((m * 10) as real).Floor == m * 10;
    assert RoundHalfEven((m * 10) as real) == m * 10;
    assert (m * 10) / 10 == m && (m * 10) % 10 == 0;
  }

  /** `f"{i:.4f}"` for an integer `i`. */
  function FormatFourDecimalsOfInt(i: int): string
  {
    IntToString(i) + ".0000"
  }

  lemma FourZeros()
    ensures AllDigits("0000") && FractionValue("0000") == 0.0
  {
    assert "0000"[1..] == "000" && "000"[1..] == "00" && "00"[1..] == "0" && "0"[1..] == "";
  }

  /** Digits followed by `.0000` read as the value of the digits. */
  lemma ParseUnsignedOfDigits(digits: string)
    requires AllDigits(digits) && digits != []
    ensures ParseUnsigned(digits + ".0000") == Some(DigitsValue(digits) as real)
  {
    assert forall k :: 0 <= k < |digits| ==> digits[k] != '.';
    assert '.' !in "0000";
    SplitJoin([digits, "0000"], '.');
    assert Join([digits, "0000"], '.') == digits + ".0000";
    FourZeros();
  }

  lemma ParseUnsignedOfNat(m: nat)
    ensures ParseUnsigned(NatToString(m) + ".0000") == Some(m as real)
  {
    ParseUnsignedOfDigits(NatToString(m));
    DigitsValueOfNatToString(m);
  }

  /** Reading back what `f"{i:.4f}"` printed gives `i`. */
  lemma ParseFloatOfFourDecimals(i: int)
    ensures ParseFloat(FormatFourDecimalsOfInt(i)) == Some(i as real)
  {
    if i < 0 { ParseNegativeFourDecimals(i); } else { ParseNonNegativeFourDecimals(i); }
  }

  lemma ParseNegativeFourDecimals(i: int)
    requires i < 0
    ensures ParseFloat(FormatFourDecimalsOfInt(i)) == Some(i as real)
  {
    NegativeFourDecimalsStripped(i);
    NegativeFourDecimalsSigned(i);
  }

  lemma NegativeFourDecimalsStripped(i: int)
    requires i < 0
    ensures ParseFloat(FormatFourDecimalsOfInt(i)) == ParseSigned(FormatFourDecimalsOfInt(i))
  {
    var s := FormatFourDecimalsOfInt(i);
    assert s[0] == '-' && s[|s| - 1] == '0';
    StripUnchanged(s, IsSpace);
  }

  lemma NegativeFourDecimalsSigned(i: int)
    requires i < 0
    ensures ParseSigned(FormatFourDecimalsOfInt(i)) == Some(i as real)
  {
    var m: nat := -i;
    NegativeFourDecimalsTail(i);
    ParseUnsignedOfNat(m);
    ParseSignedNegative(FormatFourDecimalsOfInt(i), m as real);
  }

  lemma NegativeFourDecimalsTail(i: int)
    requires i < 0
    ensures FormatFourDecimalsOfInt(i) != [] && FormatFourDecimalsOfInt(i)[0] == '-'
    ensures FormatFourDecimalsOfInt(i)[1..] == NatToString(-i) + ".0000"
  {
    assert FormatFourDecimalsOfInt(i) == "-" + (NatToString(-i) + ".0000");
  }

  lemma ParseSignedNegative(s: string, v: real)
    requires s != [] && s[0] == '-' && ParseUnsigned(s[1..]) == Some(v)
    ensures ParseSigned(s) == Some(-v)
  {
  }

  lemma ParseNonNegativeFourDecimals(i: int)
    requires i >= 0
    ensures ParseFloat(FormatFourDecimalsOfInt(i)) == Some(i as real)
  {
    NonNegativeFourDecimalsStripped(i);
    NonNegativeFourDecimalsSigned(i);
  }

  lemma NonNegativeFourDecimalsStripped(i: int)
    requires i >= 0
    ensures ParseFloat(FormatFourDecimalsOfInt(i)) == ParseSigned(FormatFourDecimalsOfInt(i))
  {
    var s := FormatFourDecimalsOfInt(i);
    assert s == NatToString(i) + ".0000";
    assert s[0] == NatToString(i)[0] && s[|s| - 1] == '0';
    StripUnchanged(s, IsSpace);
  }

  lemma NonNegativeFourDecimalsSigned(i: int)
    requires i >= 0
    ensures ParseSigned(FormatFourDecimalsOfInt(i)) == Some(i as real)
  {
    var s := FormatFourDecimalsOfInt(i);
    assert s == NatToString(i) + ".0000";
    assert IsDigit(s[0]) by { assert s[0] == NatToString(i)[0]; }
    ParseUnsignedOfNat(i);
  }

  lemma StripUnchanged(s: string, p: char -> bool)
    requires s != [] ==> !p(s[0]) && !p(s[|s| - 1])
    ensures Strip(s, p) == s
  {
  }
}
