/**
 * String helpers with the meaning the pollers rely on from Python's `str`:
 * `replace`, `lower`, `split`, `join`, `startswith`, slicing with clamped
 * bounds, `'%d' % n` and `int(s)`.  Strings are sequences of characters;
 * case mapping covers ASCII letters only.
 */
module Text {

  /** `s.startswith(p)`. */
  predicate StartsWith(s: string, p: string)
  {
    |p| <= |s| && s[..|p|] == p
  }

  /** `s.endswith(p)`. */
  predicate EndsWith(s: string, p: string)
  {
    |p| <= |s| && s[|s| - |p|..] == p
  }

  predicate OccursAt(s: string, p: string, i: int)
  {
    0 <= i <= |s| - |p| && s[i..i + |p|] == p
  }

  /** `p in s` for strings. */
  predicate Occurs(s: string, p: string)
  {
    exists i | 0 <= i <= |s| - |p| :: OccursAt(s, p, i)
  }

  // ---------------------------------------------------------------------
  // str.replace

  /**
   * `s.replace(pat, rep)` for a non-empty pattern: occurrences are found
   * left to right and do not overlap.
   */
  function ReplaceAll(s: string, pat: string, rep: string): (r: string)
    requires |pat| > 0
    ensures forall c | c in r :: c in s || c in rep
    decreases |s|
  {
    if |s| < |pat| then s
    else if s[..|pat|] == pat then rep + ReplaceAll(s[|pat|..], pat, rep)
    else [s[0]] + ReplaceAll(s[1..], pat, rep)
  }

  /** A string in which the pattern does not occur is returned unchanged. */
  lemma {:induction false} ReplaceAbsent(s: string, pat: string, rep: string)
    requires |pat| > 0
    requires !Occurs(s, pat)
    ensures ReplaceAll(s, pat, rep) == s
    decreases |s|
  {
    if |s| >= |pat| {
      assert !OccursAt(s, pat, 0);
      var t := s[1..];
      assert !Occurs(t, pat) by {
        forall i | 0 <= i <= |t| - |pat|
          ensures !OccursAt(t, pat, i)
        {
          assert t[i..i + |pat|] == s[i + 1..i + 1 + |pat|];
          assert !OccursAt(s, pat, i + 1);
        }
      }
      ReplaceAbsent(t, pat, rep);
      assert s == [s[0]] + t;
    }
  }

  /** A string made of one occurrence of the pattern and a rest. */
  lemma ReplaceLeading(pat: string, rest: string, rep: string)
    requires |pat| > 0
    ensures ReplaceAll(pat + rest, pat, rep) == rep + ReplaceAll(rest, pat, rep)
  {
    var s := pat + rest;
    assert s[..|pat|] == pat;
    assert s[|pat|..] == rest;
  }

  /** Replacing one character by another, position by position. */
  lemma {:induction false} ReplaceChar(s: string, a: char, b: char)
    ensures |ReplaceAll(s, [a], [b])| == |s|
    ensures forall i | 0 <= i < |s| :: ReplaceAll(s, [a], [b])[i] == (if s[i] == a then b else s[i])
    decreases |s|
  {
    if s != [] {
      ReplaceChar(s[1..], a, b);
      assert s[..1] == [a] <==> s[0] == a;
    }
  }

  // ---------------------------------------------------------------------
  // str.lower and whitespace

  function LowerChar(c: char): (d: char)
    ensures IsSpace(d) <==> IsSpace(c)
  {
    if 'A' <= c <= 'Z' then (c as int - 'A' as int + 'a' as int) as char else c
  }

  /** `s.lower()` restricted to ASCII letters. */
  function Lower(s: string): (r: string)
    ensures |r| == |s|
    ensures forall i :: 0 <= i < |s| ==> r[i] == LowerChar(s[i])
  {
    seq(|s|, i requires 0 <= i < |s| => LowerChar(s[i]))
  }

  lemma LowerConcat(a: string, b: string)
    ensures Lower(a + b) == Lower(a) + Lower(b)
  {
  }

  /** What `\s` matches in a Python 2 pattern compiled without re.UNICODE. */
  predicate IsSpace(c: char)
  {
    c == ' ' || c == '\t' || c == '\n' || c == '\r' || c as int == 11 || c as int == 12
  }

  /** `re.sub(r'\s', '', s)`. */
  function StripSpaces(s: string): (r: string)
    ensures forall c :: c in r ==> c in s && !IsSpace(c)
  {
    if s == [] then []
    else if IsSpace(s[0]) then StripSpaces(s[1..])
    else [s[0]] + StripSpaces(s[1..])
  }

  /** Nothing is left once the whitespace is removed exactly when every character is whitespace. */
  lemma {:induction false} StripSpacesEmpty(s: string)
    ensures StripSpaces(s) == [] <==> forall i :: 0 <= i < |s| ==> IsSpace(s[i])
  {
    if s != [] {
      StripSpacesEmpty(s[1..]);
      if !IsSpace(s[0]) {
        assert StripSpaces(s)[0] == s[0];
      } else {
        assert forall i :: 1 <= i < |s| ==> s[i] == s[1..][i - 1];
      }
    }
  }

  // ---------------------------------------------------------------------
  // str.split and str.join on a single-character separator

  /** `s.split(sep)`: the pieces between the separators, always at least one. */
  function Split(s: string, sep: char): (r: seq<string>)
    ensures |r| > 0
    ensures (|r| == 1) == (sep !in s)
    ensures |r| == 1 ==> r[0] == s
    ensures forall i :: 0 <= i < |r| ==> sep !in r[i]
  {
    if s == [] then [""]
    else if s[0] == sep then [""] + Split(s[1..], sep)
    else
      var rest := Split(s[1..], sep);
      [[s[0]] + rest[0]] + rest[1..]
  }

  /** `sep.join(parts)` for a non-empty list of parts. */
  function Join(parts: seq<string>, sep: char): (r: string)
    requires |parts| > 0
  {
    if |parts| == 1 then parts[0] else parts[0] + [sep] + Join(parts[1..], sep)
  }

  lemma {:induction false} SplitNoSeparator(p: string, sep: char)
    requires sep !in p
    ensures Split(p, sep) == [p]
  {
    if p != [] {
      SplitNoSeparator(p[1..], sep);
      assert [p[0]] + p[1..] == p;
    }
  }

  lemma {:induction false} SplitAtFirst(p: string, sep: char, rest: string)
    requires sep !in p
    ensures Split(p + [sep] + rest, sep) == [p] + Split(rest, sep)
  {
    var s := p + [sep] + rest;
    if p == [] {
      assert s[1..] == rest;
    } else {
      assert s[1..] == p[1..] + [sep] + rest;
      SplitAtFirst(p[1..], sep, rest);
      assert [p[0]] + p[1..] == p;
    }
  }

  /** Splitting at one separator: the pieces before it, then the pieces after it. */
  lemma {:induction false} SplitConcat(p: string, sep: char, rest: string)
    ensures Split(p + [sep] + rest, sep) == Split(p, sep) + Split(rest, sep)
    decreases |p|
  {
    var s := p + [sep] + rest;
    if p == [] {
      assert s[1..] == rest;
    } else {
      assert s[1..] == p[1..] + [sep] + rest;
      SplitConcat(p[1..], sep, rest);
    }
  }

  /** Splitting a join gives the parts back when no part contains the separator. */
  lemma {:induction false} SplitJoin(parts: seq<string>, sep: char)
    requires |parts| > 0
    requires forall i :: 0 <= i < |parts| ==> sep !in parts[i]
    ensures Split(Join(parts, sep), sep) == parts
  {
    if |parts| == 1 {
      SplitNoSeparator(parts[0], sep);
    } else {
      SplitJoin(parts[1..], sep);
      SplitAtFirst(parts[0], sep, Join(parts[1..], sep));
      assert parts == [parts[0]] + parts[1..];
    }
  }

  /** The last element of `s.split(sep)`, i.e. `s.split(sep)[-1]`. */
  function LastSegment(s: string, sep: char): (r: string)
    ensures sep !in r
  {
    var parts := Split(s, sep);
    parts[|parts| - 1]
  }

  lemma {:induction false} LastSegmentIsSuffix(s: string, sep: char)
    ensures EndsWith(s, LastSegment(s, sep))
    ensures |LastSegment(s, sep)| == |s| || s[|s| - |LastSegment(s, sep)| - 1] == sep
  {
    if s != [] {
      LastSegmentIsSuffix(s[1..], sep);
      var rest := Split(s[1..], sep);
      if s[0] != sep && |rest| == 1 {
        assert LastSegment(s, sep) == [s[0]] + rest[0];
        assert [s[0]] + s[1..] == s;
      } else if sep !in s[1..] {
        assert LastSegment(s, sep) == s[1..];
      } else {
        var last := LastSegment(s, sep);
        assert last == LastSegment(s[1..], sep);
        assert last != s[1..];
        assert |last| < |s| - 1;
        assert s[|s| - |last|..] == s[1..][|s| - 1 - |last|..];
        assert s[|s| - |last| - 1] == s[1..][|s| - 1 - |last| - 1];
      }
    }
  }

  /** Whatever comes before a separator does not change the last segment. */
  lemma {:induction false} LastSegmentAfter(p: string, sep: char, rest: string)
    ensures LastSegment(p + [sep] + rest, sep) == LastSegment(rest, sep)
    decreases |p|
  {
    var s := p + [sep] + rest;
    if p == [] {
      assert s[1..] == rest;
    } else {
      assert s[1..] == p[1..] + [sep] + rest;
      LastSegmentAfter(p[1..], sep, rest);
      if s[0] != sep {
        assert sep in s[1..] by { assert s[1..][|p| - 1] == sep; }
      }
    }
  }

  /** `s.split(sep, 1)` unpacked into two names: fails when `sep` is absent. */
  function SplitOnce(s: string, sep: char): (r: Option<(string, string)>)
    ensures r.None? <==> sep !in s
    ensures r.Some? ==> sep !in r.value.0 && r.value.0 + [sep] + r.value.1 == s
  {
    if s == [] then None
    else if s[0] == sep then Some(([], s[1..]))
    else match SplitOnce(s[1..], sep)
      case None => None
      case Some(parts) => Some(([s[0]] + parts.0, parts.1))
  }

  /** The split happens at the first separator: everything after it, separators included, is the second name. */
  lemma SplitOnceAt(a: string, sep: char, b: string)
    requires sep !in a
    ensures SplitOnce(a + [sep] + b, sep) == Some((a, b))
  {
    var s := a + [sep] + b;
    var r := SplitOnce(s, sep);
    var c := r.value.0;
    assert s == c + [sep] + r.value.1;
    assert forall i | 0 <= i < |a| :: s[i] == a[i];
    assert forall i | 0 <= i < |c| :: s[i] == c[i];
    assert s[|a|] == sep && s[|c|] == sep;
    assert |c| == |a|;
    assert c == s[..|a|] == a;
    assert r.value.1 == s[|a| + 1..] == b;
  }

  datatype Option<T> = None | Some(value: T)

  /** `reversed(xs)`: the same elements, last first. */
  function Reversed<T>(xs: seq<T>): (r: seq<T>)
    ensures |r| == |xs|
    ensures forall i | 0 <= i < |xs| :: r[i] == xs[|xs| - 1 - i]
  {
    if xs == [] then [] else [xs[|xs| - 1]] + Reversed(xs[..|xs| - 1])
  }

  // ---------------------------------------------------------------------
  // Python slicing: bounds past either end are clamped, negative bounds count from the end

  function SliceBound(i: int, len: nat): (b: nat)
    ensures b <= len
    ensures 0 <= i <= len ==> b == i
  {
    if i < 0 then (if len + i < 0 then 0 else len + i)
    else if i > len then len
    else i
  }

  /** Python's prefix slice up to i, with i clamped as SliceBound says. */
  function PrefixTo(s: string, i: int): (r: string)
    ensures 0 <= i <= |s| ==> r == s[..i]
  {
    s[..SliceBound(i, |s|)]
  }

  /** Python's suffix slice from i, with i clamped as SliceBound says. */
  function SuffixFrom(s: string, i: int): (r: string)
    ensures 0 <= i <= |s| ==> r == s[i..]
  {
    s[SliceBound(i, |s|)..]
  }

  // ---------------------------------------------------------------------
  // Decimal numbers: `'%d' % n`, `str(n)` and `int(s)`

  predicate IsDigit(c: char)
  {
    '0' <= c <= '9'
  }

  function DigitChar(d: nat): (c: char)
    requires d < 10
    ensures IsDigit(c)
  {
    ('0' as int + d) as char
  }

  /** `str(n)` for a non-negative integer. */
  function NatToString(n: nat): (r: string)
    ensures |r| > 0
    ensures forall i :: 0 <= i < |r| ==> IsDigit(r[i])
  {
    if n < 10 then [DigitChar(n)] else NatToString(n / 10) + [DigitChar(n % 10)]
  }

  /** The value of a non-empty run of decimal digits. */
  function DigitsValue(s: string): (v: nat)
    requires forall i :: 0 <= i < |s| ==> IsDigit(s[i])
  {
    if s == [] then 0
    else
      assert IsDigit(s[|s| - 1]);
      DigitsValue(s[..|s| - 1]) * 10 + (s[|s| - 1] as int - '0' as int)
  }

  /** `int(s)`: an optional sign followed by at least one digit. */
  function ParseInt(s: string): (r: Option<int>)
    ensures r.Some? ==> |s| > 0
  {
    if |s| > 1 && (s[0] == '-' || s[0] == '+') && forall i :: 1 <= i < |s| ==> IsDigit(s[i]) then
      var v: int := DigitsValue(s[1..]);
      var signed: int := if s[0] == '-' then -v else v;
      Some(signed)
    else if |s| > 0 && forall i :: 0 <= i < |s| ==> IsDigit(s[i]) then
      Some(DigitsValue(s))
    else None
  }

  /** Reading back a printed number gives the number. */
  lemma {:induction false} DigitsRoundTrip(n: nat)
    ensures DigitsValue(NatToString(n)) == n
  {
    if n >= 10 {
      DigitsRoundTrip(n / 10);
      var s := NatToString(n);
      assert s[..|s| - 1] == NatToString(n / 10);
    }
  }

  lemma ParseIntRoundTrip(n: nat)
    ensures ParseInt(NatToString(n)) == Some(n)
  {
    DigitsRoundTrip(n);
  }

  /** `'%d' % n` for any integer. */
  function IntToString(n: int): string
  {
    if n < 0 then "-" + NatToString(-n) else NatToString(n)
  }

  /** `int('%d' % n) == n`. */
  lemma IntToStringRoundTrip(n: int)
    ensures ParseInt(IntToString(n)) == Some(n)
  {
    if n < 0 {
      var s := IntToString(n);
      assert s[1..] == NatToString(-n);
      DigitsRoundTrip(-n);
    } else {
      ParseIntRoundTrip(n);
    }
  }

  /** `string.letters` in the C locale: "a" to "z", then "A" to "Z". */
  const Letters: string :=
    seq(52, i requires 0 <= i < 52 => if i < 26 then ('a' as int + i) as char else ('A' as int + i - 26) as char)

  predicate IsLetter(c: char)
  {
    ('a' <= c <= 'z') || ('A' <= c <= 'Z')
  }
}
