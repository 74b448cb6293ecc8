/** String operations of Python's `str` that the core relies on: whitespace,
    `strip`, `join`, `lower`, `str(int)` and `replace` of the literal two-character
    sequence backslash-n. Strings are sequences of Unicode scalar values, as
    Python's `str` is a sequence of code points. */
module Text {

  /** The characters for which Python's `str.isspace()` holds; `\s` in a `re`
      pattern over `str` and the no-argument `strip()` use the same set. */
  const Whitespace: set<char> := set c: char |
    || '\t' <= c <= '\r' || '\U{1C}' <= c <= ' ' || c == '\U{85}' || c == '\U{A0}' || c == '\U{1680}'
    || '\U{2000}' <= c <= '\U{200A}' || c == '\U{2028}' || c == '\U{2029}' || c == '\U{202F}'
    || c == '\U{205F}' || c == '\U{3000}'

  predicate IsSpace(c: char) {
    c in Whitespace
  }

  /** Every character of `s` is in `cs`. */
  predicate AllIn(s: string, cs: set<char>) {
    forall i :: 0 <= i < |s| ==> s[i] in cs
  }

  /** `s.isspace() or s == ""`: every character is whitespace. */
  predicate IsBlank(s: string) {
    AllIn(s, Whitespace)
  }

  /** `[x for x in xs if x.strip()]`: the texts that are not blank, in order. */
  function NonBlank(xs: seq<string>): (r: seq<string>)
    ensures |r| <= |xs|
    ensures forall x :: x in r ==> x in xs && !IsBlank(x)
    ensures forall x :: x in xs && !IsBlank(x) ==> x in r
  {
    if xs == [] then [] else NonBlank(xs[..|xs| - 1]) + Kept(xs[|xs| - 1])
  }

  /** The one-text filter step: `x` alone when it is not blank, else nothing. */
  function Kept(x: string): (r: seq<string>)
    ensures r == [] <==> IsBlank(x)
    ensures r != [] ==> r == [x]
  {
    if IsBlank(x) then [] else [x]
  }

  /** A single text is kept exactly when it is not blank. */
  lemma NonBlankOne(x: string)
    ensures NonBlank([x]) == if IsBlank(x) then [] else [x]
  {
    assert [x][..0] == [];
  }

  /** `NonBlank` is a filter: it distributes over concatenation, so order
      and repeats are kept. */
  lemma {:induction false} NonBlankAppend(a: seq<string>, b: seq<string>)
    ensures NonBlank(a + b) == NonBlank(a) + NonBlank(b)
    decreases |b|
  {
    if b == [] {
      assert a + b == a;
    } else {
      NonBlankAppend(a, b[..|b| - 1]);
      LastSplit(a, b);
      AppendAssoc(NonBlank(a), NonBlank(b[..|b| - 1]), Kept(b[|b| - 1]));
    }
  }

  /** Concatenation groups either way. */
  lemma AppendAssoc<T>(x: seq<T>, y: seq<T>, z: seq<T>)
    ensures x + y + z == x + (y + z)
  {
  }

  /** The last element of `a + b` and what comes before it, for a non-empty `b`. */
  lemma LastSplit<T>(a: seq<T>, b: seq<T>)
    requires b != []
    ensures (a + b)[..|a + b| - 1] == a + b[..|b| - 1]
    ensures (a + b)[|a + b| - 1] == b[|b| - 1]
  {
  }

  /** One step from the front: the head is kept exactly when it is not
      blank, ahead of the kept tail. */
  lemma NonBlankCons(x: string, t: seq<string>)
    ensures NonBlank([x] + t) == (if IsBlank(x) then [] else [x]) + NonBlank(t)
  {
    NonBlankAppend([x], t);
    NonBlankOne(x);
  }

  /** Number of leading characters of `s` that are in `cs`. */
  function LeftCut(s: string, cs: set<char>): (k: nat)
    ensures k <= |s|
    ensures forall i :: 0 <= i < k ==> s[i] in cs
    ensures k < |s| ==> s[k] !in cs
  {
    if s == [] || s[0] !in cs then 0 else 1 + LeftCut(s[1..], cs)
  }

  /** Index just past the last character of `s` that is not in `cs` (0 if none). */
  function RightCut(s: string, cs: set<char>): (k: nat)
    ensures k <= |s|
    ensures forall i :: k <= i < |s| ==> s[i] in cs
    ensures k > 0 ==> s[k - 1] !in cs
  {
    if s == [] || s[|s| - 1] !in cs then |s| else RightCut(s[..|s| - 1], cs)
  }

  /** Python's `s.strip(chars)`: drop the longest prefix and suffix made of
      characters in `cs`. The result is the slice of `s` that starts at the first
      character outside `cs` and ends at the last one. */
  function StripChars(s: string, cs: set<char>): (r: string)
    ensures |r| <= |s|
    ensures LeftCut(s, cs) + |r| <= |s|
    ensures r == s[LeftCut(s, cs)..LeftCut(s, cs) + |r|]
    ensures r == [] <==> AllIn(s, cs)
    ensures r != [] ==> r[0] !in cs && r[|r| - 1] !in cs
    ensures forall i :: 0 <= i < LeftCut(s, cs) ==> s[i] in cs
    ensures forall i :: LeftCut(s, cs) + |r| <= i < |s| ==> s[i] in cs
  {
    var a := LeftCut(s, cs);
    if a == |s| then [] else s[a..RightCut(s, cs)]
  }

  /** Python's `s.strip()`. */
  function Strip(s: string): (r: string)
    ensures |r| <= |s|
    ensures r == [] <==> IsBlank(s)
    ensures r != [] ==> !IsSpace(r[0]) && !IsSpace(r[|r| - 1])
  {
    StripChars(s, Whitespace)
  }

  /** Stripping a string whose ends are not whitespace leaves it as it is. */
  lemma StripUnchanged(s: string)
    requires s == [] || (!IsSpace(s[0]) && !IsSpace(s[|s| - 1]))
    ensures Strip(s) == s
  {
    if s != [] {
      assert LeftCut(s, Whitespace) == 0;
      assert RightCut(s, Whitespace) == |s|;
    }
  }

  /** `strip()` is idempotent. */
  lemma StripIdempotent(s: string)
    ensures Strip(Strip(s)) == Strip(s)
  {
    StripUnchanged(Strip(s));
  }

  /** The characters of `s` that are not in `cs`, in order. */
  function Without(s: string, cs: set<char>): string {
    if s == [] then [] else (if s[0] in cs then [] else [s[0]]) + Without(s[1..], cs)
  }

  /** The non-whitespace characters of `s`, in order. */
  function NonSpace(s: string): string {
    Without(s, Whitespace)
  }

  lemma {:induction false} WithoutAppend(a: string, b: string, cs: set<char>)
    ensures Without(a + b, cs) == Without(a, cs) + Without(b, cs)
  {
    if a == [] {
      assert a + b == b;
    } else {
      var h := if a[0] in cs then [] else [a[0]];
      assert (a + b)[0] == a[0] && (a + b)[1..] == a[1..] + b;
      assert Without(a + b, cs) == h + Without(a[1..] + b, cs);
      WithoutAppend(a[1..], b, cs);
      assert Without(a, cs) == h + Without(a[1..], cs);
    }
  }

  /** Nothing is left exactly when every character is in `cs`. */
  lemma {:induction false} WithoutEmpty(s: string, cs: set<char>)
    ensures Without(s, cs) == [] <==> AllIn(s, cs)
  {
    if s != [] {
      WithoutEmpty(s[1..], cs);
      if AllIn(s, cs) {
        assert AllIn(s[1..], cs) by {
          forall i | 0 <= i < |s| - 1 ensures s[1..][i] in cs {
            assert s[1..][i] == s[i + 1];
          }
        }
      }
      if Without(s, cs) == [] {
        forall i | 0 < i < |s| ensures s[i] in cs {
          assert s[i] == s[1..][i - 1];
        }
      }
    }
  }

  /** `strip(cs)` cuts a string into a prefix in `cs`, the result and a suffix
      in `cs`. */
  lemma StripCharsParts(s: string, cs: set<char>)
    ensures var a := LeftCut(s, cs);
            var r := StripChars(s, cs);
            && a + |r| <= |s|
            && s == s[..a] + r + s[a + |r|..]
            && AllIn(s[..a], cs) && AllIn(s[a + |r|..], cs)
  {
    var a := LeftCut(s, cs);
    var b := a + |StripChars(s, cs)|;
    ThreeSlices(s, a, b);
    PrefixAllIn(s, a, cs);
    SuffixAllIn(s, b, cs);
  }

  /** A string is its three slices at `a` and `b`, in order. */
  lemma ThreeSlices(s: string, a: nat, b: nat)
    requires a <= b <= |s|
    ensures s == s[..a] + s[a..b] + s[b..]
  {
    assert s[..b] == s[..a] + s[a..b];
    assert s == s[..b] + s[b..];
  }

  lemma PrefixAllIn(s: string, a: nat, cs: set<char>)
    requires a <= |s| && forall i :: 0 <= i < a ==> s[i] in cs
    ensures AllIn(s[..a], cs)
  {
    forall i | 0 <= i < a ensures s[..a][i] in cs {
      assert s[..a][i] == s[i];
    }
  }

  lemma SuffixAllIn(s: string, b: nat, cs: set<char>)
    requires b <= |s| && forall i :: b <= i < |s| ==> s[i] in cs
    ensures AllIn(s[b..], cs)
  {
    forall i | 0 <= i < |s| - b ensures s[b..][i] in cs {
      assert s[b..][i] == s[b + i];
    }
  }

  /** Stripping `cs` removes characters of `cs` only. */
  lemma WithoutStripChars(s: string, cs: set<char>)
    ensures Without(StripChars(s, cs), cs) == Without(s, cs)
  {
    var r := StripChars(s, cs);
    var a := LeftCut(s, cs);
    var b := a + |r|;
    StripCharsParts(s, cs);
    calc {
      Without(s, cs);
      Without(s[..a] + r + s[b..], cs);
      { WithoutAppend(s[..a] + r, s[b..], cs); WithoutAppend(s[..a], r, cs); }
      Without(s[..a], cs) + Without(r, cs) + Without(s[b..], cs);
      { WithoutEmpty(s[..a], cs); WithoutEmpty(s[b..], cs); }
      Without(r, cs);
    }
  }

  /** Stripping removes whitespace only. */
  lemma NonSpaceStrip(s: string)
    ensures NonSpace(Strip(s)) == NonSpace(s)
  {
    WithoutStripChars(s, Whitespace);
  }

  /** `strip(cs)` keeps a piece of `s`: its result starts where the leading
      characters in `cs` end. */
  lemma StripCharsPrefix(s: string, cs: set<char>)
    ensures LeftCut(s, cs) <= |s| && StripChars(s, cs) <= s[LeftCut(s, cs)..]
  {
    var a := LeftCut(s, cs);
    var r := StripChars(s, cs);
    assert r == s[a..a + |r|];
    assert s[a..a + |r|] == s[a..][..|r|];
  }

  /** A prefix of a piece of a piece of `s` is a prefix of a piece of `s`. */
  lemma PrefixOfSuffix(r: string, t: string, s: string, b: nat, c: nat)
    requires b <= |s| && c <= |t| && t <= s[b..] && r <= t[c..]
    ensures b + c <= |s| && r <= s[b + c..]
  {
    forall i | 0 <= i < |r| ensures r[i] == s[b + c + i] {
      assert r[i] == t[c + i] == s[b + c + i];
    }
  }

  /** A concatenation splits back into its two parts. */
  lemma SuffixOfConcat(x: string, y: string)
    ensures (x + y)[..|x|] == x && (x + y)[|x|..] == y
  {
  }

  /** A string whose tail from `d` on is `w` ends with whatever `w` ends with. */
  lemma EndsWith(p: string, d: nat, w: string, y: string)
    requires d <= |p| && p[d..] == w
    requires |w| >= |y| && w[|w| - |y|..] == y
    ensures |p| >= |y| && p[|p| - |y|..] == y
  {
    assert p[|p| - |y|..] == w[|w| - |y|..];
  }

  /** A concatenation ends with whatever its last part ends with. */
  lemma ConcatEndsWith(ss: seq<string>, y: string)
    requires ss != [] && |ss[|ss| - 1]| >= |y| && ss[|ss| - 1][|ss[|ss| - 1]| - |y|..] == y
    ensures |Concat(ss)| >= |y| && Concat(ss)[|Concat(ss)| - |y|..] == y
  {
    var init := Concat(ss[..|ss| - 1]);
    SuffixOfConcat(init, ss[|ss| - 1]);
    EndsWith(Concat(ss), |init|, ss[|ss| - 1], y);
  }

  /** A concatenation of five strings splits back into its parts, at the
      running sums of their lengths. */
  lemma FiveParts(a: string, b: string, c: string, d: string, e: string)
    ensures var p := a + b + c + d + e;
            var i := |a|;
            var j := i + |b|;
            var k := j + |c|;
            var l := k + |d|;
            && |p| == l + |e|
            && p[..i] == a && p[i..j] == b && p[j..k] == c && p[k..l] == d && p[l..] == e
  {
    var p := a + b + c + d + e;
    SuffixOfConcat(a + b + c + d, e);
    SuffixOfConcat(a + b + c, d);
    SuffixOfConcat(a + b, c);
    SuffixOfConcat(a, b);
    assert p[..|a + b + c + d|] == a + b + c + d;
  }

  /** Python's `sep.join(parts)`. */
  function Join(sep: string, parts: seq<string>): string
    decreases |parts|
  {
    if parts == [] then ""
    else if |parts| == 1 then parts[0]
    else parts[0] + sep + Join(sep, parts[1..])
  }

  /** Sum of the lengths of `parts` (the separators of a join not counted). */
  function TotalLength(parts: seq<string>): nat {
    if parts == [] then 0 else TotalLength(parts[..|parts| - 1]) + |parts[|parts| - 1]|
  }

  lemma {:induction false} TotalLengthAppend(a: seq<string>, b: seq<string>)
    ensures TotalLength(a + b) == TotalLength(a) + TotalLength(b)
    decreases |b|
  {
    if b == [] {
      assert a + b == a;
    } else {
      assert (a + b)[..|a + b| - 1] == a + b[..|b| - 1];
      TotalLengthAppend(a, b[..|b| - 1]);
    }
  }

  /** A join is as long as its parts plus one separator between each two. */
  lemma {:induction false} JoinLength(sep: string, parts: seq<string>)
    requires parts != []
    ensures |Join(sep, parts)| == TotalLength(parts) + (|parts| - 1) * |sep|
    decreases |parts|
  {
    if |parts| == 1 {
      assert TotalLength(parts) == TotalLength([]) + |parts[0]|;
    } else {
      var rest := parts[1..];
      JoinLength(sep, rest);
      assert parts == [parts[0]] + rest;
      TotalLengthAppend([parts[0]], rest);
      assert TotalLength([parts[0]]) == TotalLength([]) + |parts[0]|;
      assert (|parts| - 1) * |sep| == (|rest| - 1) * |sep| + |sep| by {
        assert |parts| - 1 == (|rest| - 1) + 1;
      }
    }
  }

  /** The concatenation of a sequence of sequences. */
  function Concat<T>(ss: seq<seq<T>>): seq<T> {
    if ss == [] then [] else Concat(ss[..|ss| - 1]) + ss[|ss| - 1]
  }

  lemma {:induction false} ConcatAppend<T>(a: seq<seq<T>>, b: seq<seq<T>>)
    ensures Concat(a + b) == Concat(a) + Concat(b)
    decreases |b|
  {
    if b == [] {
      assert a + b == a;
    } else {
      LastSplit(a, b);
      ConcatAppend(a, b[..|b| - 1]);
      AppendAssoc(Concat(a), Concat(b[..|b| - 1]), b[|b| - 1]);
    }
  }

  /** Concatenating a list of parts one more part at a time. */
  lemma ConcatSnoc<T>(ss: seq<seq<T>>, x: seq<T>)
    ensures Concat(ss + [x]) == Concat(ss) + x
  {
    assert (ss + [x])[..|ss|] == ss;
  }

  /** Five parts concatenated in order. */
  lemma ConcatFive<T>(a: seq<T>, b: seq<T>, c: seq<T>, d: seq<T>, e: seq<T>)
    ensures Concat([a, b, c, d, e]) == a + b + c + d + e
  {
    ConcatSnoc([], a);
    assert [] + [a] == [a];
    ConcatSnoc([a], b);
    assert [a] + [b] == [a, b];
    ConcatSnoc([a, b], c);
    assert [a, b] + [c] == [a, b, c];
    ConcatSnoc([a, b, c], d);
    assert [a, b, c] + [d] == [a, b, c, d];
    ConcatSnoc([a, b, c, d], e);
    assert [a, b, c, d] + [e] == [a, b, c, d, e];
  }

  /** `Concat` of five strings splits back into its parts, at the running
      sums of their lengths. */
  lemma ConcatFiveParts(a: string, b: string, c: string, d: string, e: string)
    ensures var p := Concat([a, b, c, d, e]);
            var i := |a|;
            var j := i + |b|;
            var k := j + |c|;
            var l := k + |d|;
            && |p| == l + |e|
            && p[..i] == a && p[i..j] == b && p[j..k] == c && p[k..l] == d && p[l..] == e
  {
    ConcatFive(a, b, c, d, e);
    FiveParts(a, b, c, d, e);
  }

  /** Seven parts concatenated in order. */
  lemma ConcatSeven<T>(a: seq<T>, b: seq<T>, c: seq<T>, d: seq<T>, e: seq<T>, f: seq<T>, g: seq<T>)
    ensures Concat([a, b, c, d, e, f, g]) == a + b + c + d + e + f + g
  {
    ConcatFive(a, b, c, d, e);
    ConcatSnoc([a, b, c, d, e], f);
    assert [a, b, c, d, e] + [f] == [a, b, c, d, e, f];
    ConcatSnoc([a, b, c, d, e, f], g);
    assert [a, b, c, d, e, f] + [g] == [a, b, c, d, e, f, g];
  }

  /** ASCII upper-case letters to lower case, everything else unchanged. */
  function LowerChar(c: char): char {
    if 'A' <= c <= 'Z' then (c as int + 32) as char else c
  }

  /** `s.lower()` over the ASCII letters. */
  function Lower(s: string): (r: string)
    ensures |r| == |s|
  {
    seq(|s|, i requires 0 <= i < |s| => LowerChar(s[i]))
  }

  /** Lower-casing moves no dot. */
  lemma LowerKeepsDots(s: string, i: nat)
    requires i < |s|
    ensures (Lower(s)[i] == '.') <==> (s[i] == '.')
  {
  }

  function DigitChar(d: nat): char
    requires d < 10
  {
    ('0' as int + d) as char
  }

  /** `str(n)` for a natural number: decimal digits, no leading zero. */
  function NatToString(n: nat): (r: string)
    ensures r != []
    ensures forall i :: 0 <= i < |r| ==> '0' <= r[i] <= '9'
    ensures |r| > 1 ==> r[0] != '0'
  {
    if n < 10 then [DigitChar(n)] else NatToString(n / 10) + [DigitChar(n % 10)]
  }

  /** The value of a string of decimal digits. */
  function DecimalValue(s: string): nat
    requires forall i :: 0 <= i < |s| ==> '0' <= s[i] <= '9'
  {
    if s == [] then 0
    else DecimalValue(s[..|s| - 1]) * 10 + (s[|s| - 1] as int - '0' as int)
  }

  /** Reading back the printed digits gives the number. */
  lemma {:induction false} NatToStringRoundTrip(n: nat)
    ensures DecimalValue(NatToString(n)) == n
  {
    if n >= 10 {
      NatToStringRoundTrip(n / 10);
      var r := NatToString(n);
      assert r[..|r| - 1] == NatToString(n / 10);
    }
  }

  /** Different numbers print differently. */
  lemma NatToStringInjective(m: nat, n: nat)
    requires NatToString(m) == NatToString(n)
    ensures m == n
  {
    NatToStringRoundTrip(m);
    NatToStringRoundTrip(n);
  }

  /** `str(i)` for any integer. */
  function IntToString(i: int): (r: string)
    ensures r != []
    ensures (r[0] == '-') <==> i < 0
  {
    if i < 0 then "-" + NatToString(-i) else NatToString(i)
  }

  /** True when `s` contains the two characters backslash and `n` side by side. */
  predicate HasEscapedNewline(s: string) {
    exists i :: 0 <= i < |s| - 1 && s[i] == '\\' && s[i + 1] == 'n'
  }

  /** Python's `s.replace("\\n", "\n")`: every non-overlapping occurrence of the
      two characters backslash, `n` (scanning from the left) becomes one line
      break. */
  function ReplaceEscapedNewlines(s: string): string
    decreases |s|
  {
    if |s| >= 2 && s[0] == '\\' && s[1] == 'n' then ['\n'] + ReplaceEscapedNewlines(s[2..])
    else if s == [] then []
    else [s[0]] + ReplaceEscapedNewlines(s[1..])
  }

  /** The replacement leaves no backslash-n pair behind. The first character of
      a replaced remainder is never `n` unless it was `n` already and not part of
      a pair. */
  lemma {:induction false} ReplaceRemovesAll(s: string)
    ensures !HasEscapedNewline(ReplaceEscapedNewlines(s))
    ensures ReplaceEscapedNewlines(s) != [] && ReplaceEscapedNewlines(s)[0] == 'n' ==> s[0] == 'n'
    decreases |s|
  {
    var r := ReplaceEscapedNewlines(s);
    if |s| >= 2 && s[0] == '\\' && s[1] == 'n' {
      ReplaceRemovesAll(s[2..]);
      var t := ReplaceEscapedNewlines(s[2..]);
      assert r == ['\n'] + t;
      forall i | 0 <= i < |r| - 1 ensures !(r[i] == '\\' && r[i + 1] == 'n') {
        if i > 0 {
          assert r[i] == t[i - 1] && r[i + 1] == t[i];
        }
      }
    } else if s != [] {
      ReplaceRemovesAll(s[1..]);
      var t := ReplaceEscapedNewlines(s[1..]);
      assert r == [s[0]] + t;
      forall i | 0 <= i < |r| - 1 ensures !(r[i] == '\\' && r[i + 1] == 'n') {
        if i > 0 {
          assert r[i] == t[i - 1] && r[i + 1] == t[i];
        }
      }
    }
  }

  /** A string without a backslash-n pair is left unchanged. */
  lemma {:induction false} ReplaceNoOp(s: string)
    requires !HasEscapedNewline(s)
    ensures ReplaceEscapedNewlines(s) == s
    decreases |s|
  {
    if s != [] {
      assert !(|s| >= 2 && s[0] == '\\' && s[1] == 'n');
      assert !HasEscapedNewline(s[1..]) by {
        forall i | 0 <= i < |s[1..]| - 1 ensures !(s[1..][i] == '\\' && s[1..][i + 1] == 'n') {
          assert s[1..][i] == s[i + 1] && s[1..][i + 1] == s[i + 2];
        }
      }
      ReplaceNoOp(s[1..]);
    }
  }

  /** A slice of a string without a backslash-n pair has none either. */
  lemma SliceKeepsNoEscapes(s: string, a: nat, b: nat)
    requires a <= b <= |s|
    requires !HasEscapedNewline(s)
    ensures !HasEscapedNewline(s[a..b])
  {
    var t := s[a..b];
    forall i | 0 <= i < |t| - 1 ensures !(t[i] == '\\' && t[i + 1] == 'n') {
      assert t[i] == s[a + i] && t[i + 1] == s[a + i + 1];
    }
  }

  /** Stripping any set of characters keeps a string free of backslash-n
      pairs. */
  lemma StripCharsKeepsNoEscapes(s: string, cs: set<char>)
    requires !HasEscapedNewline(s)
    ensures !HasEscapedNewline(StripChars(s, cs))
  {
    var r := StripChars(s, cs);
    var a := LeftCut(s, cs);
    SliceKeepsNoEscapes(s, a, a + |r|);
  }
}
