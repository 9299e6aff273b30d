/** JavaScript string operations used by the exporters and editors:
    `join`, `split` on one character, `trim`, `lastIndexOf`, `indexOf`,
    ASCII lower-casing and decimal rendering of integers. */
module Strings {
  import opened Js

  /** `xs.join(sep)`. */
  function Join(xs: seq<string>, sep: string): string
    decreases |xs|
  {
    if |xs| == 0 then ""
    else if |xs| == 1 then xs[0]
    else xs[0] + sep + Join(xs[1..], sep)
  }

  /** The non-empty strings of `xs`, in order (`filter(Boolean)` on strings). */
  function NonEmpty(xs: seq<string>): (r: seq<string>)
    ensures |r| <= |xs|
    ensures forall i :: 0 <= i < |r| ==> r[i] != ""
    ensures forall x :: x in r <==> x in xs && x != ""
    decreases |xs|
  {
    if |xs| == 0 then []
    else if xs[0] == "" then NonEmpty(xs[1..])
    else [xs[0]] + NonEmpty(xs[1..])
  }

  /** `[a, b, ...].filter(Boolean).join(sep)`: the composite-line rule. */
  function JoinPresent(parts: seq<string>, sep: string): string {
    Join(NonEmpty(parts), sep)
  }

  lemma {:induction false} JoinEmptyIffAllEmpty(xs: seq<string>, sep: string)
    requires forall i :: 0 <= i < |xs| ==> xs[i] != ""
    ensures Join(xs, sep) == "" <==> xs == []
    decreases |xs|
  {
    if |xs| >= 2 {
      assert |Join(xs, sep)| >= |xs[0]|;
    }
  }

  /** A composite line is empty exactly when every one of its parts is empty. */
  lemma JoinPresentEmpty(parts: seq<string>, sep: string)
    ensures JoinPresent(parts, sep) == "" <==> forall i :: 0 <= i < |parts| ==> parts[i] == ""
  {
    JoinEmptyIffAllEmpty(NonEmpty(parts), sep);
    if NonEmpty(parts) == [] {
      forall i | 0 <= i < |parts| ensures parts[i] == "" {
        assert parts[i] in parts;
      }
    } else {
      assert NonEmpty(parts)[0] in NonEmpty(parts);
    }
  }

  /** The two-part composite line: a missing part drops out together with its separator. */
  lemma JoinPresent2(a: string, b: string, sep: string)
    ensures JoinPresent([a, b], sep) == if a == "" then b else if b == "" then a else a + sep + b
  {
    assert [a, b][1..] == [b];
    assert [b][1..] == [];
    assert NonEmpty([b]) == if b == "" then [] else [b];
    if a != "" {
      assert NonEmpty([a, b]) == [a] + NonEmpty([b]);
      if b != "" {
        assert NonEmpty([a, b]) == [a, b];
        assert Join([a, b], sep) == a + sep + Join([b], sep);
      }
    }
  }

  /** The three-part composite line. */
  lemma JoinPresent3(a: string, b: string, c: string, sep: string)
    ensures JoinPresent([a, b, c], sep) == JoinPresent([a, JoinPresent([b, c], sep)], sep)
  {
    var rest := NonEmpty([b, c]);
    assert [a, b, c][1..] == [b, c];
    assert NonEmpty([a, b, c]) == (if a == "" then [] else [a]) + rest;
    JoinPresent2(b, c, sep);
    assert [b, c][1..] == [c] && [c][1..] == [];
    assert rest == [] <==> b == "" && c == "";
    JoinPresent2(a, JoinPresent([b, c], sep), sep);
    if a != "" && rest != [] {
      JoinCons(a, rest, sep);
    }
  }

  /** `s.split(c)` for a one-character separator. */
  function Split(s: string, c: char): (r: seq<string>)
    ensures |r| >= 1
    decreases |s|
  {
    if s == [] then [""]
    else if s[0] == c then [""] + Split(s[1..], c)
    else
      var rest := Split(s[1..], c);
      [[s[0]] + rest[0]] + rest[1..]
  }

  /** No piece produced by `split(c)` contains `c`. */
  lemma {:induction false} SplitPiecesFree(s: string, c: char)
    ensures forall i :: 0 <= i < |Split(s, c)| ==> c !in Split(s, c)[i]
    decreases |s|
  {
    if s != [] {
      SplitPiecesFree(s[1..], c);
    }
  }

  /** Joining the pieces with the separator gives back the string. */
  lemma {:induction false} JoinSplit(s: string, c: char)
    ensures Join(Split(s, c), [c]) == s
    decreases |s|
  {
    if s != [] {
      JoinSplit(s[1..], c);
      var rest := Split(s[1..], c);
      if s[0] == c {
        assert Split(s, c) == [""] + rest;
        JoinCons("", rest, [c]);
      } else {
        JoinHead([s[0]], rest, [c]);
      }
    }
  }

  lemma JoinCons(x: string, xs: seq<string>, sep: string)
    requires |xs| >= 1
    ensures Join([x] + xs, sep) == x + sep + Join(xs, sep)
  {
    assert ([x] + xs)[1..] == xs;
  }

  /** Prefixing the first piece prefixes the joined string. */
  lemma JoinHead(p: string, xs: seq<string>, sep: string)
    requires |xs| >= 1
    ensures Join([p + xs[0]] + xs[1..], sep) == p + Join(xs, sep)
  {
    var ys := [p + xs[0]] + xs[1..];
    if |xs| == 1 {
      assert ys == [p + xs[0]];
    } else {
      assert ys[1..] == xs[1..];
    }
  }

  /** Splitting at a separator character that the left part does not contain. */
  lemma {:induction false} SplitAppend(a: string, c: char, b: string)
    requires c !in a
    ensures Split(a + [c] + b, c) == [a] + Split(b, c)
    decreases |a|
  {
    if a == [] {
      assert a + [c] + b == [c] + b;
      assert ([c] + b)[1..] == b;
    } else {
      assert (a + [c] + b)[0] == a[0];
      assert (a + [c] + b)[1..] == a[1..] + [c] + b;
      SplitAppend(a[1..], c, b);
      assert [a[0]] + a[1..] == a;
    }
  }

  /** Splitting a string that does not contain the separator gives one piece. */
  lemma {:induction false} SplitNoSeparator(s: string, c: char)
    requires c !in s
    ensures Split(s, c) == [s]
    decreases |s|
  {
    if s != [] {
      SplitNoSeparator(s[1..], c);
      assert [s[0]] + s[1..] == s;
    }
  }

  /** The whitespace and line terminators that `String.prototype.trim` removes:
      TAB, VT, FF, SPACE, NBSP, ZWNBSP, every space separator (Zs), LF, CR, LS, PS. */
  predicate IsWhitespace(c: char) {
    var n := c as int;
    n == 0x09 || n == 0x0A || n == 0x0B || n == 0x0C || n == 0x0D || n == 0x20 ||
    n == 0xA0 || n == 0x1680 || (0x2000 <= n <= 0x200A) || n == 0x2028 || n == 0x2029 ||
    n == 0x202F || n == 0x205F || n == 0x3000 || n == 0xFEFF
  }

  function TrimStart(s: string): string
    decreases |s|
  {
    if s != [] && IsWhitespace(s[0]) then TrimStart(s[1..]) else s
  }

  function TrimEnd(s: string): string
    decreases |s|
  {
    if s != [] && IsWhitespace(s[|s| - 1]) then TrimEnd(s[..|s| - 1]) else s
  }

  /** `s.trim()`. */
  function Trim(s: string): string {
    TrimEnd(TrimStart(s))
  }

  /** A string that neither starts nor ends with whitespace. */
  predicate Trimmed(s: string) {
    s == [] || (!IsWhitespace(s[0]) && !IsWhitespace(s[|s| - 1]))
  }

  predicate AllWhitespace(s: string) {
    forall i :: 0 <= i < |s| ==> IsWhitespace(s[i])
  }

  lemma {:induction false} TrimStartProps(s: string)
    ensures |TrimStart(s)| <= |s|
    ensures TrimStart(s) == s[|s| - |TrimStart(s)|..]
    ensures AllWhitespace(s[..|s| - |TrimStart(s)|])
    ensures TrimStart(s) != [] ==> !IsWhitespace(TrimStart(s)[0])
    decreases |s|
  {
    if s != [] && IsWhitespace(s[0]) {
      TrimStartProps(s[1..]);
      var k := |s| - |TrimStart(s)|;
      assert s[1..][|s| - 1 - |TrimStart(s)|..] == s[k..];
      forall i | 0 <= i < k ensures IsWhitespace(s[..k][i]) {
        if i > 0 {
          assert s[..k][i] == s[1..][..k - 1][i - 1];
        }
      }
    }
  }

  lemma {:induction false} TrimEndProps(s: string)
    ensures |TrimEnd(s)| <= |s|
    ensures TrimEnd(s) == s[..|TrimEnd(s)|]
    ensures AllWhitespace(s[|TrimEnd(s)|..])
    ensures TrimEnd(s) != [] ==> !IsWhitespace(TrimEnd(s)[|TrimEnd(s)| - 1])
    decreases |s|
  {
    if s != [] && IsWhitespace(s[|s| - 1]) {
      var p := s[..|s| - 1];
      TrimEndProps(p);
      var k := |TrimEnd(s)|;
      assert p[..k] == s[..k];
      forall i | k <= i < |s| ensures IsWhitespace(s[i]) {
        if i < |s| - 1 {
          assert s[i] == p[k..][i - k];
        }
      }
    }
  }

  lemma {:induction false} TrimStartEmpty(s: string)
    ensures TrimStart(s) == "" <==> AllWhitespace(s)
    decreases |s|
  {
    if s != [] {
      TrimStartEmpty(s[1..]);
      assert AllWhitespace(s) <==> IsWhitespace(s[0]) && AllWhitespace(s[1..]);
    }
  }

  lemma {:induction false} TrimEndEmpty(s: string)
    ensures TrimEnd(s) == "" <==> AllWhitespace(s)
    decreases |s|
  {
    if s != [] {
      var p := s[..|s| - 1];
      TrimEndEmpty(p);
      assert AllWhitespace(s) <==> AllWhitespace(p) && IsWhitespace(s[|s| - 1]);
    }
  }

  /** `s.trim()` is empty exactly when `s` is made of whitespace only. */
  lemma TrimEmptyIffBlank(s: string)
    ensures Trim(s) == "" <==> AllWhitespace(s)
  {
    TrimStartEmpty(s);
    TrimStartProps(s);
    TrimEndEmpty(TrimStart(s));
  }

  /** The result of `trim()` neither starts nor ends with whitespace. */
  lemma TrimIsTrimmed(s: string)
    ensures Trimmed(Trim(s))
  {
    TrimStartProps(s);
    var t := TrimStart(s);
    TrimEndProps(t);
    var r := TrimEnd(t);
    if r != [] {
      assert r == t[..|r|];
      assert r[0] == t[0];
    }
  }

  /** Trimming a trimmed string changes nothing. */
  lemma TrimOfTrimmed(s: string)
    requires Trimmed(s)
    ensures Trim(s) == s
  {
  }

  /** Trimming a leading space and a trimmed word gives the word. */
  lemma TrimSpacePrefix(x: string)
    requires Trimmed(x)
    ensures Trim(" " + x) == x
  {
    var s := " " + x;
    assert IsWhitespace(s[0]) && s[1..] == x;
    assert TrimStart(s) == TrimStart(x) == x;
    assert TrimEnd(x) == x;
  }

  /** `s.lastIndexOf(c)`: the index of the last `c`, or -1. */
  function LastIndexOf(s: string, c: char): (r: int)
    ensures -1 <= r < |s|
    ensures r >= 0 ==> s[r] == c
    ensures forall k :: r < k < |s| ==> s[k] != c
    decreases |s|
  {
    if s == [] then -1
    else if s[|s| - 1] == c then |s| - 1
    else LastIndexOf(s[..|s| - 1], c)
  }

  /** `s.indexOf(c)`: the index of the first `c`, or -1. */
  function IndexOf(s: string, c: char): (r: int)
    ensures -1 <= r < |s|
    ensures r >= 0 ==> s[r] == c
    ensures forall k :: 0 <= k < |s| && (r < 0 || k < r) ==> s[k] != c
    decreases |s|
  {
    if s == [] then -1
    else if s[0] == c then 0
    else var i := IndexOf(s[1..], c); if i < 0 then -1 else i + 1
  }

  /** The text after the last `c`, or the whole string when there is none. */
  function AfterLast(s: string, c: char): string {
    s[LastIndexOf(s, c) + 1..]
  }

  /** `s.split(c).pop()` is the text after the last `c` (the whole string when there is none). */
  lemma {:induction false} LastPieceIsAfterLast(s: string, c: char)
    ensures Split(s, c)[|Split(s, c)| - 1] == AfterLast(s, c)
    decreases |s|
  {
    var i := LastIndexOf(s, c);
    if i < 0 {
      assert c !in s;
      SplitNoSeparator(s, c);
    } else {
      var a, b := s[..i], s[i + 1..];
      assert s == a + [c] + b;
      assert c !in b;
      var j := LastIndexOf(a, c);
      // a c-free left part is split off whole, so split the last separator off recursively
      LastSplitLemma(a, c, b);
      SplitNoSeparator(b, c);
    }
  }

  /** The last piece of `split` on `a + c + b` with `c` not in `b` is `b`. */
  lemma {:induction false} LastSplitLemma(a: string, c: char, b: string)
    requires c !in b
    ensures Split(a + [c] + b, c)[|Split(a + [c] + b, c)| - 1] == b
    decreases |a|
  {
    if a == [] {
      assert a + [c] + b == [c] + b;
      assert ([c] + b)[1..] == b;
      SplitNoSeparator(b, c);
    } else {
      var s := a + [c] + b;
      assert s[0] == a[0];
      assert s[1..] == a[1..] + [c] + b;
      LastSplitLemma(a[1..], c, b);
      // the rest still holds the separator, so it splits into at least two pieces
      assert s[1..][|a| - 1] == c;
      SplitCountsSeparator(s[1..], c);
    }
  }

  /** A string holding the separator splits into at least two pieces. */
  lemma {:induction false} SplitCountsSeparator(s: string, c: char)
    ensures c in s ==> |Split(s, c)| >= 2
    decreases |s|
  {
    if s != [] && s[0] != c {
      SplitCountsSeparator(s[1..], c);
      assert c in s ==> c in s[1..];
    }
  }

  /** ASCII `toLowerCase` (see README for why it suffices where it is used). */
  function ToLowerAscii(s: string): (r: string)
    ensures |r| == |s|
  {
    seq(|s|, i requires 0 <= i < |s| =>
      if 'A' <= s[i] <= 'Z' then (s[i] as int + 32) as char else s[i])
  }

  function DigitChar(d: nat): char
    requires d < 10
  {
    "0123456789"[d]
  }

  /** Decimal rendering of a natural number, as `String(n)` prints it. */
  function NatToString(n: nat): (r: string)
    ensures |r| >= 1
    decreases n
  {
    if n < 10 then [DigitChar(n)] else NatToString(n / 10) + [DigitChar(n % 10)]
  }

  /** Decimal rendering of an integer (`${n}` for an integer-valued number). */
  function IntToString(n: int): string {
    if n < 0 then "-" + NatToString(-n) else NatToString(n)
  }

  /** `s.split(sep)[0]` for one character: the text before the first `sep`. */
  function Before(s: string, c: char): (r: string)
    ensures r <= s
    ensures c !in r
    ensures r == s || (|r| < |s| && s[|r|] == c)
  {
    var i := IndexOf(s, c);
    if i < 0 then s else s[..i]
  }

  /** Whether `pat` occurs in `s` at index `k`. */
  predicate OccursAt(s: string, pat: string, k: int) {
    0 <= k && k + |pat| <= |s| && s[k..k + |pat|] == pat
  }

  /** The first occurrence of `pat` in `s` at or after index `i`. */
  function FindFrom(s: string, pat: string, i: nat): (r: Option<nat>)
    requires i <= |s|
    ensures r.Some? ==> i <= r.value && OccursAt(s, pat, r.value)
    ensures r.Some? ==> forall k :: i <= k < r.value ==> !OccursAt(s, pat, k)
    ensures r.None? ==> forall k :: i <= k ==> !OccursAt(s, pat, k)
    decreases |s| - i
  {
    if i + |pat| > |s| then None
    else if s[i..i + |pat|] == pat then Some(i)
    else FindFrom(s, pat, i + 1)
  }
}
