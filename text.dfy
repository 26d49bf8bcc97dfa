/**
 * The few Python `str` operations the portfolio code relies on: `lower`,
 * `strip`, `lstrip(chars)`, `rstrip(chars)`, `find`, `in`, `split(";")`,
 * `join` and decimal rendering of counts, plus Python's ordering of strings
 * (lexicographic by code point), which `sorted` uses.
 */
module Text {

  // ---------------------------------------------------------------------
  // Characters
  // ---------------------------------------------------------------------

  /** Whitespace as `str.strip()` and the regex class `\s` see it (ASCII part). */
  predicate IsSpace(c: char) {
    c == ' ' || c == '\t' || c == '\n' || c == '\r' || c == '\U{B}' || c == '\U{C}'
  }

  predicate IsDigit(c: char) {
    '0' <= c <= '9'
  }

  function LowerChar(c: char): char {
    if 'A' <= c <= 'Z' then (c as int + 32) as char else c
  }

  /** `s.lower()` */
  function Lower(s: string): (r: string)
    ensures |r| == |s|
  {
    seq(|s|, i requires 0 <= i < |s| => LowerChar(s[i]))
  }

  /** Lower-casing works character by character. */
  lemma LowerAt(s: string, i: nat)
    requires i < |s|
    ensures Lower(s)[i] == LowerChar(s[i])
  {
  }

  lemma LowerAppend(a: string, b: string)
    ensures Lower(a + b) == Lower(a) + Lower(b)
  {
    assert forall i | 0 <= i < |a + b| :: Lower(a + b)[i] == (Lower(a) + Lower(b))[i];
  }

  lemma LowerIdempotent(s: string)
    ensures Lower(Lower(s)) == Lower(s)
  {
    assert forall i | 0 <= i < |s| :: Lower(Lower(s))[i] == Lower(s)[i];
  }

  // ---------------------------------------------------------------------
  // Stripping
  // ---------------------------------------------------------------------

  /** How many leading characters of `s` are in `chars`. */
  function LeadCount(s: string, chars: set<char>): (n: nat)
    ensures n <= |s|
  {
    if |s| > 0 && s[0] in chars then 1 + LeadCount(s[1..], chars) else 0
  }

  /** The leading run is exactly the longest prefix drawn from `chars`. */
  lemma {:induction false} LeadCountSpec(s: string, chars: set<char>)
    ensures forall i :: 0 <= i < LeadCount(s, chars) ==> s[i] in chars
    ensures LeadCount(s, chars) == |s| || s[LeadCount(s, chars)] !in chars
  {
    if |s| > 0 && s[0] in chars {
      LeadCountSpec(s[1..], chars);
      forall i | 1 <= i < LeadCount(s, chars) ensures s[i] in chars {
        assert s[i] == s[1..][i - 1];
      }
    }
  }

  /** How many trailing characters of `s` are in `chars`. */
  function TrailCount(s: string, chars: set<char>): (n: nat)
    ensures n <= |s|
  {
    if |s| > 0 && s[|s| - 1] in chars then 1 + TrailCount(s[..|s| - 1], chars) else 0
  }

  /** The trailing run is exactly the longest suffix drawn from `chars`. */
  lemma {:induction false} TrailCountSpec(s: string, chars: set<char>)
    ensures forall i :: |s| - TrailCount(s, chars) <= i < |s| ==> s[i] in chars
    ensures TrailCount(s, chars) == |s| || s[|s| - 1 - TrailCount(s, chars)] !in chars
  {
    if |s| > 0 && s[|s| - 1] in chars {
      var t := s[..|s| - 1];
      TrailCountSpec(t, chars);
      forall i | |s| - TrailCount(s, chars) <= i < |s| - 1 ensures s[i] in chars {
        assert s[i] == t[i];
      }
    }
  }

  /** `s.lstrip(chars)`: drop the longest prefix made only of characters in `chars`. */
  function LStripChars(s: string, chars: set<char>): (r: string)
    ensures |r| <= |s|
  {
    s[LeadCount(s, chars)..]
  }

  /** What `lstrip` keeps is a suffix that starts outside `chars`, and all it drops is in `chars`. */
  lemma LStripCharsSpec(s: string, chars: set<char>)
    ensures LStripChars(s, chars) == s[|s| - |LStripChars(s, chars)|..]
    ensures forall i :: 0 <= i < |s| - |LStripChars(s, chars)| ==> s[i] in chars
    ensures LStripChars(s, chars) == [] || LStripChars(s, chars)[0] !in chars
  {
    LeadCountSpec(s, chars);
  }

  /** `s.rstrip(chars)`: drop the longest suffix made only of characters in `chars`. */
  function RStripChars(s: string, chars: set<char>): (r: string)
    ensures |r| <= |s|
  {
    s[..|s| - TrailCount(s, chars)]
  }

  /** What `rstrip` keeps is a prefix that ends outside `chars`, and all it drops is in `chars`. */
  lemma RStripCharsSpec(s: string, chars: set<char>)
    ensures RStripChars(s, chars) == s[..|RStripChars(s, chars)|]
    ensures forall i :: |RStripChars(s, chars)| <= i < |s| ==> s[i] in chars
    ensures RStripChars(s, chars) == [] || RStripChars(s, chars)[|RStripChars(s, chars)| - 1] !in chars
  {
    TrailCountSpec(s, chars);
  }

  const Whitespace: set<char> := {' ', '\t', '\n', '\r', '\U{B}', '\U{C}'}

  lemma WhitespaceIsSpace(c: char)
    ensures c in Whitespace <==> IsSpace(c)
  {
  }

  /** `s.strip()` */
  function Strip(s: string): (r: string)
    ensures |r| <= |s|
  {
    RStripChars(LStripChars(s, Whitespace), Whitespace)
  }

  /** A stripped string neither starts nor ends with a blank. */
  lemma StripEnds(s: string)
    ensures Strip(s) == [] || (!IsSpace(Strip(s)[0]) && !IsSpace(Strip(s)[|Strip(s)| - 1]))
  {
    var l := LStripChars(s, Whitespace);
    var r := Strip(s);
    LStripCharsSpec(s, Whitespace);
    RStripCharsSpec(l, Whitespace);
    if r != [] {
      assert r[0] == l[0];
      WhitespaceIsSpace(r[0]);
      WhitespaceIsSpace(r[|r| - 1]);
    }
  }

  /** A string with no blank at either end is its own strip. */
  lemma StripUnchanged(s: string)
    requires |s| > 0 && !IsSpace(s[0]) && !IsSpace(s[|s| - 1])
    ensures Strip(s) == s
  {
    WhitespaceIsSpace(s[0]);
    WhitespaceIsSpace(s[|s| - 1]);
    assert LeadCount(s, Whitespace) == 0;
    assert TrailCount(s, Whitespace) == 0;
  }

  /** A string is blank when stripping leaves nothing: `not s.strip()`. */
  predicate IsBlank(s: string) {
    forall i :: 0 <= i < |s| ==> IsSpace(s[i])
  }

  lemma BlankIffStripEmpty(s: string)
    ensures IsBlank(s) <==> Strip(s) == []
  {
    if IsBlank(s) {
      BlankLStrip(s);
    } else {
      var k :| 0 <= k < |s| && !IsSpace(s[k]);
      NonBlankSurvives(s, k);
    }
  }

  lemma BlankLStrip(s: string)
    requires IsBlank(s)
    ensures LStripChars(s, Whitespace) == []
  {
    var n := LeadCount(s, Whitespace);
    LeadCountSpec(s, Whitespace);
    if n < |s| {
      WhitespaceIsSpace(s[n]);
    }
  }

  /** A non-space character survives both strips. */
  lemma NonBlankSurvives(s: string, k: nat)
    requires k < |s| && !IsSpace(s[k])
    ensures Strip(s) != []
  {
    WhitespaceIsSpace(s[k]);
    var n := LeadCount(s, Whitespace);
    LeadCountSpec(s, Whitespace);
    var l := s[n..];
    assert k >= n;
    assert l[k - n] == s[k];
    var m := TrailCount(l, Whitespace);
    TrailCountSpec(l, Whitespace);
    assert k - n < |l| - m;
  }

  lemma StripOfStripped(s: string)
    ensures Strip(Strip(s)) == Strip(s)
  {
    var r := Strip(s);
    StripEnds(s);
    if r != [] {
      WhitespaceIsSpace(r[0]);
      WhitespaceIsSpace(r[|r| - 1]);
      assert LeadCount(r, Whitespace) == 0;
      assert LStripChars(r, Whitespace) == r;
      assert TrailCount(r, Whitespace) == 0;
      assert RStripChars(r, Whitespace) == r;
    }
  }

  // ---------------------------------------------------------------------
  // Searching
  // ---------------------------------------------------------------------

  predicate OccursAt(s: string, pat: string, i: int) {
    0 <= i && i + |pat| <= |s| && forall j :: 0 <= j < |pat| ==> s[i + j] == pat[j]
  }

  /**
   * `s.find(pat, start)`: the lowest index at or after `start` where `pat`
   * occurs, or -1.
   */
  function FindFrom(s: string, pat: string, start: nat): (r: int)
    ensures r == -1 || (start <= r && OccursAt(s, pat, r))
    decreases |s| - start
  {
    if start + |pat| > |s| then -1
    else if OccursAt(s, pat, start) then start
    else FindFrom(s, pat, start + 1)
  }

  /** No occurrence at or after `start` comes before the one found, and -1 means there is none. */
  lemma {:induction false} FindFromFirst(s: string, pat: string, start: nat)
    ensures FindFrom(s, pat, start) == -1 ==> forall i :: start <= i ==> !OccursAt(s, pat, i)
    ensures FindFrom(s, pat, start) != -1 ==> forall i :: start <= i < FindFrom(s, pat, start) ==> !OccursAt(s, pat, i)
    decreases |s| - start
  {
    if start + |pat| <= |s| && !OccursAt(s, pat, start) {
      FindFromFirst(s, pat, start + 1);
    }
  }

  /** `s.find(pat)` */
  function Find(s: string, pat: string): (r: int)
    ensures r == -1 || OccursAt(s, pat, r)
  {
    FindFrom(s, pat, 0)
  }

  /** `find` gives -1 exactly when there is no occurrence, and otherwise the first one. */
  lemma FindFirst(s: string, pat: string)
    ensures Find(s, pat) == -1 <==> forall i :: !OccursAt(s, pat, i)
    ensures Find(s, pat) != -1 ==> forall i :: 0 <= i < Find(s, pat) ==> !OccursAt(s, pat, i)
  {
    FindFromFirst(s, pat, 0);
  }

  /** `pat in s` */
  ghost predicate Contains(s: string, pat: string) {
    exists i :: OccursAt(s, pat, i)
  }

  /** An occurrence is a slice equal to the pattern. */
  lemma OccursSlice(s: string, pat: string, i: nat)
    requires OccursAt(s, pat, i)
    ensures s[i..i + |pat|] == pat
  {
  }

  lemma ContainsIffFound(s: string, pat: string)
    ensures Contains(s, pat) <==> Find(s, pat) != -1
  {
    FindFirst(s, pat);
  }

  /** `pat in s` decided by search, for executable code. */
  function ContainsText(s: string, pat: string): (b: bool)
    ensures b <==> Contains(s, pat)
  {
    ContainsIffFound(s, pat);
    Find(s, pat) != -1
  }

  lemma ContainsSelf(s: string)
    ensures Contains(s, s)
  {
    assert OccursAt(s, s, 0);
  }

  lemma ContainsInAppend(a: string, pat: string, b: string, c: string)
    requires Contains(b, pat)
    ensures Contains(a + b + c, pat)
  {
    var i :| OccursAt(b, pat, i);
    assert (a + b + c)[|a| + i..|a| + i + |pat|] == b[i..i + |pat|];
    assert OccursAt(a + b + c, pat, |a| + i);
  }

  /** Occurrence is transitive: a piece of a piece of `a` is a piece of `a`. */
  lemma ContainsTrans(a: string, b: string, c: string)
    requires Contains(a, b) && Contains(b, c)
    ensures Contains(a, c)
  {
    var i :| OccursAt(a, b, i);
    var j :| OccursAt(b, c, j);
    assert OccursAt(a, c, i + j) by {
      forall k | 0 <= k < |c| ensures a[i + j + k] == c[k] {
        assert b[j + k] == c[k];
      }
    }
  }

  lemma ContainsSlice(s: string, p: nat, q: nat)
    requires p <= q <= |s|
    ensures Contains(s, s[p..q])
  {
    assert OccursAt(s, s[p..q], p);
  }

  /** What `strip` keeps is a piece of the text. */
  lemma StripContained(s: string)
    ensures Contains(s, Strip(s))
  {
    var n := LeadCount(s, Whitespace);
    var l := s[n..];
    var m := TrailCount(l, Whitespace);
    assert Strip(s) == s[n..n + (|l| - m)];
    ContainsSlice(s, n, n + (|l| - m));
  }

  /** What `rstrip(chars)` keeps is a piece of the text. */
  /** A stripped slice is a piece of the whole. */
  lemma StripSliceContained(s: string, p: nat, q: nat)
    requires p <= q <= |s|
    ensures Contains(s, Strip(s[p..q]))
  {
    ContainsSlice(s, p, q);
    StripContained(s[p..q]);
    ContainsTrans(s, s[p..q], Strip(s[p..q]));
  }

  lemma RStripContained(s: string, chars: set<char>)
    ensures Contains(s, RStripChars(s, chars))
  {
    ContainsSlice(s, 0, |RStripChars(s, chars)|);
  }

  /** No character of `s` changes under `lower`. */
  predicate IsLowerCase(s: string) {
    forall i :: 0 <= i < |s| ==> LowerChar(s[i]) == s[i]
  }

  lemma LowerIsLowerCase(s: string)
    ensures IsLowerCase(Lower(s))
  {
    forall i | 0 <= i < |s| ensures LowerChar(Lower(s)[i]) == Lower(s)[i] {
      LowerAt(s, i);
    }
  }

  lemma LowerCaseInfix(s: string, t: string)
    requires IsLowerCase(s) && Contains(s, t)
    ensures IsLowerCase(t)
  {
    var i :| OccursAt(s, t, i);
    forall k | 0 <= k < |t| ensures LowerChar(t[k]) == t[k] {
      assert s[i + k] == t[k];
    }
  }

  lemma LowerOfLowerCase(s: string)
    requires IsLowerCase(s)
    ensures Lower(s) == s
  {
    forall i | 0 <= i < |s| ensures Lower(s)[i] == s[i] {
      LowerAt(s, i);
    }
  }

  lemma LowerSlice(s: string, p: nat, q: nat)
    requires p <= q <= |s|
    ensures Lower(s[p..q]) == Lower(s)[p..q]
  {
    var a := Lower(s[p..q]);
    var b := Lower(s)[p..q];
    assert |a| == |b|;
    forall i | 0 <= i < |a| ensures a[i] == b[i] {
      LowerAt(s[p..q], i);
      LowerAt(s, p + i);
    }
  }

  // ---------------------------------------------------------------------
  // Splitting and joining
  // ---------------------------------------------------------------------

  /** `s.split(sep)` for a one-character separator; `"".split(";") == [""]`. */
  function Split(s: string, sep: char): (parts: seq<string>)
    ensures |parts| >= 1
    ensures forall p :: p in parts ==> sep !in p
    decreases |s|
  {
    if sep !in s then [s]
    else
      var k := IndexOf(s, sep);
      [s[..k]] + Split(s[k + 1..], sep)
  }

  function IndexOf(s: string, c: char): (k: nat)
    requires c in s
    ensures k < |s| && s[k] == c && c !in s[..k]
  {
    if s[0] == c then 0 else 1 + IndexOf(s[1..], c)
  }

  /** `sep.join(parts)` */
  function Join(parts: seq<string>, sep: string): string {
    if |parts| == 0 then ""
    else if |parts| == 1 then parts[0]
    else parts[0] + sep + Join(parts[1..], sep)
  }

  /** Splitting and re-joining on the same separator gives the text back. */
  lemma {:induction false} JoinSplit(s: string, sep: char)
    ensures Join(Split(s, sep), [sep]) == s
    decreases |s|
  {
    if sep in s {
      var k := IndexOf(s, sep);
      var head, tail := s[..k], s[k + 1..];
      var rest := Split(tail, sep);
      var parts := Split(s, sep);
      assert parts == [head] + rest;
      JoinSplit(tail, sep);
      JoinCons(head, rest, [sep]);
      assert s == head + [sep] + tail;
    }
  }

  lemma JoinCons(head: string, rest: seq<string>, sep: string)
    requires |rest| >= 1
    ensures Join([head] + rest, sep) == head + sep + Join(rest, sep)
  {
    var parts := [head] + rest;
    assert parts[0] == head && parts[1..] == rest;
  }

  // ---------------------------------------------------------------------
  // Rendering numbers
  // ---------------------------------------------------------------------

  function DigitChar(d: nat): char
    requires d < 10
  {
    ('0' as int + d) as char
  }

  /** `str(n)` for a natural number. */
  function NatToString(n: nat): (r: string)
    ensures |r| >= 1
    ensures forall i :: 0 <= i < |r| ==> IsDigit(r[i])
  {
    if n < 10 then [DigitChar(n)] else NatToString(n / 10) + [DigitChar(n % 10)]
  }

  function DigitValue(c: char): (d: nat)
    requires IsDigit(c)
    ensures d < 10
  {
    c as int - '0' as int
  }

  /** The value of a string of decimal digits. */
  function DigitsValue(s: string): nat
    requires forall i :: 0 <= i < |s| ==> IsDigit(s[i])
  {
    if s == [] then 0 else 10 * DigitsValue(s[..|s| - 1]) + DigitValue(s[|s| - 1])
  }

  /** `int(str(n)) == n` */
  lemma {:induction false} NatToStringRoundTrip(n: nat)
    ensures DigitsValue(NatToString(n)) == n
  {
    if n >= 10 {
      NatToStringRoundTrip(n / 10);
      var r := NatToString(n);
      assert r[..|r| - 1] == NatToString(n / 10);
    }
  }

  /** Python's `f"{n}"` for an integer. */
  function IntText(n: int): (r: string)
    ensures n >= 0 ==> r == NatToString(n)
  {
    if n < 0 then "-" + NatToString(-n) else NatToString(n)
  }

  /** `f"{n:03d}"`: at least three digits, zero-padded on the left. */
  function Pad3(n: nat): (r: string)
    ensures |r| >= 3
    ensures forall i :: 0 <= i < |r| ==> IsDigit(r[i])
  {
    var d := NatToString(n);
    if |d| >= 3 then d else seq(3 - |d|, _ => '0') + d
  }

  lemma {:induction false} DigitsValueLeadingZeros(z: nat, d: string)
    requires forall i :: 0 <= i < |d| ==> IsDigit(d[i])
    ensures DigitsValue(seq(z, _ => '0') + d) == DigitsValue(d)
    decreases |d|
  {
    var s := seq(z, _ => '0') + d;
    if d == [] {
      assert s == seq(z, _ => '0');
      ZerosValue(z);
    } else {
      assert s[..|s| - 1] == seq(z, _ => '0') + d[..|d| - 1];
      DigitsValueLeadingZeros(z, d[..|d| - 1]);
    }
  }

  lemma {:induction false} ZerosValue(z: nat)
    ensures DigitsValue(seq(z, _ => '0')) == 0
  {
    if z > 0 {
      assert seq(z, _ => '0')[..z - 1] == seq(z - 1, _ => '0');
      ZerosValue(z - 1);
    }
  }

  /** A common prefix keeps distinct strings distinct. */
  lemma PrefixKeepsDistinct(p: string, a: string, b: string)
    requires a != b
    ensures p + a != p + b
  {
    assert (p + a)[|p|..] == a;
    assert (p + b)[|p|..] == b;
  }

  /** The padded rendering still reads back as `n`, so distinct numbers render distinctly. */
  lemma Pad3RoundTrip(n: nat)
    ensures DigitsValue(Pad3(n)) == n
  {
    var d := NatToString(n);
    NatToStringRoundTrip(n);
    if |d| < 3 {
      DigitsValueLeadingZeros(3 - |d|, d);
    }
  }

  // ---------------------------------------------------------------------
  // Python's string order
  // ---------------------------------------------------------------------

  /** `a < b` on Python strings: lexicographic by code point. */
  predicate StrLt(a: string, b: string) {
    if |a| == 0 then |b| > 0
    else if |b| == 0 then false
    else if a[0] != b[0] then a[0] < b[0]
    else StrLt(a[1..], b[1..])
  }

  lemma {:induction false} StrLtIrreflexive(a: string)
    ensures !StrLt(a, a)
  {
    if |a| > 0 { StrLtIrreflexive(a[1..]); }
  }

  lemma {:induction false} StrLtTransitive(a: string, b: string, c: string)
    requires StrLt(a, b) && StrLt(b, c)
    ensures StrLt(a, c)
  {
    if |a| > 0 && |b| > 0 && |c| > 0 && a[0] == b[0] && b[0] == c[0] {
      StrLtTransitive(a[1..], b[1..], c[1..]);
    }
  }

  lemma {:induction false} StrLtTotal(a: string, b: string)
    requires a != b
    ensures StrLt(a, b) || StrLt(b, a)
  {
    if |a| > 0 && |b| > 0 && a[0] == b[0] {
      StrLtTotal(a[1..], b[1..]);
    }
  }

  lemma {:induction false} StrLtAsymmetric(a: string, b: string)
    requires StrLt(a, b)
    ensures !StrLt(b, a)
  {
    if StrLt(b, a) {
      StrLtTransitive(a, b, a);
      StrLtIrreflexive(a);
    }
  }

  /** Strictly increasing in Python's order, hence also free of duplicates. */
  predicate StrictlySorted(r: seq<string>) {
    forall i, j :: 0 <= i < j < |r| ==> StrLt(r[i], r[j])
  }

  /**
   * The least element of a non-empty set of strings (a search loop over the
   * set, in whatever order it happens to be visited).
   */
  method MinString(s: set<string>) returns (m: string)
    requires s != {}
    ensures m in s
    ensures forall x :: x in s && x != m ==> StrLt(m, x)
  {
    m :| m in s;
    var todo := s - {m};
    while todo != {}
      invariant m in s && todo <= s
      invariant forall x :: x in s - todo && x != m ==> StrLt(m, x)
      decreases todo
    {
      var x :| x in todo;
      if StrLt(x, m) {
        forall y | y in s - todo && y != x
          ensures StrLt(x, y)
        {
          if y != m { StrLtTransitive(x, m, y); }
        }
        m := x;
      } else if x != m {
        StrLtTotal(x, m);
      }
      todo := todo - {x};
    }
  }

  /** The set of strings in a sequence. */
  function Elements(r: seq<string>): set<string> {
    set x | x in r
  }

  /**
   * Half-way through sorting `s`: `r` is the sorted prefix, `rest` the
   * strings still to place, each above everything already placed.
   */
  ghost predicate SortedSoFar(r: seq<string>, rest: set<string>, s: set<string>) {
    && StrictlySorted(r)
    && Elements(r) + rest == s
    && Elements(r) !! rest
    && |r| + |rest| == |s|
    && (forall x, y :: x in r && y in rest ==> StrLt(x, y))
  }

  /** Placing the least remaining string keeps the sorted prefix sorted. */
  lemma PlaceLeast(r: seq<string>, rest: set<string>, s: set<string>, m: string)
    requires SortedSoFar(r, rest, s)
    requires m in rest && forall x :: x in rest && x != m ==> StrLt(m, x)
    ensures SortedSoFar(r + [m], rest - {m}, s)
  {
    AppendSorted(r, m, rest);
    AppendElements(r, m);
    AppendBelow(r, m, rest);
  }

  lemma AppendSorted(r: seq<string>, m: string, rest: set<string>)
    requires StrictlySorted(r) && m in rest
    requires forall x, y :: x in r && y in rest ==> StrLt(x, y)
    ensures StrictlySorted(r + [m])
  {
    var r' := r + [m];
    forall i, j | 0 <= i < j < |r'| ensures StrLt(r'[i], r'[j]) {
      assert r'[i] == r[i];
      if j < |r| {
        assert r'[j] == r[j];
      }
    }
  }

  lemma AppendElements(r: seq<string>, m: string)
    ensures Elements(r + [m]) == Elements(r) + {m}
  {
  }

  lemma AppendBelow(r: seq<string>, m: string, rest: set<string>)
    requires m in rest && forall x :: x in rest && x != m ==> StrLt(m, x)
    requires forall x, y :: x in r && y in rest ==> StrLt(x, y)
    ensures forall x, y :: x in r + [m] && y in rest - {m} ==> StrLt(x, y)
  {
    forall x, y | x in r + [m] && y in rest - {m} ensures StrLt(x, y) {
      if x != m {
        assert x in r;
      }
    }
  }

  /** `sorted(s)` for a set of strings. */
  method SortStrings(s: set<string>) returns (r: seq<string>)
    ensures StrictlySorted(r)
    ensures Elements(r) == s
    ensures |r| == |s|
  {
    r := [];
    var rest := s;
    assert Elements(r) == {};
    while rest != {}
      invariant SortedSoFar(r, rest, s)
      decreases rest
    {
      var m := MinString(rest);
      PlaceLeast(r, rest, s, m);
      r := r + [m];
      rest := rest - {m};
    }
  }
}
