/**
 * The fragment of Python's `re` that the scenario parser uses: literals,
 * the classes `\s`, `\d`, `.` and small bracket sets, greedy and lazy
 * repetition of a class, concatenation, alternation, the greedy optional
 * `(?:...)?` and the anchor `$`.
 *
 * A pattern is written as a list of segments, each capture group of the
 * source being one segment, so a match is the list of segment boundaries
 * and `match.group(g)` is the text between two of them.
 *
 * `Match` lists every end a segment can reach, and `MatchAll` every list of
 * boundaries, in the order a backtracking matcher tries them, so `re.match`
 * is the first entry.  Their meaning is fixed independently by the
 * set-of-spans definition `InLang`: `MatchSound` and `MatchAllSound` prove
 * that every listed match spans strings of the segments' languages, and
 * `MatchComplete` and `MatchAllComplete` that nothing the languages allow
 * is missed.
 */
module Regex {
  import opened Text
  import opened Wrappers

  datatype Class =
    | Space          // \s
    | Digit          // \d
    | NotNewline     // .
    | OneOf(cs: set<char>)

  predicate InClass(c: char, k: Class) {
    match k
    case Space => IsSpace(c)
    case Digit => IsDigit(c)
    case NotNewline => c != '\n'
    case OneOf(cs) => c in cs
  }

  datatype Re =
    | Lit(w: string)
    | Chr(k: Class)                          // one character of class k
    | Rep(k: Class, min: nat, greedy: bool)  // k{min,}, greedy or lazy
    | Cat(a: Re, b: Re)
    | Alt(a: Re, b: Re)
    | Opt(a: Re)                             // (?:a)?, greedy
    | End                                    // $

  predicate Within(es: seq<nat>, lo: nat, hi: nat) {
    forall k :: 0 <= k < |es| ==> lo <= es[k] <= hi
  }

  // ---------------------------------------------------------------------
  // The backtracking matcher
  // ---------------------------------------------------------------------

  /** How many characters of class `k` follow position `i`. */
  function Run(s: string, i: nat, k: Class): (n: nat)
    requires i <= |s|
    ensures i + n <= |s|
    decreases |s| - i
  {
    if i < |s| && InClass(s[i], k) then 1 + Run(s, i + 1, k) else 0
  }

  /** The run is made of class characters and stops at the first other one. */
  lemma {:induction false} RunSpec(s: string, i: nat, k: Class)
    requires i <= |s|
    ensures forall m :: i <= m < i + Run(s, i, k) ==> InClass(s[m], k)
    ensures i + Run(s, i, k) < |s| ==> !InClass(s[i + Run(s, i, k)], k)
    decreases |s| - i
  {
    if i < |s| && InClass(s[i], k) {
      RunSpec(s, i + 1, k);
    }
  }

  /** The ends `hi`, `hi - 1`, ..., `lo`: what a greedy repetition tries. */
  function Down(hi: nat, lo: nat): (es: seq<nat>)
    ensures forall e :: e in es <==> lo <= e <= hi
    ensures Within(es, lo, hi)
    decreases hi
  {
    if hi < lo then [] else [hi] + (if hi == lo then [] else Down(hi - 1, lo))
  }

  /** The ends `lo`, `lo + 1`, ..., `hi`: what a lazy repetition tries. */
  function Up(lo: nat, hi: nat): (es: seq<nat>)
    ensures forall e :: e in es <==> lo <= e <= hi
    ensures Within(es, lo, hi)
    decreases hi - lo
  {
    if hi < lo then [] else [lo] + (if hi == lo then [] else Up(lo + 1, hi))
  }

  /** The anchor `$` without MULTILINE: the end, or just before a final newline. */
  predicate AtEnd(s: string, i: nat) {
    i == |s| || (i + 1 == |s| && s[i] == '\n')
  }

  /** Every end `r` can reach from position `i` of `s`, in backtracking order. */
  function Match(r: Re, s: string, i: nat): (es: seq<nat>)
    requires i <= |s|
    ensures Within(es, i, |s|)
    decreases r, 1
  {
    match r
    case Lit(w) =>
      if i + |w| <= |s| && s[i..i + |w|] == w then [i + |w|] else []
    case Chr(k) =>
      if i < |s| && InClass(s[i], k) then [i + 1] else []
    case Rep(k, min, greedy) =>
      var n := Run(s, i, k);
      if n < min then []
      else if greedy then Down(i + n, i + min)
      else Up(i + min, i + n)
    case Cat(a, b) =>
      Then(b, s, i, Match(a, s, i))
    case Alt(a, b) =>
      Match(a, s, i) + Match(b, s, i)
    case Opt(a) =>
      Match(a, s, i) + [i]
    case End =>
      if AtEnd(s, i) then [i] else []
  }

  /** Continuing from each end in `es`, in order, with every end `b` reaches. */
  function Then(b: Re, s: string, lo: nat, es: seq<nat>): (out: seq<nat>)
    requires Within(es, lo, |s|)
    ensures Within(out, lo, |s|)
    decreases b, 2, |es|
  {
    if es == [] then []
    else
      var first := Match(b, s, es[0]);
      assert Within(first, lo, |s|);
      first + Then(b, s, lo, es[1..])
  }

  /**
   * Every way the segments `ps` match one after the other from `i`, as the
   * list of boundaries, in backtracking order.
   */
  function MatchAll(ps: seq<Re>, s: string, i: nat): (bs: seq<seq<nat>>)
    requires i <= |s|
    decreases |ps|, 1
  {
    if ps == [] then [[i]] else Extend(ps, s, i, Match(ps[0], s, i))
  }

  /** The matches of the later segments from each end of the first, prefixed with `i`. */
  function Extend(ps: seq<Re>, s: string, i: nat, es: seq<nat>): (bs: seq<seq<nat>>)
    requires ps != [] && Within(es, 0, |s|)
    decreases |ps|, 0, |es|
  {
    if es == [] then []
    else
      Prefix(i, MatchAll(ps[1..], s, es[0])) + Extend(ps, s, i, es[1..])
  }

  function Prefix(i: nat, bs: seq<seq<nat>>): (out: seq<seq<nat>>)
    ensures |out| == |bs|
    ensures forall k :: 0 <= k < |bs| ==> out[k] == [i] + bs[k]
  {
    if bs == [] then [] else [[i] + bs[0]] + Prefix(i, bs[1..])
  }

  /** `re.match`: the first way the segments match a prefix of `s`. */
  function FirstMatch(ps: seq<Re>, s: string): (m: Option<seq<nat>>)
    ensures m.Some? ==> m.value in MatchAll(ps, s, 0)
    ensures m.None? <==> MatchAll(ps, s, 0) == []
  {
    var bs := MatchAll(ps, s, 0);
    if bs == [] then None else Some(bs[0])
  }

  // ---------------------------------------------------------------------
  // The language of a pattern
  // ---------------------------------------------------------------------

  /** `s[i..j]` is a string of the pattern `r` (the order of tries does not matter here). */
  ghost predicate InLang(r: Re, s: string, i: nat, j: nat)
    decreases r
  {
    i <= j <= |s| &&
    match r
    case Lit(w) => s[i..j] == w
    case Chr(k) => j == i + 1 && InClass(s[i], k)
    case Rep(k, min, _) => j - i >= min && forall m :: i <= m < j ==> InClass(s[m], k)
    case Cat(a, b) => exists m :: i <= m <= j && InLang(a, s, i, m) && InLang(b, s, m, j)
    case Alt(a, b) => InLang(a, s, i, j) || InLang(b, s, i, j)
    case Opt(a) => i == j || InLang(a, s, i, j)
    case End => i == j && AtEnd(s, j)
  }

  /** The boundaries `b` split `s` into strings of the segments `ps`. */
  ghost predicate Splits(ps: seq<Re>, s: string, b: seq<nat>) {
    |b| == |ps| + 1 && forall k :: 0 <= k < |ps| ==> InLang(ps[k], s, b[k], b[k + 1])
  }

  // ---------------------------------------------------------------------
  // Soundness
  // ---------------------------------------------------------------------

  lemma {:induction false} ThenMember(b: Re, s: string, lo: nat, es: seq<nat>, e: nat) returns (k: nat)
    requires Within(es, lo, |s|)
    requires e in Then(b, s, lo, es)
    ensures k < |es| && e in Match(b, s, es[k])
    decreases |es|
  {
    if e in Match(b, s, es[0]) {
      k := 0;
    } else {
      assert Within(es[1..], lo, |s|);
      k := ThenMember(b, s, lo, es[1..], e);
      k := k + 1;
    }
  }

  /** Every end the matcher lists is the end of a string of the pattern. */
  lemma {:induction false} MatchSound(r: Re, s: string, i: nat, e: nat)
    requires i <= |s| && e in Match(r, s, i)
    ensures InLang(r, s, i, e)
    decreases r
  {
    match r
    case Lit(w) =>
    case Chr(k) =>
    case Rep(k, min, greedy) =>
      RunSpec(s, i, k);
    case Cat(a, b) =>
      var first := Match(a, s, i);
      var k := ThenMember(b, s, i, first, e);
      MatchSound(a, s, i, first[k]);
      MatchSound(b, s, first[k], e);
    case Alt(a, b) =>
      if e in Match(a, s, i) {
        MatchSound(a, s, i, e);
      } else {
        MatchSound(b, s, i, e);
      }
    case Opt(a) =>
      if e in Match(a, s, i) {
        MatchSound(a, s, i, e);
      }
    case End =>
  }

  lemma {:induction false} ExtendMember(ps: seq<Re>, s: string, i: nat, es: seq<nat>, b: seq<nat>)
      returns (k: nat)
    requires ps != [] && Within(es, 0, |s|)
    requires b in Extend(ps, s, i, es)
    ensures k < |es| && |b| >= 1 && b[0] == i && b[1..] in MatchAll(ps[1..], s, es[k])
    decreases |es|
  {
    var here := Prefix(i, MatchAll(ps[1..], s, es[0]));
    if b in here {
      var j :| 0 <= j < |here| && here[j] == b;
      assert b == [i] + MatchAll(ps[1..], s, es[0])[j];
      k := 0;
    } else {
      assert Within(es[1..], 0, |s|);
      k := ExtendMember(ps, s, i, es[1..], b);
      k := k + 1;
    }
  }

  /** Every listed match starts at `i` and splits the text into strings of the segments. */
  lemma {:induction false} MatchAllSound(ps: seq<Re>, s: string, i: nat, b: seq<nat>)
    requires i <= |s| && b in MatchAll(ps, s, i)
    ensures Splits(ps, s, b) && b[0] == i
    decreases |ps|
  {
    if ps != [] {
      var es := Match(ps[0], s, i);
      var k := ExtendMember(ps, s, i, es, b);
      MatchSound(ps[0], s, i, es[k]);
      MatchAllSound(ps[1..], s, es[k], b[1..]);
      forall m | 0 <= m < |ps| ensures InLang(ps[m], s, b[m], b[m + 1]) {
        if m > 0 {
          assert ps[m] == ps[1..][m - 1];
          assert b[m] == b[1..][m - 1] && b[m + 1] == b[1..][m];
        }
      }
    }
  }

  // ---------------------------------------------------------------------
  // Completeness
  // ---------------------------------------------------------------------

  lemma {:induction false} ThenHas(b: Re, s: string, lo: nat, es: seq<nat>, k: nat, e: nat)
    requires Within(es, lo, |s|)
    requires k < |es| && e in Match(b, s, es[k])
    ensures e in Then(b, s, lo, es)
    decreases |es|
  {
    if k > 0 {
      assert Within(es[1..], lo, |s|);
      ThenHas(b, s, lo, es[1..], k - 1, e);
    }
  }

  /** Every end of a string of the pattern is among the ends the matcher lists. */
  lemma {:induction false} MatchComplete(r: Re, s: string, i: nat, j: nat)
    requires InLang(r, s, i, j)
    ensures j in Match(r, s, i)
    decreases r
  {
    match r
    case Lit(w) =>
    case Chr(k) =>
    case Rep(k, min, greedy) =>
      RunSpec(s, i, k);
    case Cat(a, b) =>
      var m :| i <= m <= j && InLang(a, s, i, m) && InLang(b, s, m, j);
      MatchComplete(a, s, i, m);
      MatchComplete(b, s, m, j);
      var first := Match(a, s, i);
      var k :| 0 <= k < |first| && first[k] == m;
      ThenHas(b, s, i, first, k, j);
    case Alt(a, b) =>
      if InLang(a, s, i, j) {
        MatchComplete(a, s, i, j);
      } else {
        MatchComplete(b, s, i, j);
      }
    case Opt(a) =>
      if i != j {
        MatchComplete(a, s, i, j);
      }
    case End =>
  }

  lemma {:induction false} ExtendHas(ps: seq<Re>, s: string, i: nat, es: seq<nat>, k: nat, c: seq<nat>)
    requires ps != [] && Within(es, 0, |s|)
    requires k < |es| && es[k] <= |s| && c in MatchAll(ps[1..], s, es[k])
    ensures [i] + c in Extend(ps, s, i, es)
    decreases |es|
  {
    if k == 0 {
      var here := MatchAll(ps[1..], s, es[0]);
      var j :| 0 <= j < |here| && here[j] == c;
      assert Prefix(i, here)[j] == [i] + c;
    } else {
      assert Within(es[1..], 0, |s|);
      ExtendHas(ps, s, i, es[1..], k - 1, c);
    }
  }

  /** Every split of the text into strings of the segments is listed. */
  lemma {:induction false} MatchAllComplete(ps: seq<Re>, s: string, b: seq<nat>)
    requires Splits(ps, s, b) && b[0] <= |s|
    ensures b in MatchAll(ps, s, b[0])
    decreases |ps|
  {
    if ps == [] {
      assert b == [b[0]];
    } else {
      assert InLang(ps[0], s, b[0], b[1]);
      MatchComplete(ps[0], s, b[0], b[1]);
      assert Splits(ps[1..], s, b[1..]) by {
        forall m | 0 <= m < |ps| - 1 ensures InLang(ps[1..][m], s, b[1..][m], b[1..][m + 1]) {
          assert InLang(ps[m + 1], s, b[m + 1], b[m + 2]);
        }
      }
      MatchAllComplete(ps[1..], s, b[1..]);
      var es := Match(ps[0], s, b[0]);
      var k :| 0 <= k < |es| && es[k] == b[1];
      ExtendHas(ps, s, b[0], es, k, b[1..]);
      assert [b[0]] + b[1..] == b;
    }
  }

  /** When `re.match` succeeds, its boundaries split a prefix of the text into strings of the segments. */
  lemma FirstMatchSplits(ps: seq<Re>, s: string)
    requires FirstMatch(ps, s).Some?
    ensures Splits(ps, s, FirstMatch(ps, s).value) && FirstMatch(ps, s).value[0] == 0
  {
    MatchAllSound(ps, s, 0, FirstMatch(ps, s).value);
  }

  /** `re.match` fails exactly when no prefix of the text splits into strings of the segments. */
  lemma FirstMatchIff(ps: seq<Re>, s: string)
    ensures FirstMatch(ps, s).None? <==> forall b :: !(Splits(ps, s, b) && b[0] == 0)
  {
    if FirstMatch(ps, s).Some? {
      FirstMatchSplits(ps, s);
    } else {
      forall b | Splits(ps, s, b) && b[0] == 0 ensures false {
        MatchAllComplete(ps, s, b);
      }
    }
  }

  // ---------------------------------------------------------------------
  // Word alternations
  // ---------------------------------------------------------------------

  /** `(?:w0|w1|...)`, tried left to right. */
  function Words(ws: seq<string>): Re
    requires ws != []
  {
    if |ws| == 1 then Lit(ws[0]) else Alt(Lit(ws[0]), Words(ws[1..]))
  }

  /** A string of a word alternation is one of its words. */
  lemma {:induction false} WordsLang(ws: seq<string>, s: string, i: nat, j: nat)
    requires ws != [] && InLang(Words(ws), s, i, j)
    ensures s[i..j] in ws
  {
    if |ws| > 1 && !InLang(Lit(ws[0]), s, i, j) {
      WordsLang(ws[1..], s, i, j);
    }
  }
}
