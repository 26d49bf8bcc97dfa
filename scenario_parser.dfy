/**
 * `_clean_project_name`: the capture comes from the lower-cased text, and
 * its case is restored from the original sentence.
 */
module ProjectName {
  import opened Text

  const Quotes: set<char> := {'\'', '"'}

  /** The capture stripped of blanks, then of trailing quotes. */
  function TrimCapture(name: string): string {
    RStripChars(Strip(name), Quotes)
  }

  /**
   * `_clean_project_name`: the trimmed capture looked up case-insensitively
   * in `original`; see `CleanNameNotFound`,
   * `CleanNameFirst` and `CaptureRestored`.
   */
  function CleanProjectName(name: string, original: string): string {
    var n := TrimCapture(name);
    var pos := Find(Lower(original), Lower(n));
    if pos != -1 then Strip(original[pos..pos + |n|]) else n
  }

  /** A trimmed capture that occurs nowhere in `original` is returned as it is (lower-case). */
  lemma CleanNameNotFound(name: string, original: string)
    requires forall q :: !OccursAt(Lower(original), Lower(TrimCapture(name)), q)
    ensures CleanProjectName(name, original) == TrimCapture(name)
  {
    FindFirst(Lower(original), Lower(TrimCapture(name)));
  }

  /**
   * Otherwise the cleaned name is the text of `original` at the first place
   * where the trimmed capture occurs case-insensitively, stripped.
   */
  lemma CleanNameFirst(name: string, original: string, p: nat)
    requires OccursAt(Lower(original), Lower(TrimCapture(name)), p)
    requires forall q :: 0 <= q < p ==> !OccursAt(Lower(original), Lower(TrimCapture(name)), q)
    ensures CleanProjectName(name, original) == Strip(original[p..p + |TrimCapture(name)|])
  {
    var o := Lower(original);
    var ln := Lower(TrimCapture(name));
    FindFirst(o, ln);
    assert Find(o, ln) == p by {
      var pos := Find(o, ln);
      assert pos != -1;
      assert !(pos < p) && !(p < pos);
    }
    CleanFound(name, original, p);
  }

  /** The found branch of `_clean_project_name`. */
  lemma CleanFound(name: string, original: string, p: nat)
    requires Find(Lower(original), Lower(TrimCapture(name))) == p
    ensures p + |TrimCapture(name)| <= |original|
    ensures CleanProjectName(name, original) == Strip(original[p..p + |TrimCapture(name)|])
  {
    var n := TrimCapture(name);
    assert OccursAt(Lower(original), Lower(n), p);
    assert |Lower(n)| == |n| && |Lower(original)| == |original|;
  }

  /**
   * A capture taken from the normalised form of `original` is always found
   * again in `original`, so the project name is the original-case text at
   * the first place where it occurs.
   */
  lemma CaptureRestored(c: string, original: string) returns (p: nat)
    requires Contains(Strip(Lower(original)), c)
    ensures p + |TrimCapture(c)| <= |original|
    ensures Lower(original[p..p + |TrimCapture(c)|]) == TrimCapture(c)
    ensures CleanProjectName(c, original) == Strip(original[p..p + |TrimCapture(c)|])
  {
    var n := TrimCapture(c);
    TrimmedCaptureInLower(c, original);
    ContainsIffFound(Lower(original), n);
    p := Find(Lower(original), n);
    SliceRestored(original, n, p);
    CleanFound(c, original, p);
  }

  /** Hence the project name is always a piece of the original text. */
  lemma NameInOriginal(c: string, original: string)
    requires Contains(Strip(Lower(original)), c)
    ensures Contains(original, CleanProjectName(c, original))
  {
    var p := CaptureFound(c, original);
    CleanFound(c, original, p);
    StripSliceContained(original, p, p + |TrimCapture(c)|);
  }

  /** The case-insensitive search of `_clean_project_name` always succeeds on a capture of the normalised text. */
  lemma CaptureFound(c: string, original: string) returns (p: nat)
    requires Contains(Strip(Lower(original)), c)
    ensures Find(Lower(original), Lower(TrimCapture(c))) == p
  {
    TrimmedCaptureInLower(c, original);
    ContainsIffFound(Lower(original), TrimCapture(c));
    p := Find(Lower(original), TrimCapture(c));
  }

  /** The trimmed capture is lower-case and occurs in the lower-cased original. */
  lemma TrimmedCaptureInLower(c: string, original: string)
    requires Contains(Strip(Lower(original)), c)
    ensures Contains(Lower(original), TrimCapture(c)) && Lower(TrimCapture(c)) == TrimCapture(c)
  {
    var o := Lower(original);
    var n := TrimCapture(c);
    StripContained(c);
    RStripContained(Strip(c), Quotes);
    ContainsTrans(c, Strip(c), n);
    StripContained(o);
    ContainsTrans(Strip(o), c, n);
    ContainsTrans(o, Strip(o), n);
    LowerIsLowerCase(original);
    LowerCaseInfix(o, n);
    LowerOfLowerCase(n);
  }

  /** Where the lower-case `n` occurs in the lower-cased original, the original text lowers to `n`. */
  lemma SliceRestored(original: string, n: string, p: nat)
    requires OccursAt(Lower(original), n, p)
    ensures p + |n| <= |original|
    ensures Lower(original[p..p + |n|]) == n
  {
    OccursSlice(Lower(original), n, p);
    SliceLowers(original, n, p);
  }

  lemma SliceLowers(original: string, n: string, p: nat)
    requires p + |n| <= |original|
    requires Lower(original)[p..p + |n|] == n
    ensures Lower(original[p..p + |n|]) == n
  {
    LowerSlice(original, p, p + |n|);
  }
}

/**
 * The scenario parser: a "what if" sentence such as "increase Project Beta
 * budget by 20%" or "push back Gamma by 3 months" becomes a structured
 * action.  The parsers for removal, budget change, scope cut and delay are
 * tried in that order on the stripped, lower-cased text; each tries its
 * regular expressions in order with `re.match`, so matching is anchored at
 * the start; the project name is read from the lower-cased text and its
 * case restored from the original.
 *
 * Each regular expression is a list of segments (module `Regex`) in which
 * every capture group is one segment, so `match.group(g)` is the text
 * between two boundaries of the match.
 */
module ScenarioParser {
  import opened Wrappers
  import opened Text
  import opened Regex
  import opened ProjectName

  datatype ActionType = BudgetIncrease | BudgetDecrease | ScopeCut | Delay | Remove

  /** A parsed action; `amount` is a fraction for percentages, `amountAbsolute` a currency amount. */
  datatype ScenarioAction = ScenarioAction(
    action: ActionType,
    project: string,
    amount: real,
    amountAbsolute: real,
    durationWeeks: int,
    description: string)

  /** The two ways `parse_scenario` raises `ParseError`. */
  datatype ParseError = EmptyInput | Unrecognised(text: string)

  /** An action with the declared defaults for every other field. */
  function NewAction(action: ActionType, project: string): (a: ScenarioAction)
    ensures a.action == action && a.project == project
    ensures a.amount == 0.0 && a.amountAbsolute == 0.0 && a.durationWeeks == 0 && a.description == ""
  {
    ScenarioAction(action, project, 0.0, 0.0, 0, "")
  }

  // ---------------------------------------------------------------------
  // Vocabulary
  // ---------------------------------------------------------------------

  const RemoveVerbs: seq<string> := ["remove", "cancel", "drop", "kill", "delete"]
  const BudgetVerbs: seq<string> := ["increase", "decrease", "reduce", "raise", "boost", "lower"]
  const DecreaseVerbs: seq<string> := ["decrease", "reduce", "lower"]
  const IncreaseVerbs: seq<string> := ["increase", "raise", "boost"]
  const ScopeVerbs: seq<string> := ["cut", "reduce", "trim", "shrink"]
  const DelayVerbs: seq<string> := ["delay", "push back", "postpone", "defer", "extend"]
  const Prepositions: seq<string> := ["for", "of", "on"]
  const Units: seq<string> :=
    ["week", "weeks", "month", "months", "quarter", "quarters", "year", "years", "fortnight", "fortnights"]

  /** Weeks per duration unit. */
  const DurationWeeks: map<string, nat> := map[
    "week" := 1, "weeks" := 1,
    "fortnight" := 2, "fortnights" := 2,
    "month" := 4, "months" := 4,
    "quarter" := 13, "quarters" := 13,
    "year" := 52, "years" := 52]

  // ---------------------------------------------------------------------
  // The regular expressions
  // ---------------------------------------------------------------------

  const Blanks: Re := Rep(Space, 1, true)                     // \s+
  const MaybeBlanks: Re := Rep(Space, 0, true)                // \s*
  const ProjectWord: Re := Opt(Cat(Lit("project"), Blanks))   // (?:project\s+)?
  const TheWord: Re := Opt(Cat(Lit("the"), Blanks))           // (?:the\s+)?
  const Name: Re := Rep(NotNewline, 1, false)                 // .+?
  /** `\d+` */
  const Count: Re := Rep(Digit, 1, true)
  /** `\d+(?:\.\d+)?` */
  const Number: Re := Cat(Count, Opt(Cat(Lit("."), Count)))
  const DigitsOrCommas: set<char> := {'0', '1', '2', '3', '4', '5', '6', '7', '8', '9', ','}
  /** `\d[\d,]*(?:\.\d+)?` */
  const Amount: Re := Cat(Chr(Digit), Cat(Rep(OneOf(DigitsOrCommas), 0, true), Opt(Cat(Lit("."), Count))))
  /** `\s*%` */
  const Percent: Re := Cat(MaybeBlanks, Lit("%"))
  /** `\s+by\s+` */
  const By: Re := Cat(Blanks, Cat(Lit("by"), Blanks))
  /** `\s+(?:project\s+)?` */
  const AfterVerb: Re := Cat(Blanks, ProjectWord)
  /** `\s+(?:the\s+)?<noun>\s+(?:for|of|on)\s+(?:project\s+)?` */
  function NounOf(noun: string): Re {
    Cat(Blanks, Cat(TheWord, Cat(Lit(noun), Cat(Blanks, Cat(Words(Prepositions), AfterVerb)))))
  }
  /** `\s+<noun>\s+by\s+` */
  function NounBy(noun: string): Re {
    Cat(Blanks, Cat(Lit(noun), By))
  }

  /** `(?:remove|...)\s+(?:project\s+)?(.+?)(?:\s+from\s+portfolio)?$`; group 1 is segment 1. */
  const RemovePatterns: seq<seq<Re>> := [[
    Cat(Words(RemoveVerbs), AfterVerb),
    Name,
    Cat(Opt(Cat(Blanks, Cat(Lit("from"), Cat(Blanks, Lit("portfolio"))))), End)]]

  /** The percentage forms, tried first; groups 1, 2, 3 are segments 0, 2, 4. */
  const PctPatterns: seq<seq<Re>> := [
    [Words(BudgetVerbs), AfterVerb, Name, NounBy("budget"), Number, Percent],
    [Words(BudgetVerbs), NounOf("budget"), Name, By, Number, Percent]]

  /** The absolute-amount forms; groups 1, 2, 3 are segments 0, 2, 4. */
  const AbsPatterns: seq<seq<Re>> := [
    [Words(BudgetVerbs), AfterVerb, Name, Cat(NounBy("budget"), Cat(Opt(Chr(OneOf({'£', '$', '€'}))), MaybeBlanks)), Amount],
    [Words(BudgetVerbs), NounOf("budget"), Name, Cat(By, Cat(Opt(Chr(OneOf({'£', '$', '€'}))), MaybeBlanks)), Amount]]

  /** Groups 1 and 2 are segments 1 and 3. */
  const ScopePatterns: seq<seq<Re>> := [
    [Cat(Words(ScopeVerbs), AfterVerb), Name, NounBy("scope"), Number, Percent],
    [Cat(Words(ScopeVerbs), NounOf("scope")), Name, By, Number, Percent]]

  /** Groups 1, 2 and 3 are segments 1, 3 and 5. */
  const DelayPatterns: seq<seq<Re>> := [
    [Cat(Words(DelayVerbs), AfterVerb), Name, By, Count, Blanks, Words(Units)],
    [Cat(Words(DelayVerbs), AfterVerb), Name, Blanks, Count, Blanks, Words(Units)]]

  /** The first pattern of `ps` that matches `s`, with its match. */
  function FirstHit(ps: seq<seq<Re>>, s: string): (r: Option<(nat, seq<nat>)>)
    ensures r.Some? ==> r.value.0 < |ps| && FirstMatch(ps[r.value.0], s) == Some(r.value.1)
    ensures r.Some? ==> forall k :: 0 <= k < r.value.0 ==> FirstMatch(ps[k], s).None?
    ensures r.None? <==> forall k :: 0 <= k < |ps| ==> FirstMatch(ps[k], s).None?
  {
    if ps == [] then None
    else match FirstMatch(ps[0], s)
      case Some(b) => Some((0, b))
      case None =>
        match FirstHit(ps[1..], s)
        case None => None
        case Some((k, b)) => Some((k + 1, b))
  }

  /** The text of segment `k` of the match `b`: `match.group(...)`. */
  function Captured(s: string, b: seq<nat>, k: nat): string {
    if k + 1 < |b| && b[k] <= b[k + 1] <= |s| then s[b[k]..b[k + 1]] else ""
  }

  // ---------------------------------------------------------------------
  // Numbers
  // ---------------------------------------------------------------------

  predicate AllDigits(t: string) {
    forall i :: 0 <= i < |t| ==> IsDigit(t[i])
  }

  /** What `float()` accepts here: digits, optionally a point and more digits. */
  predicate IsDecimal(t: string) {
    if '.' in t then
      var k := IndexOf(t, '.');
      k >= 1 && AllDigits(t[..k]) && k + 1 < |t| && AllDigits(t[k + 1..])
    else |t| >= 1 && AllDigits(t)
  }

  function Pow10(k: nat): (p: nat)
    ensures p >= 1
  {
    if k == 0 then 1 else 10 * Pow10(k - 1)
  }

  /** `float(t)`, exactly. */
  function DecimalValue(t: string): (v: real)
    requires IsDecimal(t)
    ensures v >= 0.0
  {
    if '.' in t then
      var k := IndexOf(t, '.');
      DigitsValue(t[..k]) as real + DigitsValue(t[k + 1..]) as real / Pow10(|t| - k - 1) as real
    else DigitsValue(t) as real
  }

  /** `t.replace(c, "")` */
  function Without(t: string, c: char): (r: string)
    ensures c !in r
    ensures |r| <= |t|
  {
    if t == [] then [] else (if t[0] == c then [] else [t[0]]) + Without(t[1..], c)
  }

  // ---------------------------------------------------------------------
  // The four parsers
  // ---------------------------------------------------------------------

  /** `_parse_remove` */
  function ParseRemove(normalised: string, original: string): Option<ScenarioAction> {
    var s := Strip(normalised);
    match FirstHit(RemovePatterns, s)
    case None => None
    case Some((_, b)) => Some(NewAction(Remove, CleanProjectName(Captured(s, b, 1), original)))
  }

  /** The action of a budget verb. */
  function BudgetAction(verb: string): (a: ActionType)
    ensures a == BudgetDecrease <==> verb in DecreaseVerbs
    ensures a == BudgetIncrease <==> verb !in DecreaseVerbs
  {
    if verb in DecreaseVerbs then BudgetDecrease else BudgetIncrease
  }

  /** `_parse_budget_change`: the percentage forms first, then the absolute forms. */
  function ParseBudget(normalised: string, original: string): Option<ScenarioAction> {
    var s := Strip(normalised);
    match FirstHit(PctPatterns, s)
    case Some((k, b)) =>
      PctFacts(k, s, b);
      var a := NewAction(BudgetAction(Captured(s, b, 0)), CleanProjectName(Captured(s, b, 2), original));
      Some(a.(amount := DecimalValue(Captured(s, b, 4)) / 100.0))
    case None =>
      match FirstHit(AbsPatterns, s)
      case Some((k, b)) =>
        AbsFacts(k, s, b);
        var a := NewAction(BudgetAction(Captured(s, b, 0)), CleanProjectName(Captured(s, b, 2), original));
        Some(a.(amountAbsolute := DecimalValue(Without(Captured(s, b, 4), ','))))
      case None => None
  }

  /** `_parse_scope_cut` */
  function ParseScope(normalised: string, original: string): Option<ScenarioAction> {
    var s := Strip(normalised);
    match FirstHit(ScopePatterns, s)
    case None => None
    case Some((k, b)) =>
      ScopeFacts(k, s, b);
      var a := NewAction(ScopeCut, CleanProjectName(Captured(s, b, 1), original));
      Some(a.(amount := DecimalValue(Captured(s, b, 3)) / 100.0))
  }

  /** Weeks per unit, `DURATION_WEEKS.get(unit, 1)`. */
  function WeeksPerUnit(unit: string): nat {
    if unit in DurationWeeks then DurationWeeks[unit] else 1
  }

  /** `_parse_delay`: the count times the weeks of the unit. */
  function ParseDelay(normalised: string, original: string): Option<ScenarioAction> {
    var s := Strip(normalised);
    match FirstHit(DelayPatterns, s)
    case None => None
    case Some((k, b)) =>
      DelayFacts(k, s, b);
      var a := NewAction(Delay, CleanProjectName(Captured(s, b, 1), original));
      Some(a.(durationWeeks := DigitsValue(Captured(s, b, 3)) * WeeksPerUnit(Lower(Captured(s, b, 5)))))
  }

  /** `parse_scenario`: the first parser that succeeds wins; its description is the stripped input. */
  function ParseScenario(text: string): Result<ScenarioAction, ParseError> {
    var original := Strip(text);
    if original == [] then Failure(EmptyInput)
    else
      var normalised := Lower(original);
      var found :=
        if ParseRemove(normalised, original).Some? then ParseRemove(normalised, original)
        else if ParseBudget(normalised, original).Some? then ParseBudget(normalised, original)
        else if ParseScope(normalised, original).Some? then ParseScope(normalised, original)
        else ParseDelay(normalised, original);
      match found
      case None => Failure(Unrecognised(original))
      case Some(a) => Success(a.(description := original))
  }

  // ---------------------------------------------------------------------
  // What the segments guarantee about the captures
  // ---------------------------------------------------------------------

  lemma {:induction false} CountDigits(s: string, i: nat, j: nat)
    requires InLang(Count, s, i, j)
    ensures i < j && AllDigits(s[i..j])
  {
  }

  /** `IndexOf` finds the first occurrence. */
  lemma IndexOfAt(t: string, c: char, k: nat)
    requires k < |t| && t[k] == c && c !in t[..k]
    ensures IndexOf(t, c) == k
  {
  }

  /** Digits, and digits around one point, are what `float()` reads. */
  lemma DecimalForms(w: string, f: string)
    requires |w| >= 1 && AllDigits(w) && AllDigits(f)
    ensures IsDecimal(w)
    ensures |f| >= 1 ==> IsDecimal(w + ['.'] + f)
  {
    assert forall k | 0 <= k < |w| :: w[k] != '.';
    if |f| >= 1 {
      var t := w + ['.'] + f;
      assert t[..|w|] == w;
      IndexOfAt(t, '.', |w|);
      assert t[|w| + 1..] == f;
    }
  }

  /** The optional fraction of a number: nothing, or a point followed by digits. */
  lemma Fraction(s: string, m: nat, j: nat)
    requires InLang(Opt(Cat(Lit("."), Count)), s, m, j)
    ensures m == j || (m + 1 < j && s[m] == '.' && AllDigits(s[m + 1..j]))
  {
    if m != j {
      var m2 :| m <= m2 <= j && InLang(Lit("."), s, m, m2) && InLang(Count, s, m2, j);
      assert s[m..m2] == ".";
      CountDigits(s, m2, j);
    }
  }

  /** A number is digits, then nothing or a point and more digits. */
  lemma NumberParts(s: string, i: nat, j: nat) returns (m: nat)
    requires InLang(Number, s, i, j)
    ensures i < m <= j <= |s| && AllDigits(s[i..m])
    ensures m == j || (m + 1 < j && s[m] == '.' && AllDigits(s[m + 1..j]))
  {
    m :| i <= m <= j && InLang(Count, s, i, m) && InLang(Opt(Cat(Lit("."), Count)), s, m, j);
    CountDigits(s, i, m);
    Fraction(s, m, j);
  }

  /** Digits, then nothing or a point and more digits, form a decimal. */
  lemma PointDecimal(s: string, i: nat, m: nat, j: nat)
    requires i < m <= j <= |s| && AllDigits(s[i..m])
    requires m == j || (m + 1 < j && s[m] == '.' && AllDigits(s[m + 1..j]))
    ensures IsDecimal(s[i..j])
  {
    if m == j {
      DecimalForms(s[i..j], "");
    } else {
      assert s[i..j] == s[i..m] + ['.'] + s[m + 1..j];
      DecimalForms(s[i..m], s[m + 1..j]);
    }
  }

  lemma NumberDecimal(s: string, i: nat, j: nat)
    requires InLang(Number, s, i, j)
    ensures IsDecimal(s[i..j])
  {
    var m := NumberParts(s, i, j);
    PointDecimal(s, i, m, j);
  }

  lemma {:induction false} WithoutAppend(a: string, b: string, c: char)
    ensures Without(a + b, c) == Without(a, c) + Without(b, c)
  {
    if a != [] {
      assert (a + b)[1..] == a[1..] + b;
      WithoutAppend(a[1..], b, c);
    } else {
      assert a + b == b;
    }
  }

  lemma {:induction false} WithoutKeeps(t: string, c: char)
    ensures forall x :: x in Without(t, c) ==> x in t
    ensures c !in t ==> Without(t, c) == t
  {
    if t != [] {
      WithoutKeeps(t[1..], c);
      assert t == [t[0]] + t[1..];
    }
  }

  /** The integer part of an amount, with its thousands separators removed, is a nonempty run of digits. */
  lemma AmountWhole(s: string, i: nat, m1: nat, m2: nat)
    requires InLang(Chr(Digit), s, i, m1) && InLang(Rep(OneOf(DigitsOrCommas), 0, true), s, m1, m2)
    ensures |Without(s[i..m2], ',')| >= 1 && AllDigits(Without(s[i..m2], ','))
  {
    var tail := s[i + 1..m2];
    var w := Without(s[i..m2], ',');
    assert s[i..m2] == [s[i]] + tail;
    assert w == [s[i]] + Without(tail, ',');
    WithoutKeeps(tail, ',');
    forall k | 0 <= k < |w| ensures IsDigit(w[k]) {
      if k > 0 {
        var x := w[k];
        assert x in Without(tail, ',');
        assert x in tail && x != ',';
        assert x in DigitsOrCommas;
      }
    }
  }

  /** An amount is a digit, a run of digits and commas, and an optional fraction. */
  lemma AmountParts(s: string, i: nat, j: nat) returns (m1: nat, m2: nat)
    requires InLang(Amount, s, i, j)
    ensures i <= m1 <= m2 <= j
    ensures InLang(Chr(Digit), s, i, m1) && InLang(Rep(OneOf(DigitsOrCommas), 0, true), s, m1, m2)
    ensures InLang(Opt(Cat(Lit("."), Count)), s, m2, j)
  {
    m1 :| i <= m1 <= j && InLang(Chr(Digit), s, i, m1)
      && InLang(Cat(Rep(OneOf(DigitsOrCommas), 0, true), Opt(Cat(Lit("."), Count))), s, m1, j);
    m2 :| m1 <= m2 <= j && InLang(Rep(OneOf(DigitsOrCommas), 0, true), s, m1, m2)
      && InLang(Opt(Cat(Lit("."), Count)), s, m2, j);
  }

  lemma {:induction false} AmountDecimal(s: string, i: nat, j: nat)
    requires InLang(Amount, s, i, j)
    ensures IsDecimal(Without(s[i..j], ','))
  {
    var m1, m2 := AmountParts(s, i, j);
    AmountWhole(s, i, m1, m2);
    Fraction(s, m2, j);
    WholeAndFraction(s, i, m2, j);
  }

  /** Digits, then an optional point and digits, read as a decimal once the commas are gone. */
  lemma WholeAndFraction(s: string, i: nat, m: nat, j: nat)
    requires i <= m <= j <= |s|
    requires |Without(s[i..m], ',')| >= 1 && AllDigits(Without(s[i..m], ','))
    requires m == j || (m + 1 < j && s[m] == '.' && AllDigits(s[m + 1..j]))
    ensures IsDecimal(Without(s[i..j], ','))
  {
    if m == j {
      DecimalForms(Without(s[i..m], ','), "");
    } else {
      assert s[i..j] == s[i..m] + (['.'] + s[m + 1..j]);
      PointFraction(s[i..m], s[m + 1..j]);
    }
  }

  lemma PointFraction(whole: string, f: string)
    requires |Without(whole, ',')| >= 1 && AllDigits(Without(whole, ','))
    requires |f| >= 1 && AllDigits(f)
    ensures IsDecimal(Without(whole + (['.'] + f), ','))
  {
    WithoutPoint(whole, f);
    DecimalForms(Without(whole, ','), f);
  }

  /** Removing the commas leaves the point and the digits after it alone. */
  lemma WithoutPoint(whole: string, f: string)
    requires AllDigits(f)
    ensures Without(whole + (['.'] + f), ',') == Without(whole, ',') + ['.'] + f
  {
    var pf := ['.'] + f;
    FractionWithout(f);
    WithoutAppend(whole, pf, ',');
    var w := Without(whole, ',');
    assert w + pf == w + ['.'] + f;
  }

  lemma FractionWithout(f: string)
    requires AllDigits(f)
    ensures Without(['.'] + f, ',') == ['.'] + f
  {
    assert forall k | 0 <= k < |['.'] + f| :: (['.'] + f)[k] != ',';
    WithoutKeeps(['.'] + f, ',');
  }

  /** `s` starts with one of the words `ws`. */
  ghost predicate LeadsWith(ws: seq<string>, s: string) {
    exists w :: w in ws && w <= s
  }

  /** A pattern that starts with a word alternation matches only text that starts with one of the words. */
  lemma LeadWord(ws: seq<string>, rest: Re, s: string, j: nat)
    requires ws != [] && InLang(Cat(Words(ws), rest), s, 0, j)
    ensures LeadsWith(ws, s)
  {
    var m :| 0 <= m <= j && InLang(Words(ws), s, 0, m) && InLang(rest, s, m, j);
    WordsLang(ws, s, 0, m);
    assert s[0..m] <= s;
  }

  /** A split of a pattern whose first segment starts with a word alternation begins with one of the words. */
  lemma SplitsLead(p: seq<Re>, ws: seq<string>, rest: Re, s: string, b: seq<nat>)
    requires |p| >= 1 && ws != [] && p[0] == Cat(Words(ws), rest)
    requires Splits(p, s, b) && b[0] == 0
    ensures LeadsWith(ws, s)
  {
    assert InLang(p[0], s, b[0], b[1]);
    LeadWord(ws, rest, s, b[1]);
  }

  /** Every pattern of `pss` starts with the word alternation `ws`. */
  predicate HeadsWith(pss: seq<seq<Re>>, ws: seq<string>) {
    ws != [] && forall k :: 0 <= k < |pss| ==> |pss[k]| >= 1 && pss[k][0].Cat? && pss[k][0].a == Words(ws)
  }

  // The removal, scope and delay patterns each start with their verbs.

  lemma RemoveHeads()
    ensures HeadsWith(RemovePatterns, RemoveVerbs)
  {
  }

  lemma ScopeHeads()
    ensures HeadsWith(ScopePatterns, ScopeVerbs)
  {
  }

  lemma DelayHeads()
    ensures HeadsWith(DelayPatterns, DelayVerbs)
  {
  }

  /** Text that a list of such patterns matches begins with one of the words. */
  lemma MatchesLead(pss: seq<seq<Re>>, ws: seq<string>, s: string)
    requires HeadsWith(pss, ws) && Matches(pss, s)
    ensures LeadsWith(ws, s)
  {
    var k :| 0 <= k < |pss| && FirstMatch(pss[k], s).Some?;
    FirstMatchSplits(pss[k], s);
    var p := pss[k];
    SplitsLead(p, ws, p[0].b, s, FirstMatch(p, s).value);
  }

  lemma RemoveFacts(k: nat, s: string, b: seq<nat>)
    requires k < |RemovePatterns| && FirstMatch(RemovePatterns[k], s) == Some(b)
    ensures |b| == 4 && b[0] == 0
    ensures LeadsWith(RemoveVerbs, s)
    ensures Contains(s, Captured(s, b, 1))
  {
    FirstMatchSplits(RemovePatterns[k], s);
    assert RemovePatterns[k][0] == Cat(Words(RemoveVerbs), AfterVerb);
    LeadWord(RemoveVerbs, AfterVerb, s, b[1]);
    assert InLang(RemovePatterns[k][1], s, b[1], b[2]);
    ContainsSlice(s, b[1], b[2]);
  }

  /** What the segments of a percentage budget pattern capture, for any pattern of that shape. */
  lemma PctCaptures(p: seq<Re>, s: string, b: seq<nat>)
    requires |p| == 6 && p[0] == Words(BudgetVerbs) && p[4] == Number
    requires Splits(p, s, b) && b[0] == 0
    ensures Captured(s, b, 0) <= s && Captured(s, b, 0) in BudgetVerbs
    ensures Contains(s, Captured(s, b, 2))
    ensures IsDecimal(Captured(s, b, 4)) && Contains(s, Captured(s, b, 4))
  {
    assert InLang(p[0], s, b[0], b[1]) && InLang(p[2], s, b[2], b[3]) && InLang(p[4], s, b[4], b[5]);
    WordsLang(BudgetVerbs, s, b[0], b[1]);
    NumberDecimal(s, b[4], b[5]);
    ContainsSlice(s, b[2], b[3]);
    ContainsSlice(s, b[4], b[5]);
  }

  lemma PctFacts(k: nat, s: string, b: seq<nat>)
    requires k < |PctPatterns| && FirstMatch(PctPatterns[k], s) == Some(b)
    ensures |b| == 7 && b[0] == 0
    ensures Captured(s, b, 0) <= s && Captured(s, b, 0) in BudgetVerbs
    ensures Contains(s, Captured(s, b, 2))
    ensures IsDecimal(Captured(s, b, 4)) && Contains(s, Captured(s, b, 4))
  {
    FirstMatchSplits(PctPatterns[k], s);
    PctCaptures(PctPatterns[k], s, b);
  }

  /** What the segments of an absolute budget pattern capture, for any pattern of that shape. */
  lemma AbsCaptures(p: seq<Re>, s: string, b: seq<nat>)
    requires |p| == 5 && p[0] == Words(BudgetVerbs) && p[4] == Amount
    requires Splits(p, s, b) && b[0] == 0
    ensures Captured(s, b, 0) <= s && Captured(s, b, 0) in BudgetVerbs
    ensures Contains(s, Captured(s, b, 2))
    ensures IsDecimal(Without(Captured(s, b, 4), ',')) && Contains(s, Captured(s, b, 4))
  {
    assert InLang(p[0], s, b[0], b[1]) && InLang(p[2], s, b[2], b[3]) && InLang(p[4], s, b[4], b[5]);
    WordsLang(BudgetVerbs, s, b[0], b[1]);
    AmountDecimal(s, b[4], b[5]);
    ContainsSlice(s, b[2], b[3]);
    ContainsSlice(s, b[4], b[5]);
  }

  lemma AbsFacts(k: nat, s: string, b: seq<nat>)
    requires k < |AbsPatterns| && FirstMatch(AbsPatterns[k], s) == Some(b)
    ensures |b| == 6 && b[0] == 0
    ensures Captured(s, b, 0) <= s && Captured(s, b, 0) in BudgetVerbs
    ensures Contains(s, Captured(s, b, 2))
    ensures IsDecimal(Without(Captured(s, b, 4), ',')) && Contains(s, Captured(s, b, 4))
  {
    FirstMatchSplits(AbsPatterns[k], s);
    AbsCaptures(AbsPatterns[k], s, b);
  }

  /** What the segments of a scope pattern capture, for any pattern of that shape. */
  lemma ScopeCaptures(p: seq<Re>, rest: Re, s: string, b: seq<nat>)
    requires |p| == 5 && p[0] == Cat(Words(ScopeVerbs), rest) && p[3] == Number
    requires Splits(p, s, b) && b[0] == 0
    ensures LeadsWith(ScopeVerbs, s)
    ensures Contains(s, Captured(s, b, 1))
    ensures IsDecimal(Captured(s, b, 3)) && Contains(s, Captured(s, b, 3))
  {
    assert InLang(p[0], s, b[0], b[1]) && InLang(p[1], s, b[1], b[2]) && InLang(p[3], s, b[3], b[4]);
    LeadWord(ScopeVerbs, rest, s, b[1]);
    NumberDecimal(s, b[3], b[4]);
    ContainsSlice(s, b[1], b[2]);
    ContainsSlice(s, b[3], b[4]);
  }

  lemma ScopeFacts(k: nat, s: string, b: seq<nat>)
    requires k < |ScopePatterns| && FirstMatch(ScopePatterns[k], s) == Some(b)
    ensures |b| == 6 && b[0] == 0
    ensures LeadsWith(ScopeVerbs, s)
    ensures Contains(s, Captured(s, b, 1))
    ensures IsDecimal(Captured(s, b, 3)) && Contains(s, Captured(s, b, 3))
  {
    FirstMatchSplits(ScopePatterns[k], s);
    if k == 0 {
      ScopeCaptures(ScopePatterns[k], AfterVerb, s, b);
    } else {
      ScopeCaptures(ScopePatterns[k], NounOf("scope"), s, b);
    }
  }

  /** What the segments of a delay pattern capture, for any pattern of that shape. */
  lemma DelayCaptures(p: seq<Re>, s: string, b: seq<nat>)
    requires |p| == 6 && p[0] == Cat(Words(DelayVerbs), AfterVerb) && p[3] == Count && p[5] == Words(Units)
    requires Splits(p, s, b) && b[0] == 0
    ensures LeadsWith(DelayVerbs, s)
    ensures Contains(s, Captured(s, b, 1))
    ensures AllDigits(Captured(s, b, 3)) && Captured(s, b, 3) != [] && Contains(s, Captured(s, b, 3))
    ensures Captured(s, b, 5) in Units && Contains(s, Captured(s, b, 5))
  {
    assert InLang(p[0], s, b[0], b[1]) && InLang(p[1], s, b[1], b[2]);
    assert InLang(p[3], s, b[3], b[4]) && InLang(p[5], s, b[5], b[6]);
    LeadWord(DelayVerbs, AfterVerb, s, b[1]);
    CountDigits(s, b[3], b[4]);
    WordsLang(Units, s, b[5], b[6]);
    ContainsSlice(s, b[1], b[2]);
    ContainsSlice(s, b[3], b[4]);
    ContainsSlice(s, b[5], b[6]);
  }

  lemma DelayFacts(k: nat, s: string, b: seq<nat>)
    requires k < |DelayPatterns| && FirstMatch(DelayPatterns[k], s) == Some(b)
    ensures |b| == 7 && b[0] == 0
    ensures LeadsWith(DelayVerbs, s)
    ensures Contains(s, Captured(s, b, 1))
    ensures AllDigits(Captured(s, b, 3)) && Captured(s, b, 3) != [] && Contains(s, Captured(s, b, 3))
    ensures Captured(s, b, 5) in Units && Contains(s, Captured(s, b, 5))
  {
    FirstMatchSplits(DelayPatterns[k], s);
    DelayCaptures(DelayPatterns[k], s, b);
  }

  // ---------------------------------------------------------------------
  // What each parser promises
  // ---------------------------------------------------------------------

  /** Some pattern of the list `pss` matches `s` (with `re.match`). */
  ghost predicate Matches(pss: seq<seq<Re>>, s: string) {
    exists k :: 0 <= k < |pss| && FirstMatch(pss[k], s).Some?
  }

  lemma FirstHitMatches(pss: seq<seq<Re>>, s: string)
    ensures FirstHit(pss, s).Some? <==> Matches(pss, s)
  {
    if FirstHit(pss, s).Some? {
      assert FirstMatch(pss[FirstHit(pss, s).value.0], s).Some?;
    }
  }

  /** Two prefixes of one string are prefixes of each other. */
  lemma PrefixesComparable(a: string, b: string, s: string)
    requires a <= s && b <= s
    ensures a <= b || b <= a
  {
    if |a| <= |b| {
      assert a == s[..|a|] == b[..|a|];
    } else {
      assert b == s[..|b|] == a[..|b|];
    }
  }

  /** No increase verb is a prefix of a decrease verb, nor the other way round. */
  lemma BudgetVerbsApart(x: string, y: string)
    requires x in DecreaseVerbs && y in IncreaseVerbs
    ensures !(x <= y) && !(y <= x)
  {
    assert |x| >= 2 && |y| >= 2 && (x[0] != y[0] || x[1] != y[1]);
  }

  /** The project is always found again in the original text (the first branch of `_clean_project_name`). */
  lemma NameFromOriginal(s: string, b: seq<nat>, k: nat, n: string, original: string)
    requires s == Strip(n) && n == Lower(original) && Contains(s, Captured(s, b, k))
    ensures Contains(original, CleanProjectName(Captured(s, b, k), original))
  {
    NameInOriginal(Captured(s, b, k), original);
  }

  /** `s` starts with one of the verbs that introduce the action `a`. */
  ghost predicate VerbLeads(a: ActionType, s: string) {
    match a
    case BudgetIncrease => LeadsWith(IncreaseVerbs, s)
    case BudgetDecrease => LeadsWith(DecreaseVerbs, s)
    case ScopeCut => LeadsWith(ScopeVerbs, s)
    case Delay => LeadsWith(DelayVerbs, s)
    case Remove => LeadsWith(RemoveVerbs, s)
  }

  /** `x` is a percentage written in `s`, as a fraction. */
  ghost predicate PercentIn(x: real, s: string) {
    exists num :: IsDecimal(num) && Contains(s, num) && x == DecimalValue(num) / 100.0
  }

  /** `x` is an amount written in `s`, read without its thousands separators. */
  ghost predicate AmountIn(x: real, s: string) {
    exists num :: IsDecimal(Without(num, ',')) && Contains(s, num) && x == DecimalValue(Without(num, ','))
  }

  /** `w` is a count written in `s` times the weeks of a unit written in `s`. */
  ghost predicate WeeksIn(w: int, s: string) {
    exists count, unit ::
      && |count| >= 1 && AllDigits(count) && Contains(s, count)
      && unit in Units && Contains(s, unit)
      && w == DigitsValue(count) * DurationWeeks[unit]
  }

  lemma PercentWitness(num: string, x: real, s: string)
    requires IsDecimal(num) && Contains(s, num) && x == DecimalValue(num) / 100.0
    ensures PercentIn(x, s)
  {
  }

  lemma AmountWitness(num: string, x: real, s: string)
    requires IsDecimal(Without(num, ',')) && Contains(s, num) && x == DecimalValue(Without(num, ','))
    ensures AmountIn(x, s)
  {
  }

  lemma WeeksWitness(count: string, unit: string, w: int, s: string)
    requires |count| >= 1 && AllDigits(count) && Contains(s, count)
    requires unit in Units && Contains(s, unit)
    requires w == DigitsValue(count) * DurationWeeks[unit]
    ensures WeeksIn(w, s)
  {
  }

  /**
   * The numbers of an action read from `s`: a percentage becomes a
   * fraction, an absolute budget amount is read without its commas, a
   * delay is the count times the weeks of its unit, and every other field
   * keeps its default.
   */
  ghost predicate NumbersRead(a: ScenarioAction, s: string) {
    match a.action
    case Remove =>
      a.amount == 0.0 && a.amountAbsolute == 0.0 && a.durationWeeks == 0
    case ScopeCut =>
      a.amountAbsolute == 0.0 && a.durationWeeks == 0 && PercentIn(a.amount, s)
    case Delay =>
      a.amount == 0.0 && a.amountAbsolute == 0.0 && WeeksIn(a.durationWeeks, s)
    case _ =>
      && a.durationWeeks == 0
      && (Matches(PctPatterns, s) ==> a.amountAbsolute == 0.0 && PercentIn(a.amount, s))
      && (!Matches(PctPatterns, s) ==> a.amount == 0.0 && AmountIn(a.amountAbsolute, s))
  }

  // _parse_remove

  lemma RemoveMatches(n: string, original: string)
    ensures ParseRemove(n, original).Some? <==> Matches(RemovePatterns, Strip(n))
    ensures ParseRemove(n, original).Some? ==> ParseRemove(n, original).value.action == Remove
  {
    FirstHitMatches(RemovePatterns, Strip(n));
  }

  /** A sentence the remove patterns match starts with one of their verbs. */
  lemma RemoveVerbLeads(s: string)
    requires Matches(RemovePatterns, s)
    ensures VerbLeads(Remove, s)
  {
    RemoveHeads();
    MatchesLead(RemovePatterns, RemoveVerbs, s);
  }

  lemma RemoveNumbers(n: string, original: string)
    requires ParseRemove(n, original).Some?
    ensures NumbersRead(ParseRemove(n, original).value, Strip(n))
  {
  }

  lemma RemoveName(n: string, original: string)
    requires n == Lower(original) && ParseRemove(n, original).Some?
    ensures Contains(original, ParseRemove(n, original).value.project)
  {
    var s := Strip(n);
    match FirstHit(RemovePatterns, s)
    case Some((k, b)) =>
      RemoveFacts(k, s, b);
      NameFromOriginal(s, b, 1, n, original);
  }

  // _parse_budget_change

  lemma BudgetMatches(n: string, original: string)
    ensures ParseBudget(n, original).Some? <==> Matches(PctPatterns, Strip(n)) || Matches(AbsPatterns, Strip(n))
    ensures ParseBudget(n, original).Some? ==>
      ParseBudget(n, original).value.action in {BudgetIncrease, BudgetDecrease}
  {
    FirstHitMatches(PctPatterns, Strip(n));
    FirstHitMatches(AbsPatterns, Strip(n));
  }

  /** The captured budget verb is one of the verbs of the action it selects. */
  lemma BudgetVerbOf(v: string, s: string)
    requires v in BudgetVerbs && v <= s
    ensures VerbLeads(BudgetAction(v), s)
  {
    if v in DecreaseVerbs {
      assert LeadsWith(DecreaseVerbs, s);
    } else {
      assert v in IncreaseVerbs;
      assert LeadsWith(IncreaseVerbs, s);
    }
  }

  lemma BudgetVerbLeads(n: string, original: string)
    requires ParseBudget(n, original).Some?
    ensures VerbLeads(ParseBudget(n, original).value.action, Strip(n))
  {
    var s := Strip(n);
    match FirstHit(PctPatterns, s)
    case Some((k, b)) =>
      PctFacts(k, s, b);
      BudgetVerbOf(Captured(s, b, 0), s);
    case None =>
      match FirstHit(AbsPatterns, s)
      case Some((k, b)) =>
        AbsFacts(k, s, b);
        BudgetVerbOf(Captured(s, b, 0), s);
  }

  lemma BudgetNumbers(n: string, original: string)
    requires ParseBudget(n, original).Some?
    ensures NumbersRead(ParseBudget(n, original).value, Strip(n))
  {
    var s := Strip(n);
    FirstHitMatches(PctPatterns, s);
    match FirstHit(PctPatterns, s)
    case Some((k, b)) =>
      PctFacts(k, s, b);
      PercentWitness(Captured(s, b, 4), ParseBudget(n, original).value.amount, s);
    case None =>
      match FirstHit(AbsPatterns, s)
      case Some((k, b)) =>
        AbsFacts(k, s, b);
        AmountWitness(Captured(s, b, 4), ParseBudget(n, original).value.amountAbsolute, s);
  }

  lemma BudgetName(n: string, original: string)
    requires n == Lower(original) && ParseBudget(n, original).Some?
    ensures Contains(original, ParseBudget(n, original).value.project)
  {
    var s := Strip(n);
    match FirstHit(PctPatterns, s)
    case Some((k, b)) =>
      PctFacts(k, s, b);
      NameFromOriginal(s, b, 2, n, original);
    case None =>
      match FirstHit(AbsPatterns, s)
      case Some((k, b)) =>
        AbsFacts(k, s, b);
        NameFromOriginal(s, b, 2, n, original);
  }

  /** No text starts with both an increase verb and a decrease verb. */
  lemma BudgetVerbsExclusive(s: string)
    ensures !(VerbLeads(BudgetIncrease, s) && VerbLeads(BudgetDecrease, s))
  {
    if VerbLeads(BudgetIncrease, s) && VerbLeads(BudgetDecrease, s) {
      var x :| x in DecreaseVerbs && x <= s;
      var y :| y in IncreaseVerbs && y <= s;
      PrefixesComparable(x, y, s);
      BudgetVerbsApart(x, y);
    }
  }

  // _parse_scope_cut

  lemma ScopeMatches(n: string, original: string)
    ensures ParseScope(n, original).Some? <==> Matches(ScopePatterns, Strip(n))
    ensures ParseScope(n, original).Some? ==> ParseScope(n, original).value.action == ScopeCut
  {
    FirstHitMatches(ScopePatterns, Strip(n));
  }

  /** A sentence the scope patterns match starts with one of their verbs. */
  lemma ScopeVerbLeads(s: string)
    requires Matches(ScopePatterns, s)
    ensures VerbLeads(ScopeCut, s)
  {
    ScopeHeads();
    MatchesLead(ScopePatterns, ScopeVerbs, s);
  }

  lemma ScopeNumbers(n: string, original: string)
    requires ParseScope(n, original).Some?
    ensures NumbersRead(ParseScope(n, original).value, Strip(n))
  {
    var s := Strip(n);
    match FirstHit(ScopePatterns, s)
    case Some((k, b)) =>
      ScopeFacts(k, s, b);
      PercentWitness(Captured(s, b, 3), ParseScope(n, original).value.amount, s);
  }

  lemma ScopeName(n: string, original: string)
    requires n == Lower(original) && ParseScope(n, original).Some?
    ensures Contains(original, ParseScope(n, original).value.project)
  {
    var s := Strip(n);
    match FirstHit(ScopePatterns, s)
    case Some((k, b)) =>
      ScopeFacts(k, s, b);
      NameFromOriginal(s, b, 1, n, original);
  }

  // _parse_delay

  lemma DelayMatches(n: string, original: string)
    ensures ParseDelay(n, original).Some? <==> Matches(DelayPatterns, Strip(n))
    ensures ParseDelay(n, original).Some? ==> ParseDelay(n, original).value.action == Delay
  {
    FirstHitMatches(DelayPatterns, Strip(n));
  }

  /** A sentence the delay patterns match starts with one of their verbs. */
  lemma DelayVerbLeads(s: string)
    requires Matches(DelayPatterns, s)
    ensures VerbLeads(Delay, s)
  {
    DelayHeads();
    MatchesLead(DelayPatterns, DelayVerbs, s);
  }

  /** Every unit the patterns accept has an entry in the table, so the default of 1 is never used. */
  lemma UnitsHaveWeeks(u: string)
    requires u in Units
    ensures Lower(u) == u && u in DurationWeeks && WeeksPerUnit(Lower(u)) == DurationWeeks[u]
  {
    assert IsLowerCase(u);
    LowerOfLowerCase(u);
  }

  lemma DelayNumbers(n: string, original: string)
    requires ParseDelay(n, original).Some?
    ensures NumbersRead(ParseDelay(n, original).value, Strip(n))
  {
    var s := Strip(n);
    match FirstHit(DelayPatterns, s)
    case Some((k, b)) =>
      DelayFacts(k, s, b);
      UnitsHaveWeeks(Captured(s, b, 5));
      WeeksWitness(Captured(s, b, 3), Captured(s, b, 5), ParseDelay(n, original).value.durationWeeks, s);
  }

  lemma DelayName(n: string, original: string)
    requires n == Lower(original) && ParseDelay(n, original).Some?
    ensures Contains(original, ParseDelay(n, original).value.project)
  {
    var s := Strip(n);
    match FirstHit(DelayPatterns, s)
    case Some((k, b)) =>
      DelayFacts(k, s, b);
      NameFromOriginal(s, b, 1, n, original);
  }

  // ---------------------------------------------------------------------
  // What parse_scenario promises
  // ---------------------------------------------------------------------

  /** The text the patterns see: the input stripped, lower-cased and stripped again. */
  function Normalised(text: string): string {
    Strip(Lower(Strip(text)))
  }

  /** Only blank input is rejected as empty. */
  lemma ParseEmpty(text: string)
    ensures ParseScenario(text) == Failure(EmptyInput) <==> IsBlank(text)
  {
    BlankIffStripEmpty(text);
  }

  /**
   * The parsers are tried in order: removal, budget change, scope cut,
   * delay; the first whose patterns match decides the action, and text
   * that none of them matches is rejected with the stripped input.
   */
  lemma ParseDispatch(text: string)
    requires !IsBlank(text)
    ensures var r := ParseScenario(text); var s := Normalised(text);
      && (r.Success? && r.value.action == Remove <==> Matches(RemovePatterns, s))
      && (r.Success? && r.value.action in {BudgetIncrease, BudgetDecrease} <==>
            !Matches(RemovePatterns, s) && (Matches(PctPatterns, s) || Matches(AbsPatterns, s)))
      && (r.Success? && r.value.action == ScopeCut <==>
            !Matches(RemovePatterns, s) && !Matches(PctPatterns, s) && !Matches(AbsPatterns, s)
            && Matches(ScopePatterns, s))
      && (r.Success? && r.value.action == Delay <==>
            !Matches(RemovePatterns, s) && !Matches(PctPatterns, s) && !Matches(AbsPatterns, s)
            && !Matches(ScopePatterns, s) && Matches(DelayPatterns, s))
      && (r == Failure(Unrecognised(Strip(text))) <==>
            !Matches(RemovePatterns, s) && !Matches(PctPatterns, s) && !Matches(AbsPatterns, s)
            && !Matches(ScopePatterns, s) && !Matches(DelayPatterns, s))
  {
    BlankIffStripEmpty(text);
    var n := Lower(Strip(text));
    RemoveMatches(n, Strip(text));
    BudgetMatches(n, Strip(text));
    ScopeMatches(n, Strip(text));
    DelayMatches(n, Strip(text));
  }

  /**
   * A parsed action describes itself with the stripped input and names a
   * project that is a piece of that input in its original case.
   */
  lemma ParseResult(text: string)
    ensures var r := ParseScenario(text);
      r.Success? ==> r.value.description == Strip(text) && Contains(Strip(text), r.value.project)
  {
    var o := Strip(text);
    var n := Lower(o);
    if o == [] {
    } else if ParseRemove(n, o).Some? {
      RemoveName(n, o);
    } else if ParseBudget(n, o).Some? {
      BudgetName(n, o);
    } else if ParseScope(n, o).Some? {
      ScopeName(n, o);
    } else if ParseDelay(n, o).Some? {
      DelayName(n, o);
    }
  }

  /** The kind of a parsed action agrees with the verb its sentence starts with. */
  lemma ParseVerb(text: string)
    ensures var r := ParseScenario(text);
      r.Success? ==> VerbLeads(r.value.action, Normalised(text))
  {
    var o := Strip(text);
    var n := Lower(o);
    if o == [] {
    } else if ParseRemove(n, o).Some? {
      RemoveMatches(n, o);
      RemoveVerbLeads(Strip(n));
    } else if ParseBudget(n, o).Some? {
      BudgetVerbLeads(n, o);
    } else if ParseScope(n, o).Some? {
      ScopeMatches(n, o);
      ScopeVerbLeads(Strip(n));
    } else if ParseDelay(n, o).Some? {
      DelayMatches(n, o);
      DelayVerbLeads(Strip(n));
    }
  }

  /** A budget change is a decrease exactly when the sentence starts with a decrease verb. */
  lemma ParseBudgetDirection(text: string)
    ensures var r := ParseScenario(text); var s := Normalised(text);
      r.Success? && r.value.action in {BudgetIncrease, BudgetDecrease} ==>
        && (r.value.action == BudgetDecrease <==> VerbLeads(BudgetDecrease, s))
        && (r.value.action == BudgetIncrease <==> VerbLeads(BudgetIncrease, s))
  {
    ParseVerb(text);
    BudgetVerbsExclusive(Normalised(text));
  }

  lemma KeepsNumbers(a: ScenarioAction, d: string, s: string)
    requires NumbersRead(a, s)
    ensures NumbersRead(a.(description := d), s)
  {
  }

  /** The numbers of a parsed action are read from the normalised sentence as `NumbersRead` says. */
  lemma ParseFields(text: string)
    ensures var r := ParseScenario(text);
      r.Success? ==> NumbersRead(r.value, Normalised(text))
  {
    var o := Strip(text);
    var n := Lower(o);
    if o == [] {
    } else if ParseRemove(n, o).Some? {
      RemoveNumbers(n, o);
      KeepsNumbers(ParseRemove(n, o).value, o, Strip(n));
    } else if ParseBudget(n, o).Some? {
      BudgetNumbers(n, o);
      KeepsNumbers(ParseBudget(n, o).value, o, Strip(n));
    } else if ParseScope(n, o).Some? {
      ScopeNumbers(n, o);
      KeepsNumbers(ParseScope(n, o).value, o, Strip(n));
    } else if ParseDelay(n, o).Some? {
      DelayNumbers(n, o);
      KeepsNumbers(ParseDelay(n, o).value, o, Strip(n));
    }
  }
}
