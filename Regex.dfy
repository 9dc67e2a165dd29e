/** The regular expressions of the analysers.

    Patterns whose meaning is only "find this shape" (e-mail addresses, phone
    numbers, date ranges, ...) are named by `Pattern` and evaluated by an
    `Engine` supplied by the caller: the engine lists the non-overlapping
    matches of a pattern left to right, as `re.findall` / `re.finditer` do, and
    a search is its first match. Every model keeps the order in which the
    source tries its patterns and takes the first match where the source does.

    The patterns that are plain literals between word boundaries, runs of
    digits or letters, or single character classes are defined here
    concretely, with `\w` read as ASCII letters, digits and `_`. */
module Regex {

  import opened Wrappers
  import opened Text
  import opened Seqs

  datatype Pattern =
    | EmailAddress          // \b[A-Za-z0-9._%+-]+@[A-Za-z0-9.-]+\.[A-Z|a-z]{2,}\b
    | PhoneUs               // \b\d{3}[-.]?\d{3}[-.]?\d{4}\b
    | PhoneParenthesised    // \(\d{3}\)\s*\d{3}[-.]?\d{4}
    | PhoneInternational    // \+\d{1,3}[-.\s]?\d{1,4}[-.\s]?\d{1,4}[-.\s]?\d{1,9}
    | LinkedInProfile       // linkedin\.com/in/[\w-]+, ignoring case
    | GitHubProfile         // github\.com/[\w-]+, ignoring case
    | DateRangeYears        // (\d{4})\s*[-–]\s*(\d{4}|present), ignoring case
    | DateRangeMonthYear    // (\w+\s+\d{4})\s*[-–]\s*(\w+\s+\d{4}|present), ignoring case
    | DateRangeNumeric      // (\d{1,2}/\d{4})\s*[-–]\s*(\d{1,2}/\d{4}|present), ignoring case
    | BulletItem            // [•\-\*]\s*(.+)
    | GpaValue              // gpa[:\s]*(\d\.\d+), ignoring case
    | LayoutTables          // <table|<td|<tr, ignoring case
    | LayoutImages          // <img|!\[.*\]\(, ignoring case
    | LayoutGraphics        // <svg|<canvas, ignoring case
    | LayoutTextBoxes       // <div.*position.*absolute, ignoring case
    | LayoutColumns         // column-count|display.*flex.*column, ignoring case
    | DateToken             // \b\d{4}\b|\b\w+\s+\d{4}\b
    | QuantifiedAchievement // \b\d+%|\b\d+\+|\$\d+|\b\d+x\b
    | YearsOfExperience     // (\d+)\s*(?:years?|yrs?)\s*(?:of\s*)?(?:experience|exp), ignoring case
    | YearsThenExperience   // (\d+)\+?\s*(?:years?|yrs?)\s*(?:of)?\s*(?:experience|exp)
    | ExperienceThenYears   // experience\s*[:–-]?\s*(\d+)\+?\s*(?:years?|yrs?)
    | StreetAddress         // \b\d{1,5}\s+[\w\s]+(?:street|st|...|cir)\b, ignoring case

  /** One match: the matched slice `s[start..end]` and the captured groups,
      group 1 first. */
  datatype Span = Span(start: nat, end: nat, groups: seq<string>)

  /** The non-overlapping matches of a pattern in a text, left to right. */
  type Engine = (Pattern, string) -> seq<Span>

  /** `m.group(0)`. */
  function Matched(s: string, m: Span): string {
    if m.start <= m.end <= |s| then s[m.start..m.end] else []
  }

  /** `m.group(k)` for `k >= 1`. */
  function Group(m: Span, k: nat): string {
    if 1 <= k <= |m.groups| then m.groups[k - 1] else []
  }

  /** `re.search(p, s)`. */
  function Search(eng: Engine, p: Pattern, s: string): (r: Option<Span>)
    ensures r.Some? <==> |eng(p, s)| > 0
    ensures r.Some? ==> r.value == eng(p, s)[0]
  {
    var ms := eng(p, s);
    if |ms| == 0 then None else Some(ms[0])
  }

  /** Whether a pattern matches anywhere in `s`. */
  function HasMatch(eng: Engine, s: string): Pattern -> bool {
    (p: Pattern) => |eng(p, s)| > 0
  }

  /** Trying a list of patterns in order and keeping the first match of the
      first pattern that matches at all. */
  function FirstMatching(eng: Engine, ps: seq<Pattern>, s: string): (r: Option<Span>)
    ensures r.None? <==> forall j :: 0 <= j < |ps| ==> eng(ps[j], s) == []
    ensures r.Some? ==> exists k :: 0 <= k < |ps| && |eng(ps[k], s)| > 0 && r.value == eng(ps[k], s)[0]
                          && forall j :: 0 <= j < k ==> eng(ps[j], s) == []
  {
    var k := FirstFrom(ps, 0, HasMatch(eng, s));
    if k == |ps| then None else Some(eng(ps[k], s)[0])
  }

  /** `re.findall(p, s)` for a pattern without groups. */
  function FindAll(eng: Engine, p: Pattern, s: string): (r: seq<string>)
    ensures |r| == |eng(p, s)|
    ensures forall i :: 0 <= i < |r| ==> r[i] == Matched(s, eng(p, s)[i])
  {
    var ms := eng(p, s);
    seq(|ms|, i requires 0 <= i < |ms| => Matched(s, ms[i]))
  }

  /** `re.findall(p, s)` for a pattern with exactly one group. */
  function FindAllGroup(eng: Engine, p: Pattern, s: string): (r: seq<string>)
    ensures |r| == |eng(p, s)|
    ensures forall i :: 0 <= i < |r| ==> r[i] == Group(eng(p, s)[i], 1)
  {
    var ms := eng(p, s);
    seq(|ms|, i requires 0 <= i < |ms| => Group(ms[i], 1))
  }

  /** The matches are in the text, left to right, and do not overlap. */
  predicate Ordered(s: string, ms: seq<Span>) {
    (forall i :: 0 <= i < |ms| ==> ms[i].start <= ms[i].end <= |s|)
    && (forall i :: 0 <= i < |ms| - 1 ==> ms[i].end <= ms[i + 1].start)
  }

  /** `re.sub(p, repl, s)`, the text from position `from` on; a match that
      does not lie after `from` is ignored. */
  function SubFrom(s: string, ms: seq<Span>, repl: string, from: nat): string
    decreases |ms|
  {
    if ms == [] then (if from <= |s| then s[from..] else [])
    else if from <= ms[0].start <= ms[0].end <= |s| then
      s[from..ms[0].start] + repl + SubFrom(s, ms[1..], repl, ms[0].end)
    else SubFrom(s, ms[1..], repl, from)
  }

  function Sub(eng: Engine, p: Pattern, repl: string, s: string): string {
    SubFrom(s, eng(p, s), repl, 0)
  }

  /** The text left between the matches, from position `from` on: what
      `re.split(p, s)` returns. */
  function GapsFrom(s: string, ms: seq<Span>, from: nat): (r: seq<string>)
    ensures |r| >= 1
    decreases |ms|
  {
    if ms == [] then [if from <= |s| then s[from..] else []]
    else if from <= ms[0].start <= ms[0].end <= |s| then
      [s[from..ms[0].start]] + GapsFrom(s, ms[1..], ms[0].end)
    else GapsFrom(s, ms[1..], from)
  }

  /** Substituting is splitting at the matches and joining the pieces with
      the replacement: everything outside the matches is kept, in order, and
      each match becomes exactly one copy of `repl`. */
  lemma {:induction false} SubIsJoinOfGaps(s: string, ms: seq<Span>, repl: string, from: nat)
    ensures SubFrom(s, ms, repl, from) == Join(repl, GapsFrom(s, ms, from))
    decreases |ms|
  {
    if ms != [] {
      SubIsJoinOfGaps(s, ms[1..], repl, if from <= ms[0].start <= ms[0].end <= |s| then ms[0].end else from);
      if from <= ms[0].start <= ms[0].end <= |s| {
        var rest := GapsFrom(s, ms[1..], ms[0].end);
        assert GapsFrom(s, ms, from) == [s[from..ms[0].start]] + rest;
        assert ([s[from..ms[0].start]] + rest)[1..] == rest;
      }
    }
  }

  /** With no match, substitution leaves the text as it is. */
  lemma SubNoMatch(eng: Engine, p: Pattern, repl: string, s: string)
    requires eng(p, s) == []
    ensures Sub(eng, p, repl, s) == s
  {
  }

  // ------------------------------------------------------ word boundaries

  /** `\b` at position `i`: a word character on exactly one side. */
  predicate Boundary(s: string, i: nat)
    requires i <= |s|
  {
    (i > 0 && IsWordChar(s[i - 1])) != (i < |s| && IsWordChar(s[i]))
  }

  /** `\b<w>\b` matches at position `i`. */
  predicate WholeWordAt(s: string, w: string, i: nat) {
    i + |w| <= |s| && s[i..i + |w|] == w && Boundary(s, i) && Boundary(s, i + |w|)
  }

  /** `re.search(r'\b' + re.escape(w) + r'\b', s)` succeeds. */
  predicate ContainsWholeWord(s: string, w: string) {
    exists i :: 0 <= i <= |s| && WholeWordAt(s, w, i)
  }

  /** `len(re.findall(r'\b' + re.escape(w) + r'\b', s[i..]))` counted from
      position `i`: after a match the scan resumes at its end, or one further
      along when the match is empty. */
  function CountWholeWordFrom(s: string, w: string, i: nat): nat
    decreases |s| + 1 - i
  {
    if i + |w| > |s| then 0
    else if WholeWordAt(s, w, i) then 1 + CountWholeWordFrom(s, w, i + (if |w| == 0 then 1 else |w|))
    else CountWholeWordFrom(s, w, i + 1)
  }

  function CountWholeWord(s: string, w: string): nat {
    CountWholeWordFrom(s, w, 0)
  }

  /** Counting finds a match exactly when searching does. */
  lemma CountWholeWordPositive(s: string, w: string)
    ensures CountWholeWord(s, w) > 0 <==> ContainsWholeWord(s, w)
  {
    CountFromPositive(s, w, 0);
  }

  lemma {:induction false} CountFromPositive(s: string, w: string, i: nat)
    ensures CountWholeWordFrom(s, w, i) > 0 <==> exists j :: i <= j <= |s| && WholeWordAt(s, w, j)
    decreases |s| + 1 - i
  {
    if i + |w| > |s| {
      assert forall j :: i <= j <= |s| ==> !WholeWordAt(s, w, j);
    } else if WholeWordAt(s, w, i) {
    } else {
      CountFromPositive(s, w, i + 1);
      assert forall j :: i <= j <= |s| && WholeWordAt(s, w, j) ==> i + 1 <= j;
    }
  }

  // ------------------------------------------------------------- digits

  function DigitValue(c: char): (d: nat)
    ensures d <= 9
  {
    if IsDigit(c) then c as int - '0' as int else 0
  }

  /** `int(s)` for a string of decimal digits. */
  function DigitsValue(s: string): nat
    decreases |s|
  {
    if s == [] then 0 else DigitsValue(s[..|s| - 1]) * 10 + DigitValue(s[|s| - 1])
  }

  lemma {:induction false} DigitsValueBound(s: string)
    ensures DigitsValue(s) < Pow10(|s|)
    decreases |s|
  {
    if s != [] {
      DigitsValueBound(s[..|s| - 1]);
    }
  }

  function Pow10(n: nat): (p: nat)
    ensures p >= 1
  {
    if n == 0 then 1 else 10 * Pow10(n - 1)
  }

  predicate FourDigitsAt(s: string, i: nat) {
    i + 4 <= |s| && IsDigit(s[i]) && IsDigit(s[i + 1]) && IsDigit(s[i + 2]) && IsDigit(s[i + 3])
  }

  /** Where `re.search(r'\d{4}', s)` matches when searching from `i`: the
      leftmost run of four digits. */
  function FirstFourDigitsFrom(s: string, i: nat): (r: Option<nat>)
    ensures r.Some? ==> i <= r.value && FourDigitsAt(s, r.value)
    ensures r.Some? ==> forall j :: i <= j < r.value ==> !FourDigitsAt(s, j)
    ensures r.None? ==> forall j :: i <= j ==> !FourDigitsAt(s, j)
    decreases |s| - i
  {
    if i + 4 > |s| then None
    else if FourDigitsAt(s, i) then Some(i)
    else FirstFourDigitsFrom(s, i + 1)
  }

  /** `int(re.search(r'\d{4}', s).group())`, or `None` where the search finds
      nothing and `.group()` would raise. */
  function FirstYear(s: string): (r: Option<nat>)
    ensures r.Some? ==> r.value < 10000
    ensures r.None? <==> forall j :: !FourDigitsAt(s, j)
  {
    match FirstFourDigitsFrom(s, 0)
    case None => None
    case Some(i) =>
      DigitsValueBound(s[i..i + 4]);
      assert Pow10(4) == 10000 by {
        assert Pow10(2) == 100;
      }
      Some(DigitsValue(s[i..i + 4]))
  }

  /** `\b(19|20)\d{2}\b` matches at position `i`. */
  predicate CenturyYearAt(s: string, i: nat) {
    i + 4 <= |s| && Boundary(s, i) && Boundary(s, i + 4)
    && ((s[i] == '1' && s[i + 1] == '9') || (s[i] == '2' && s[i + 1] == '0'))
    && IsDigit(s[i + 2]) && IsDigit(s[i + 3])
  }

  /** The start positions of the matches of `\b(19|20)\d{2}\b` from `i` on,
      left to right. */
  function CenturyYearsFrom(s: string, i: nat): (r: seq<nat>)
    ensures forall k :: 0 <= k < |r| ==> i <= r[k] && CenturyYearAt(s, r[k])
    ensures forall j :: i <= j && CenturyYearAt(s, j) ==> j in r
    decreases |s| - i
  {
    if i + 4 > |s| then []
    else if CenturyYearAt(s, i) then
      var rest := CenturyYearsFrom(s, i + 4);
      assert forall j :: i < j < i + 4 ==> !Boundary(s, j) by {
        forall j | i < j < i + 4 ensures !Boundary(s, j) {
          assert IsDigit(s[j - 1]) && IsDigit(s[j]);
        }
      }
      [i] + rest
    else CenturyYearsFrom(s, i + 1)
  }

  /** `re.findall(r'\b(19|20)\d{2}\b', s)`: the captured group, which is the
      two-digit century of each year. */
  function CenturyPrefixes(s: string): (r: seq<string>)
    ensures forall k :: 0 <= k < |r| ==> r[k] == "19" || r[k] == "20"
  {
    var ps := CenturyYearsFrom(s, 0);
    seq(|ps|, k requires 0 <= k < |ps| => s[ps[k]..ps[k] + 2])
  }

  /** The four-digit years matched by `\b(19|20)\d{2}\b`, whole. */
  function CenturyYears(s: string): (r: seq<string>)
    ensures forall k :: 0 <= k < |r| ==> |r[k]| == 4 && (r[k][..2] == "19" || r[k][..2] == "20")
  {
    var ps := CenturyYearsFrom(s, 0);
    seq(|ps|, k requires 0 <= k < |ps| => s[ps[k]..ps[k] + 4])
  }

  // --------------------------------------------------- letters and classes

  /** The length of the run of `[a-z]` starting at `i`. */
  function LowerRun(s: string, i: nat): (n: nat)
    ensures i + n <= |s| || n == 0
    ensures forall k :: i <= k < i + n ==> IsLowerLetter(s[k])
    ensures i + n < |s| ==> !IsLowerLetter(s[i + n])
    decreases |s| - i
  {
    if i < |s| && IsLowerLetter(s[i]) then 1 + LowerRun(s, i + 1) else 0
  }

  /** `re.findall(r'\b[a-z]{4,}\b', s[i..])`: the maximal runs of word
      characters that are four or more lower-case letters. */
  function LowerWordsFrom(s: string, i: nat): (r: seq<string>)
    ensures forall k :: 0 <= k < |r| ==> |r[k]| >= 4 && forall c :: c in r[k] ==> IsLowerLetter(c)
    decreases |s| - i
  {
    if i >= |s| then []
    else
      var n := LowerRun(s, i);
      if Boundary(s, i) && n >= 4 && (i + n == |s| || !IsWordChar(s[i + n])) then
        [s[i..i + n]] + LowerWordsFrom(s, i + n)
      else LowerWordsFrom(s, i + 1)
  }

  /** A character of the class `[^\w\s\-.,;:()\[\]@/]`. */
  predicate IsSpecialChar(c: char) {
    !IsWordChar(c) && !IsSpace(c) && c !in "-.,;:()[]@/"
  }

  /** `len(re.findall(r'[^\w\s\-.,;:()\[\]@/]', s))`. */
  function SpecialCharCount(s: string): (n: nat)
    ensures n <= |s|
    ensures n == 0 <==> forall c :: c in s ==> !IsSpecialChar(c)
  {
    if s == [] then 0 else (if IsSpecialChar(s[0]) then 1 else 0) + SpecialCharCount(s[1..])
  }

  predicate IsBulletChar(c: char) { c == '•' || c == '-' || c == '*' }

  /** `len(re.findall(r'[•\-\*]\s', s))`: a bullet character followed by
      white space (two such matches can never overlap). */
  function BulletCount(s: string): (n: nat)
    ensures 2 * n <= |s|
    decreases |s|
  {
    if |s| < 2 then 0
    else if IsBulletChar(s[0]) && IsSpace(s[1]) then 1 + BulletCount(s[2..])
    else BulletCount(s[1..])
  }
}
