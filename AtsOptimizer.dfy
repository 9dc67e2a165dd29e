/** The applicant-tracking-system (ATS) compatibility analyser.

    Four categories are scored by deduction: format, structure and content
    start at 100 and lose a fixed number of points for each issue found,
    while the keyword score is the percentage of target keywords present.
    The overall score is their weighted sum, from which follow a letter
    grade, an estimated pass rate, a list of critical issues and a list of
    recommendations in a fixed order. `OptimizeText` suggests stronger
    phrasing, and `AutoOptimize` tidies white space and bullets.

    Each analysis is a method that starts from 100 and subtracts as it goes,
    proved to agree with a specification in which the score is what the
    reported issues leave of 100. Every message becomes a constructor of
    `Issue` that keeps the numbers the message shows. */
module AtsOptimizer {

  import opened Wrappers
  import opened Text
  import opened Seqs
  import opened Regex
  import opened Ratios

  // ---------------------------------------------------------- deductions

  /** The points that `issues` cost together, each costing `cost`. */
  function Deduction<T>(issues: seq<T>, cost: T -> nat): nat
    decreases |issues|
  {
    if issues == [] then 0
    else Deduction(issues[..|issues| - 1], cost) + cost(issues[|issues| - 1])
  }

  lemma DeductionSnoc<T>(issues: seq<T>, i: T, cost: T -> nat)
    ensures Deduction(issues + [i], cost) == Deduction(issues, cost) + cost(i)
  {
    assert (issues + [i])[..|issues|] == issues;
  }

  lemma {:induction false} DeductionAppend<T>(a: seq<T>, b: seq<T>, cost: T -> nat)
    ensures Deduction(a + b, cost) == Deduction(a, cost) + Deduction(b, cost)
    decreases |b|
  {
    if b == [] {
      assert a + b == a;
    } else {
      DeductionAppend(a, b[..|b| - 1], cost);
      assert (a + b)[..|a + b| - 1] == a + b[..|b| - 1];
    }
  }

  /** Issues that all cost `c` cost `c` each. */
  lemma {:induction false} DeductionUniform<T>(issues: seq<T>, cost: T -> nat, c: nat)
    requires forall i :: 0 <= i < |issues| ==> cost(issues[i]) == c
    ensures Deduction(issues, cost) == c * |issues|
    decreases |issues|
  {
    if issues != [] {
      DeductionUniform(issues[..|issues| - 1], cost, c);
    }
  }

  /** Issues that all cost something cost nothing only when there are none. */
  lemma DeductionZero<T>(issues: seq<T>, cost: T -> nat)
    requires forall i :: 0 <= i < |issues| ==> cost(issues[i]) > 0
    ensures Deduction(issues, cost) == 0 <==> issues == []
  {
  }

  /** At most one more issue costs what it costs. */
  lemma OneMore<T>(issues: seq<T>, a: seq<T>, cost: T -> nat)
    requires |a| <= 1
    ensures Deduction(issues + a, cost) == Deduction(issues, cost) + (if a == [] then 0 else cost(a[0]))
  {
    if a == [] {
      assert issues + a == issues;
    } else {
      assert a == [a[0]];
      DeductionSnoc(issues, a[0], cost);
    }
  }

  /** Up to three more issues cost what each of them costs. */
  lemma ThreeMore<T>(issues: seq<T>, a: seq<T>, b: seq<T>, c: seq<T>, cost: T -> nat)
    requires |a| <= 1 && |b| <= 1 && |c| <= 1
    ensures Deduction(issues + a + b + c, cost)
            == Deduction(issues, cost) + (if a == [] then 0 else cost(a[0]))
               + (if b == [] then 0 else cost(b[0])) + (if c == [] then 0 else cost(c[0]))
  {
    OneMore(issues, a, cost);
    OneMore(issues + a, b, cost);
    OneMore(issues + a + b, c, cost);
  }

  /** A list of one issue if `c` holds, none otherwise, costs that issue's
      points or nothing. */
  lemma DeductionOptional<T>(c: bool, i: T, cost: T -> nat)
    ensures Deduction(if c then [i] else [], cost) == if c then cost(i) else 0
  {
    if c {
      DeductionSnoc([], i, cost);
      assert [] + [i] == [i];
    }
  }

  /** `max(0, score)`. */
  function AtLeastZero(score: int): (r: nat)
    ensures r == score || (score < 0 && r == 0)
  {
    if score < 0 then 0 else score
  }

  // -------------------------------------------------------------- format

  /** The layouts that text extractors mangle, each with the pattern that
      finds it (ignoring case), in the order they are checked. */
  const ProblematicElements: seq<(string, Pattern)> := [
    ("tables", LayoutTables), ("images", LayoutImages), ("graphics", LayoutGraphics),
    ("text_boxes", LayoutTextBoxes), ("columns", LayoutColumns)]

  function ElementFound(eng: Engine, text: string): ((string, Pattern)) -> bool {
    (e: (string, Pattern)) => |eng(e.1, text)| > 0
  }

  function ElementName(e: (string, Pattern)): string {
    e.0
  }

  function ElementIssue(element: string): FormatIssue {
    HasElement(element)
  }

  /** The names of the layout elements found in the text, in table order. */
  function ElementsFound(eng: Engine, text: string): seq<string> {
    Map(Filter(ProblematicElements, ElementFound(eng, text)), ElementName)
  }

  function IsLongLine(line: string): bool {
    |line| > 200
  }

  /** The number of lines longer than 200 characters. */
  function LongLineCount(text: string): nat {
    |Filter(Split(text, '\n'), IsLongLine)|
  }

  datatype FormatIssue =
    | HasElement(element: string)
    | SpecialCharacters(count: nat)
    | NoParagraphBreaks
    | LongLines(count: nat)

  /** A layout element costs 15 points, the other issues 10. */
  function FormatPenalty(i: FormatIssue): nat {
    if i.HasElement? then 15 else 10
  }

  datatype FormatReport = FormatReport(score: nat, issues: seq<FormatIssue>, passed: bool)

  /** One issue for each layout element found, then one each for more than
      20 special characters, for no blank line and for more than 5 long
      lines. */
  function FormatIssuesFrom(elements: seq<string>, special: nat, breaks: bool, long: nat): seq<FormatIssue> {
    Map(elements, ElementIssue)
    + (if special > 20 then [SpecialCharacters(special)] else [])
    + (if breaks then [] else [NoParagraphBreaks])
    + (if long > 5 then [LongLines(long)] else [])
  }

  /** The score is what the issues leave of 100, but never below 0; it
      passes at 70. */
  function FormatReportOf(issues: seq<FormatIssue>): FormatReport {
    var raw := 100 - Deduction(issues, FormatPenalty);
    FormatReport(AtLeastZero(raw), issues, raw >= 70)
  }

  function FormatOf(eng: Engine, text: string): FormatReport {
    FormatReportOf(FormatIssuesFrom(
      ElementsFound(eng, text), SpecialCharCount(text), Contains(text, "\n\n"), LongLineCount(text)))
  }

  /** After the first `k` elements of the table: those whose pattern
      matches are found, one issue and 15 points each. */
  ghost predicate ElementsScanned(eng: Engine, text: string, k: nat, elements: seq<string>,
                                  issues: seq<FormatIssue>, score: int)
    requires k <= |ProblematicElements|
  {
    && elements == Map(Filter(ProblematicElements[..k], ElementFound(eng, text)), ElementName)
    && issues == Map(elements, ElementIssue)
    && score == 100 - Deduction(issues, FormatPenalty)
  }

  /** One more element of the table: found when its pattern matches, at the
      cost of 15 points. */
  lemma ElementStep(eng: Engine, text: string, k: nat, elements: seq<string>, issues: seq<FormatIssue>, score: int)
    requires k < |ProblematicElements| && ElementsScanned(eng, text, k, elements, issues, score)
    ensures var (element, pattern) := ProblematicElements[k];
            if |eng(pattern, text)| > 0
            then ElementsScanned(eng, text, k + 1, elements + [element], issues + [HasElement(element)], score - 15)
            else ElementsScanned(eng, text, k + 1, elements, issues, score)
  {
    var element := ProblematicElements[k].0;
    MapFilterStep(ProblematicElements, k, ElementFound(eng, text), ElementName);
    MapSnoc(elements, element, ElementIssue);
    DeductionSnoc(issues, HasElement(element), FormatPenalty);
  }

  /** The layout-element part of the format analysis: one issue and 15
      points for each element of the table whose pattern matches. */
  method ScanElements(eng: Engine, text: string) returns (elements: seq<string>, issues: seq<FormatIssue>, score: int)
    ensures elements == ElementsFound(eng, text)
    ensures issues == Map(elements, ElementIssue)
    ensures score == 100 - Deduction(issues, FormatPenalty)
  {
    elements, issues, score := [], [], 100;
    for k := 0 to |ProblematicElements|
      invariant ElementsScanned(eng, text, k, elements, issues, score)
    {
      ElementStep(eng, text, k, elements, issues, score);
      var (element, pattern) := ProblematicElements[k];
      if |eng(pattern, text)| > 0 {
        elements := elements + [element];
        issues := issues + [HasElement(element)];
        score := score - 15;
      }
    }
    assert ProblematicElements[..|ProblematicElements|] == ProblematicElements;
  }

  /** The format report once the three layout checks have added their
      issues and taken their points off the element score. */
  lemma LayoutScore(elements: seq<string>, issues: seq<FormatIssue>, score: int, special: nat, breaks: bool, long: nat)
    requires issues == Map(elements, ElementIssue)
    requires score == 100 - Deduction(issues, FormatPenalty)
    ensures var a := if special > 20 then [SpecialCharacters(special)] else [];
            var b := if breaks then [] else [NoParagraphBreaks];
            var c := if long > 5 then [LongLines(long)] else [];
            var s := score - (if special > 20 then 10 else 0) - (if breaks then 0 else 10) - (if long > 5 then 10 else 0);
            FormatReportOf(FormatIssuesFrom(elements, special, breaks, long))
            == FormatReport(AtLeastZero(s), issues + a + b + c, s >= 70)
  {
    var a: seq<FormatIssue> := if special > 20 then [SpecialCharacters(special)] else [];
    var b: seq<FormatIssue> := if breaks then [] else [NoParagraphBreaks];
    var c: seq<FormatIssue> := if long > 5 then [LongLines(long)] else [];
    assert FormatIssuesFrom(elements, special, breaks, long) == issues + a + b + c;
    LayoutDeduction(issues, special, breaks, long);
  }

  /** The three layout issues cost 10 points each. */
  lemma LayoutDeduction(issues: seq<FormatIssue>, special: nat, breaks: bool, long: nat)
    ensures var a := if special > 20 then [SpecialCharacters(special)] else [];
            var b := if breaks then [] else [NoParagraphBreaks];
            var c := if long > 5 then [LongLines(long)] else [];
            Deduction(issues + a + b + c, FormatPenalty)
            == Deduction(issues, FormatPenalty) + (if special > 20 then 10 else 0) + (if breaks then 0 else 10)
               + (if long > 5 then 10 else 0)
  {
    var a: seq<FormatIssue> := if special > 20 then [SpecialCharacters(special)] else [];
    var b: seq<FormatIssue> := if breaks then [] else [NoParagraphBreaks];
    var c: seq<FormatIssue> := if long > 5 then [LongLines(long)] else [];
    ThreeMore(issues, a, b, c, FormatPenalty);
  }

  /** The rest of the format analysis, given what `ScanElements` found: 10
      points each for more than 20 special characters, for no blank line and
      for more than 5 long lines. */
  method CheckLayout(elements: seq<string>, issues: seq<FormatIssue>, score: int, special: nat, breaks: bool, long: nat)
    returns (r: FormatReport)
    requires issues == Map(elements, ElementIssue)
    requires score == 100 - Deduction(issues, FormatPenalty)
    ensures r == FormatReportOf(FormatIssuesFrom(elements, special, breaks, long))
  {
    LayoutScore(elements, issues, score, special, breaks, long);
    var issues, score := issues, score;
    if special > 20 {
      issues := issues + [SpecialCharacters(special)];
      score := score - 10;
    }
    if !breaks {
      issues := issues + [NoParagraphBreaks];
      score := score - 10;
    }
    if long > 5 {
      issues := issues + [LongLines(long)];
      score := score - 10;
    }
    r := FormatReport(AtLeastZero(score), issues, score >= 70);
  }

  method AnalyzeFormat(eng: Engine, text: string) returns (r: FormatReport)
    ensures r == FormatOf(eng, text)
  {
    var elements, issues, score := ScanElements(eng, text);
    r := CheckLayout(elements, issues, score, SpecialCharCount(text), Contains(text, "\n\n"), LongLineCount(text));
  }

  /** Each element found costs 15 points and each of the other three issues
      10, never going below 0: the score is in [0, 100], is 100 exactly when
      nothing is wrong, and passes exactly at 70 or more. */
  lemma FormatScore(elements: seq<string>, special: nat, breaks: bool, long: nat)
    ensures var r := FormatReportOf(FormatIssuesFrom(elements, special, breaks, long));
      && r.score <= 100
      && r.score == AtLeastZero(100 - 15 * |elements| - (if special > 20 then 10 else 0)
                                - (if breaks then 0 else 10) - (if long > 5 then 10 else 0))
      && (r.score == 100 <==> r.issues == [])
      && (r.passed <==> r.score >= 70)
  {
    var issues := Map(elements, ElementIssue);
    var a, b, c := if special > 20 then [SpecialCharacters(special)] else [],
      if breaks then [] else [NoParagraphBreaks], if long > 5 then [LongLines(long)] else [];
    assert Deduction(issues, FormatPenalty) == 15 * |elements| by {
      forall i | 0 <= i < |issues| ensures FormatPenalty(issues[i]) == 15 {
        assert issues[i] == HasElement(elements[i]);
      }
      DeductionUniform(issues, FormatPenalty, 15);
    }
    LayoutDeduction(issues, special, breaks, long);
    assert FormatIssuesFrom(elements, special, breaks, long) == issues + a + b + c;
    assert |issues + a + b + c| == |elements| + |a| + |b| + |c|;
  }

  /** The format issues name exactly the layout elements found and the
      conditions that cost points. */
  lemma FormatIssuesMeaning(elements: seq<string>, special: nat, breaks: bool, long: nat, element: string, n: nat)
    ensures var issues := FormatIssuesFrom(elements, special, breaks, long);
      && (HasElement(element) in issues <==> element in elements)
      && (SpecialCharacters(n) in issues <==> n == special && n > 20)
      && (NoParagraphBreaks in issues <==> !breaks)
      && (LongLines(n) in issues <==> n == long && n > 5)
  {
    var a: seq<FormatIssue> := if special > 20 then [SpecialCharacters(special)] else [];
    var b: seq<FormatIssue> := if breaks then [] else [NoParagraphBreaks];
    var c: seq<FormatIssue> := if long > 5 then [LongLines(long)] else [];
    assert FormatIssuesFrom(elements, special, breaks, long) == Map(elements, ElementIssue) + (a + b + c);
    ElementIssuesMember(elements, a + b + c, HasElement(element));
    ElementIssuesMember(elements, a + b + c, SpecialCharacters(n));
    ElementIssuesMember(elements, a + b + c, NoParagraphBreaks);
    ElementIssuesMember(elements, a + b + c, LongLines(n));
  }

  /** Element issues followed by other issues: an element issue is there
      exactly when its element is, any other issue exactly when it is among
      the others. */
  lemma ElementIssuesMember(elements: seq<string>, rest: seq<FormatIssue>, y: FormatIssue)
    requires forall i :: 0 <= i < |rest| ==> !rest[i].HasElement?
    ensures y in Map(elements, ElementIssue) + rest <==> if y.HasElement? then y.element in elements else y in rest
  {
    var issues := Map(elements, ElementIssue);
    assert forall i :: 0 <= i < |issues| ==> issues[i] == HasElement(elements[i]);
    if y.HasElement? && y.element in elements {
      var i :| 0 <= i < |elements| && elements[i] == y.element;
      assert issues[i] == y;
    }
  }

  /** The elements reported are exactly those whose pattern matches. */
  lemma ElementsFoundMeaning(eng: Engine, text: string, element: string)
    ensures element in ElementsFound(eng, text) <==>
              exists e :: e in ProblematicElements && ElementFound(eng, text)(e) && ElementName(e) == element
  {
    MapFilterMember(ProblematicElements, ElementFound(eng, text), ElementName, element);
  }

  // ------------------------------------------------------------ keywords

  /** The words looked for when no target keywords are given. */
  const DefaultKeywords: seq<string> := [
    "experience", "skills", "education", "project", "team",
    "developed", "managed", "implemented", "achieved"]

  /** The target keywords; a missing or empty list means the defaults. */
  function KeywordsOrDefault(jobKeywords: Option<seq<string>>): (ks: seq<string>)
    ensures ks != []
    ensures jobKeywords.Some? && jobKeywords.value != [] ==> ks == jobKeywords.value
    ensures jobKeywords.None? || jobKeywords.value == [] ==> ks == DefaultKeywords
  {
    if jobKeywords.None? || jobKeywords.value == [] then DefaultKeywords else jobKeywords.value
  }

  /** Whether a keyword occurs, lower-cased and as a whole word, in the
      lower-cased text. */
  function Found(lowerText: string): string -> bool {
    (k: string) => ContainsWholeWord(lowerText, Lower(k))
  }

  function NotFound(lowerText: string): string -> bool {
    (k: string) => !ContainsWholeWord(lowerText, Lower(k))
  }

  /** The whole-word occurrences of all of `ks` together. */
  function Occurrences(lowerText: string, ks: seq<string>): nat
    decreases |ks|
  {
    if ks == [] then 0
    else Occurrences(lowerText, ks[..|ks| - 1]) + CountWholeWord(lowerText, Lower(ks[|ks| - 1]))
  }

  /** Keyword occurrences per hundred words, or 0 for a text without words. */
  function Density(occurrences: nat, words: nat): real {
    if words > 0 then (occurrences as real) / (words as real) * 100.0 else 0.0
  }

  /** The keyword issues, which cost nothing: the keyword score is a match
      rate. */
  datatype KeywordIssue =
    | LowDensity(density: real)
    | HighDensity(density: real)
    | MissingKeywords(count: nat)

  datatype KeywordReport = KeywordReport(
    score: real, matched: seq<string>, missing: seq<string>, density: real,
    issues: seq<KeywordIssue>, passed: bool)

  function DensityIssues(density: real): seq<KeywordIssue> {
    if density < 2.0 then [LowDensity(density)]
    else if density > 5.0 then [HighDensity(density)]
    else []
  }

  /** The report for `total` keywords of which `matched` were found and
      `missing` were not. */
  function KeywordReportOf(total: nat, matched: seq<string>, missing: seq<string>, density: real): (r: KeywordReport)
    requires |matched| <= total && total > 0
    ensures 0.0 <= r.score <= 100.0
  {
    var score := 100.0 * Ratio(|matched|, total);
    var issues := DensityIssues(density)
      + (if |missing| as real > total as real * 0.5 then [MissingKeywords(|missing|)] else []);
    KeywordReport(score, matched, missing, density, issues, score >= 60.0)
  }

  function KeywordsOf(text: string, jobKeywords: Option<seq<string>>): KeywordReport {
    KeywordsIn(text, KeywordsOrDefault(jobKeywords))
  }

  /** The keyword report of the text against the non-empty list `ks`. */
  function KeywordsIn(text: string, ks: seq<string>): KeywordReport
    requires ks != []
  {
    var lt := Lower(text);
    var matched := Filter(ks, Found(lt));
    KeywordReportOf(|ks|, matched, Filter(ks, NotFound(lt)), Density(Occurrences(lt, matched), WordCount(text)))
  }

  /** Splits the keywords into those found in the lower-cased text and
      those not, keeping their order. */
  method PartitionKeywords(ks: seq<string>, lt: string) returns (matched: seq<string>, missing: seq<string>)
    ensures matched == Filter(ks, Found(lt))
    ensures missing == Filter(ks, NotFound(lt))
  {
    matched, missing := [], [];
    for i := 0 to |ks|
      invariant matched == Filter(ks[..i], Found(lt))
      invariant missing == Filter(ks[..i], NotFound(lt))
    {
      FilterStep(ks, i, Found(lt));
      FilterStep(ks, i, NotFound(lt));
      if Found(lt)(ks[i]) {
        matched := matched + [ks[i]];
      } else {
        missing := missing + [ks[i]];
      }
    }
    assert ks[..|ks|] == ks;
  }

  /** The score and issues for `total` keywords split into `matched` and
      `missing`. */
  method ScoreKeywords(total: nat, matched: seq<string>, missing: seq<string>, density: real) returns (r: KeywordReport)
    requires |matched| <= total && total > 0
    ensures r == KeywordReportOf(total, matched, missing, density)
  {
    var score := 100.0 * Ratio(|matched|, total);
    var issues := DensityIssues(density);
    if |missing| as real > total as real * 0.5 {
      issues := issues + [MissingKeywords(|missing|)];
    }
    r := KeywordReport(score, matched, missing, density, issues, score >= 60.0);
  }

  method AnalyzeKeywords(text: string, jobKeywords: Option<seq<string>>) returns (r: KeywordReport)
    ensures r == KeywordsOf(text, jobKeywords)
  {
    var ks := KeywordsOrDefault(jobKeywords);
    var lt := Lower(text);
    var matched, missing := PartitionKeywords(ks, lt);
    r := ScoreKeywords(|ks|, matched, missing, Density(Occurrences(lt, matched), WordCount(text)));
  }

  /** The matched and missing keywords of the analysis split the target
      keywords, each keeping its order: a keyword is matched exactly when it
      occurs as a whole word in the text, and missing otherwise. */
  lemma KeywordPartition(text: string, ks: seq<string>, k: string)
    requires ks != []
    ensures var r := KeywordsIn(text, ks);
      && r.matched == Filter(ks, Found(Lower(text)))
      && r.missing == Filter(ks, NotFound(Lower(text)))
      && multiset(r.matched) + multiset(r.missing) == multiset(ks)
      && (k in r.matched <==> k in ks && ContainsWholeWord(Lower(text), Lower(k)))
      && (k in r.missing <==> k in ks && !ContainsWholeWord(Lower(text), Lower(k)))
  {
    var lt := Lower(text);
    FilterPartition(ks, Found(lt), NotFound(lt));
    FilterMember(ks, Found(lt), k);
    FilterMember(ks, NotFound(lt), k);
  }

  /** For keywords split into matched and missing, the score is the
      percentage matched: 100 exactly when none is missing and 0 exactly
      when none is matched; it passes at 60. A density issue is raised
      exactly when the density is below 2 or above 5 per hundred words, and
      a missing-keyword issue exactly when more than half are missing. */
  lemma KeywordScore(total: nat, matched: seq<string>, missing: seq<string>, density: real, d: real, n: nat)
    requires |matched| + |missing| == total && total > 0
    ensures var r := KeywordReportOf(total, matched, missing, density);
      && 0.0 <= r.score <= 100.0
      && r.score == (|matched| as real) / (total as real) * 100.0
      && (r.score == 100.0 <==> missing == [])
      && (r.score == 0.0 <==> matched == [])
      && (r.passed <==> r.score >= 60.0)
      && (LowDensity(d) in r.issues <==> d == density && d < 2.0)
      && (HighDensity(d) in r.issues <==> d == density && d > 5.0)
      && (MissingKeywords(n) in r.issues <==> n == |missing| && 2 * n > total)
  {
  }

  // ----------------------------------------------------------- structure

  const RequiredSections: seq<string> := ["experience", "education", "skills"]
  const OptionalSections: seq<string> := ["summary", "certifications", "projects"]

  /** The keys of the experience section. */
  const ExperienceKeys: seq<string> := ["experience", "work history"]

  /** The headings that end a section unless they are one of its keys. */
  const CommonHeadings: seq<string> := ["experience", "education", "skills", "projects", "certifications"]

  function InText(lowerText: string): string -> bool {
    (s: string) => Contains(lowerText, s)
  }

  function NotInText(lowerText: string): string -> bool {
    (s: string) => !Contains(lowerText, s)
  }

  function MissingSectionIssue(s: string): StructureIssue {
    MissingSection(s)
  }

  function HasEmail(eng: Engine, text: string): bool {
    |eng(EmailAddress, text)| > 0
  }

  function HasPhone(eng: Engine, text: string): bool {
    |eng(PhoneUs, text)| > 0
  }

  /** A section that is present but shows fewer than two dates. */
  predicate Undated(eng: Engine, section: string) {
    section != [] && |eng(DateToken, section)| < 2
  }

  datatype StructureIssue =
    | MissingSection(section: string)
    | MissingEmail
    | MissingPhone
    | UndatedExperience

  /** A missing section costs 20 points, a missing e-mail address and an
      undated experience section 15, a missing phone number 10. */
  function StructurePenalty(i: StructureIssue): nat {
    match i
    case MissingSection(_) => 20
    case MissingEmail => 15
    case MissingPhone => 10
    case UndatedExperience => 15
  }

  datatype StructureReport = StructureReport(
    score: nat, foundSections: seq<string>, hasEmail: bool, hasPhone: bool,
    issues: seq<StructureIssue>, passed: bool)

  /** One issue per required section missing, then one each for no e-mail
      address, no phone number and an undated experience section. */
  function StructureIssuesFrom(missing: seq<string>, hasEmail: bool, hasPhone: bool, undated: bool): seq<StructureIssue> {
    Map(missing, MissingSectionIssue)
    + (if hasEmail then [] else [MissingEmail])
    + (if hasPhone then [] else [MissingPhone])
    + (if undated then [UndatedExperience] else [])
  }

  function StructureReportOf(found: seq<string>, missing: seq<string>, hasEmail: bool, hasPhone: bool, undated: bool): StructureReport {
    var issues := StructureIssuesFrom(missing, hasEmail, hasPhone, undated);
    var raw := 100 - Deduction(issues, StructurePenalty);
    StructureReport(AtLeastZero(raw), found, hasEmail, hasPhone, issues, raw >= 70)
  }

  /** The required sections the text does not mention. */
  function MissingSections(text: string): seq<string> {
    Filter(RequiredSections, NotInText(Lower(text)))
  }

  /** The required sections the text mentions, then the optional ones. */
  function FoundSections(text: string): seq<string> {
    Filter(RequiredSections, InText(Lower(text))) + Filter(OptionalSections, InText(Lower(text)))
  }

  function StructureOf(eng: Engine, text: string): StructureReport {
    StructureReportOf(FoundSections(text), MissingSections(text), HasEmail(eng, text), HasPhone(eng, text),
      Undated(eng, SectionText(text, ExperienceKeys)))
  }

  /** After the first `i` required sections: those the text mentions are
      found, the others missing, one issue and 20 points each. */
  ghost predicate RequiredScanned(lt: string, i: nat, found: seq<string>, missing: seq<string>,
                                  issues: seq<StructureIssue>, score: int)
    requires i <= |RequiredSections|
  {
    && found == Filter(RequiredSections[..i], InText(lt))
    && missing == Filter(RequiredSections[..i], NotInText(lt))
    && issues == Map(missing, MissingSectionIssue)
    && score == 100 - Deduction(issues, StructurePenalty)
  }

  /** One more required section: found when the text mentions it, otherwise
      missing at the cost of 20 points. */
  lemma RequiredStep(lt: string, i: nat, found: seq<string>, missing: seq<string>,
                     issues: seq<StructureIssue>, score: int)
    requires i < |RequiredSections| && RequiredScanned(lt, i, found, missing, issues, score)
    ensures var section := RequiredSections[i];
            if Contains(lt, section) then RequiredScanned(lt, i + 1, found + [section], missing, issues, score)
            else RequiredScanned(lt, i + 1, found, missing + [section], issues + [MissingSection(section)], score - 20)
  {
    var section := RequiredSections[i];
    FilterStep(RequiredSections, i, InText(lt));
    FilterStep(RequiredSections, i, NotInText(lt));
    MapSnoc(missing, section, MissingSectionIssue);
    DeductionSnoc(issues, MissingSection(section), StructurePenalty);
  }

  /** The required-section part of the structure analysis: each required
      section the text mentions is found, each other one costs 20 points. */
  method ScanRequired(lt: string) returns (found: seq<string>, missing: seq<string>, issues: seq<StructureIssue>, score: int)
    ensures found == Filter(RequiredSections, InText(lt))
    ensures missing == Filter(RequiredSections, NotInText(lt))
    ensures issues == Map(missing, MissingSectionIssue)
    ensures score == 100 - Deduction(issues, StructurePenalty)
  {
    found, missing, issues, score := [], [], [], 100;
    for i := 0 to |RequiredSections|
      invariant RequiredScanned(lt, i, found, missing, issues, score)
    {
      RequiredStep(lt, i, found, missing, issues, score);
      var section := RequiredSections[i];
      if Contains(lt, section) {
        found := found + [section];
      } else {
        missing := missing + [section];
        issues := issues + [MissingSection(section)];
        score := score - 20;
      }
    }
    assert RequiredSections[..|RequiredSections|] == RequiredSections;
  }

  /** The optional sections the text mentions, appended to `found`. */
  method ScanOptional(lt: string, required: seq<string>) returns (found: seq<string>)
    ensures found == required + Filter(OptionalSections, InText(lt))
  {
    found := required;
    for i := 0 to |OptionalSections|
      invariant found == required + Filter(OptionalSections[..i], InText(lt))
    {
      var section := OptionalSections[i];
      FilterStep(OptionalSections, i, InText(lt));
      if Contains(lt, section) {
        found := found + [section];
      }
    }
    assert OptionalSections[..|OptionalSections|] == OptionalSections;
  }

  /** The structure report once the contact and date checks have added
      their issues and taken their points off the section score. */
  lemma ContactScore(found: seq<string>, missing: seq<string>, issues: seq<StructureIssue>, score: int,
                     hasEmail: bool, hasPhone: bool, undated: bool)
    requires issues == Map(missing, MissingSectionIssue)
    requires score == 100 - Deduction(issues, StructurePenalty)
    ensures var a := if hasEmail then [] else [MissingEmail];
            var b := if hasPhone then [] else [MissingPhone];
            var c := if undated then [UndatedExperience] else [];
            var s := score - (if hasEmail then 0 else 15) - (if hasPhone then 0 else 10) - (if undated then 15 else 0);
            StructureReportOf(found, missing, hasEmail, hasPhone, undated)
            == StructureReport(AtLeastZero(s), found, hasEmail, hasPhone, issues + a + b + c, s >= 70)
  {
    var a: seq<StructureIssue> := if hasEmail then [] else [MissingEmail];
    var b: seq<StructureIssue> := if hasPhone then [] else [MissingPhone];
    var c: seq<StructureIssue> := if undated then [UndatedExperience] else [];
    assert StructureIssuesFrom(missing, hasEmail, hasPhone, undated) == issues + a + b + c;
    ContactDeduction(issues, hasEmail, hasPhone, undated);
  }

  /** The contact and date issues cost 15, 10 and 15 points. */
  lemma ContactDeduction(issues: seq<StructureIssue>, hasEmail: bool, hasPhone: bool, undated: bool)
    ensures var a := if hasEmail then [] else [MissingEmail];
            var b := if hasPhone then [] else [MissingPhone];
            var c := if undated then [UndatedExperience] else [];
            Deduction(issues + a + b + c, StructurePenalty)
            == Deduction(issues, StructurePenalty) + (if hasEmail then 0 else 15) + (if hasPhone then 0 else 10)
               + (if undated then 15 else 0)
  {
    var a: seq<StructureIssue> := if hasEmail then [] else [MissingEmail];
    var b: seq<StructureIssue> := if hasPhone then [] else [MissingPhone];
    var c: seq<StructureIssue> := if undated then [UndatedExperience] else [];
    ThreeMore(issues, a, b, c, StructurePenalty);
  }

  /** The rest of the structure analysis, given what `ScanRequired` and
      `ScanOptional` found: 15 points for no e-mail address, 10 for no
      phone number and 15 for an experience section with fewer than two
      dates. */
  method CheckContact(eng: Engine, found: seq<string>, missing: seq<string>, issues: seq<StructureIssue>, score: int,
                      hasEmail: bool, hasPhone: bool, experience: string)
    returns (r: StructureReport)
    requires issues == Map(missing, MissingSectionIssue)
    requires score == 100 - Deduction(issues, StructurePenalty)
    ensures r == StructureReportOf(found, missing, hasEmail, hasPhone, Undated(eng, experience))
  {
    ContactScore(found, missing, issues, score, hasEmail, hasPhone, Undated(eng, experience));
    var issues, score := issues, score;
    if !hasEmail {
      issues := issues + [MissingEmail];
      score := score - 15;
    }
    if !hasPhone {
      issues := issues + [MissingPhone];
      score := score - 10;
    }
    if experience != [] {
      var dates := |eng(DateToken, experience)|;
      if dates < 2 {
        issues := issues + [UndatedExperience];
        score := score - 15;
      }
    }
    r := StructureReport(AtLeastZero(score), found, hasEmail, hasPhone, issues, score >= 70);
  }

  method AnalyzeStructure(eng: Engine, text: string) returns (r: StructureReport)
    ensures r == StructureOf(eng, text)
  {
    var required, missing, issues, score := ScanRequired(Lower(text));
    var found := ScanOptional(Lower(text), required);
    var experience := ExtractSection(text, ExperienceKeys);
    r := CheckContact(eng, found, missing, issues, score, |eng(EmailAddress, text)| > 0, |eng(PhoneUs, text)| > 0,
      experience);
  }

  /** With at most three sections missing, the deductions add up to at most
      20 per section (60), 15, 10 and 15: exactly 100. So the score never
      needs clamping, lies in [0, 100], and is 0 exactly when every
      deduction applies. */
  lemma StructureScore(found: seq<string>, missing: seq<string>, hasEmail: bool, hasPhone: bool, undated: bool)
    requires |missing| <= 3
    ensures var r := StructureReportOf(found, missing, hasEmail, hasPhone, undated);
      && r.score == 100 - 20 * |missing| - (if hasEmail then 0 else 15) - (if hasPhone then 0 else 10)
                    - (if undated then 15 else 0)
      && r.score <= 100
      && (r.score == 0 <==> |missing| == 3 && !hasEmail && !hasPhone && undated)
      && (r.score == 100 <==> r.issues == [])
      && (r.passed <==> r.score >= 70)
  {
    var issues := Map(missing, MissingSectionIssue);
    var a, b, c := if hasEmail then [] else [MissingEmail], if hasPhone then [] else [MissingPhone],
      if undated then [UndatedExperience] else [];
    assert Deduction(issues, StructurePenalty) == 20 * |missing| by {
      forall i | 0 <= i < |issues|
        ensures StructurePenalty(issues[i]) == 20
      {
        assert issues[i] == MissingSectionIssue(missing[i]);
      }
      DeductionUniform(issues, StructurePenalty, 20);
    }
    ContactDeduction(issues, hasEmail, hasPhone, undated);
    assert StructureIssuesFrom(missing, hasEmail, hasPhone, undated) == issues + a + b + c;
    assert |issues + a + b + c| == |missing| + |a| + |b| + |c|;
  }

  /** The structure issues name exactly the missing sections and the
      conditions that cost points. */
  lemma StructureIssuesMeaning(missing: seq<string>, hasEmail: bool, hasPhone: bool, undated: bool, s: string)
    ensures var issues := StructureIssuesFrom(missing, hasEmail, hasPhone, undated);
      && (MissingSection(s) in issues <==> s in missing)
      && (MissingEmail in issues <==> !hasEmail)
      && (MissingPhone in issues <==> !hasPhone)
      && (UndatedExperience in issues <==> undated)
  {
    var a: seq<StructureIssue> := if hasEmail then [] else [MissingEmail];
    var b: seq<StructureIssue> := if hasPhone then [] else [MissingPhone];
    var c: seq<StructureIssue> := if undated then [UndatedExperience] else [];
    assert StructureIssuesFrom(missing, hasEmail, hasPhone, undated) == Map(missing, MissingSectionIssue) + (a + b + c);
    SectionIssuesMember(missing, a + b + c, MissingSection(s));
    SectionIssuesMember(missing, a + b + c, MissingEmail);
    SectionIssuesMember(missing, a + b + c, MissingPhone);
    SectionIssuesMember(missing, a + b + c, UndatedExperience);
  }

  /** Missing-section issues followed by other issues: a missing-section
      issue is there exactly when its section is missing, any other issue
      exactly when it is among the others. */
  lemma SectionIssuesMember(missing: seq<string>, rest: seq<StructureIssue>, y: StructureIssue)
    requires forall i :: 0 <= i < |rest| ==> !rest[i].MissingSection?
    ensures y in Map(missing, MissingSectionIssue) + rest <==> if y.MissingSection? then y.section in missing else y in rest
  {
    var issues := Map(missing, MissingSectionIssue);
    assert forall i :: 0 <= i < |issues| ==> issues[i] == MissingSection(missing[i]);
    if y.MissingSection? && y.section in missing {
      var i :| 0 <= i < |missing| && missing[i] == y.section;
      assert issues[i] == y;
    }
  }

  /** The sections found are the required and optional ones the text
      mentions, and the missing ones are the required ones it does not;
      all three being missing means none is mentioned. */
  lemma SectionsMeaning(text: string, s: string)
    ensures |MissingSections(text)| <= 3
    ensures s in FoundSections(text) <==>
              (s in RequiredSections || s in OptionalSections) && Contains(Lower(text), s)
    ensures s in MissingSections(text) <==> s in RequiredSections && !Contains(Lower(text), s)
    ensures |MissingSections(text)| == 3 <==> forall t :: t in RequiredSections ==> !Contains(Lower(text), t)
  {
    var lt := Lower(text);
    FilterMember(RequiredSections, InText(lt), s);
    FilterMember(OptionalSections, InText(lt), s);
    FilterMember(RequiredSections, NotInText(lt), s);
    if |MissingSections(text)| == 3 {
      FilterAll3(RequiredSections, NotInText(lt));
    }
    if forall t :: t in RequiredSections ==> !Contains(lt, t) {
      FilterAll(RequiredSections, NotInText(lt));
    }
  }

  lemma FilterAll3(s: seq<string>, p: string -> bool)
    requires |s| == 3 && |Filter(s, p)| == 3
    ensures forall x :: x in s ==> p(x)
  {
    var t := s[1..];
    assert t[1..] == s[2..];
    assert |Filter(s[2..], p)| <= 1;
  }

  // ------------------------------------------------------------- content

  const ActionVerbs: seq<string> := [
    "achieved", "implemented", "developed", "created", "designed",
    "built", "improved", "increased", "reduced", "managed",
    "led", "directed", "coordinated", "executed", "delivered",
    "optimized", "streamlined", "launched", "established", "spearheaded"]

  const Buzzwords: seq<string> := ["team player", "hard worker", "detail-oriented", "results-driven"]

  function WholeWordIn(lowerText: string): string -> bool {
    (w: string) => ContainsWholeWord(lowerText, w)
  }

  datatype ContentIssue =
    | FewActionVerbs(count: nat)
    | NoMetrics
    | TooShort(words: nat)
    | TooLong(words: nat)
    | GenericBuzzwords
    | FewBullets

  /** Too few verbs or figures cost 15 points, too short a text 20, the
      other issues 10. */
  function ContentPenalty(i: ContentIssue): nat {
    match i
    case FewActionVerbs(_) => 15
    case NoMetrics => 15
    case TooShort(_) => 20
    case TooLong(_) => 10
    case GenericBuzzwords => 10
    case FewBullets => 10
  }

  datatype ContentReport = ContentReport(
    score: nat, actionVerbsCount: nat, quantifiableAchievements: nat, wordCount: nat,
    bulletPoints: nat, issues: seq<ContentIssue>, passed: bool)

  function LengthIssues(words: nat): seq<ContentIssue> {
    if words < 200 then [TooShort(words)] else if words > 1000 then [TooLong(words)] else []
  }

  /** Issues for fewer than 5 action verbs, fewer than 3 figures, a length
      outside [200, 1000] words, more than 3 buzzwords and fewer than 5
      bullets. */
  function ContentIssuesFrom(verbs: nat, numbers: nat, words: nat, buzzwords: nat, bullets: nat): seq<ContentIssue> {
    VerbIssues(verbs) + MetricIssues(numbers) + LengthIssues(words) + BuzzwordIssues(buzzwords) + BulletIssues(bullets)
  }

  /** The points the content checks take off: 15 for fewer than 5 action
      verbs, 15 for fewer than 3 figures, 20 below 200 words or 10 above
      1000, 10 for more than 3 buzzwords and 10 for fewer than 5 bullets. */
  function ContentDeductions(verbs: nat, numbers: nat, words: nat, buzzwords: nat, bullets: nat): nat {
    (if verbs < 5 then 15 else 0) + (if numbers < 3 then 15 else 0)
    + (if words < 200 then 20 else if words > 1000 then 10 else 0)
    + (if buzzwords > 3 then 10 else 0) + (if bullets < 5 then 10 else 0)
  }

  function ContentReportOf(verbs: nat, numbers: nat, words: nat, buzzwords: nat, bullets: nat): ContentReport {
    var raw := 100 - ContentDeductions(verbs, numbers, words, buzzwords, bullets);
    ContentReport(AtLeastZero(raw), verbs, numbers, words, bullets,
      ContentIssuesFrom(verbs, numbers, words, buzzwords, bullets), raw >= 70)
  }

  /** The action verbs that occur as whole words. */
  function VerbCount(text: string): nat {
    |Filter(ActionVerbs, WholeWordIn(Lower(text)))|
  }

  /** The buzzwords that occur anywhere. */
  function BuzzwordCount(text: string): nat {
    |Filter(Buzzwords, InText(Lower(text)))|
  }

  function ContentOf(eng: Engine, text: string): ContentReport {
    ContentReportOf(VerbCount(text), |eng(QuantifiedAchievement, text)|, WordCount(text),
      BuzzwordCount(text), BulletCount(text))
  }

  /** Deducts for the counts the content analysis measures, in the order
      it checks them. */
  method ScoreContent(verbs: nat, numbers: nat, words: nat, buzzwords: nat, bullets: nat) returns (r: ContentReport)
    ensures r == ContentReportOf(verbs, numbers, words, buzzwords, bullets)
  {
    var score: int := 100;
    var issues: seq<ContentIssue> := [];
    if verbs < 5 {
      issues, score := issues + [FewActionVerbs(verbs)], score - 15;
    }
    assert issues == VerbIssues(verbs);
    ghost var lost := if verbs < 5 then 15 else 0;
    if numbers < 3 {
      issues, score := issues + [NoMetrics], score - 15;
    }
    assert issues == VerbIssues(verbs) + MetricIssues(numbers);
    lost := lost + if numbers < 3 then 15 else 0;
    assert score == 100 - lost;
    if words < 200 {
      issues, score := issues + [TooShort(words)], score - 20;
    } else if words > 1000 {
      issues, score := issues + [TooLong(words)], score - 10;
    }
    assert issues == VerbIssues(verbs) + MetricIssues(numbers) + LengthIssues(words);
    lost := lost + if words < 200 then 20 else if words > 1000 then 10 else 0;
    assert score == 100 - lost;
    if buzzwords > 3 {
      issues, score := issues + [GenericBuzzwords], score - 10;
    }
    assert issues == VerbIssues(verbs) + MetricIssues(numbers) + LengthIssues(words) + BuzzwordIssues(buzzwords);
    lost := lost + if buzzwords > 3 then 10 else 0;
    assert score == 100 - lost;
    if bullets < 5 {
      issues, score := issues + [FewBullets], score - 10;
    }
    lost := lost + if bullets < 5 then 10 else 0;
    assert score == 100 - lost;
    assert lost == ContentDeductions(verbs, numbers, words, buzzwords, bullets);
    r := ContentReport(AtLeastZero(score), verbs, numbers, words, bullets, issues, score >= 70);
  }

  method AnalyzeContent(eng: Engine, text: string) returns (r: ContentReport)
    ensures r == ContentOf(eng, text)
  {
    var lt := Lower(text);
    r := ScoreContent(|Filter(ActionVerbs, WholeWordIn(lt))|, |eng(QuantifiedAchievement, text)|, WordCount(text),
      |Filter(Buzzwords, InText(lt))|, BulletCount(text));
  }

  /** The deductions (15, 15, 20 or 10, 10, 10) add up to at most 70, so the
      score never needs clamping and lies in [30, 100]; it is 100 exactly
      when nothing is wrong, and passes exactly at 70 or more. */
  lemma ContentScore(verbs: nat, numbers: nat, words: nat, buzzwords: nat, bullets: nat)
    ensures var r := ContentReportOf(verbs, numbers, words, buzzwords, bullets);
      && r.score == 100 - ContentDeductions(verbs, numbers, words, buzzwords, bullets)
      && 30 <= r.score <= 100
      && (r.score == 100 <==> r.issues == [])
      && (r.passed <==> r.score >= 70)
  {
  }

  function VerbIssues(verbs: nat): seq<ContentIssue> {
    if verbs < 5 then [FewActionVerbs(verbs)] else []
  }

  function MetricIssues(numbers: nat): seq<ContentIssue> {
    if numbers < 3 then [NoMetrics] else []
  }

  function BuzzwordIssues(buzzwords: nat): seq<ContentIssue> {
    if buzzwords > 3 then [GenericBuzzwords] else []
  }

  function BulletIssues(bullets: nat): seq<ContentIssue> {
    if bullets < 5 then [FewBullets] else []
  }

  /** The points taken off are exactly what the reported issues cost. */
  lemma ContentIssuesCost(verbs: nat, numbers: nat, words: nat, buzzwords: nat, bullets: nat)
    ensures Deduction(ContentIssuesFrom(verbs, numbers, words, buzzwords, bullets), ContentPenalty)
            == ContentDeductions(verbs, numbers, words, buzzwords, bullets)
  {
    var a, b, c, d, e := VerbIssues(verbs), MetricIssues(numbers), LengthIssues(words),
      BuzzwordIssues(buzzwords), BulletIssues(bullets);
    assert ContentIssuesFrom(verbs, numbers, words, buzzwords, bullets) == a + b + c + d + e;
    assert Deduction(a, ContentPenalty) == if verbs < 5 then 15 else 0 by {
      DeductionOptional(verbs < 5, FewActionVerbs(verbs), ContentPenalty);
    }
    assert Deduction(b, ContentPenalty) == if numbers < 3 then 15 else 0 by {
      DeductionOptional(numbers < 3, NoMetrics, ContentPenalty);
    }
    assert Deduction(c, ContentPenalty) == if words < 200 then 20 else if words > 1000 then 10 else 0 by {
      DeductionOptional(words < 200, TooShort(words), ContentPenalty);
      DeductionOptional(words > 1000, TooLong(words), ContentPenalty);
    }
    assert Deduction(d, ContentPenalty) == if buzzwords > 3 then 10 else 0 by {
      DeductionOptional(buzzwords > 3, GenericBuzzwords, ContentPenalty);
    }
    assert Deduction(e, ContentPenalty) == if bullets < 5 then 10 else 0 by {
      DeductionOptional(bullets < 5, FewBullets, ContentPenalty);
    }
    DeductionAppend(a, b, ContentPenalty);
    DeductionAppend(a + b, c, ContentPenalty);
    DeductionAppend(a + b + c, d, ContentPenalty);
    DeductionAppend(a + b + c + d, e, ContentPenalty);
  }

  /** The length issue says "too short" below 200 words and "too long" above
      1000, never both. */
  lemma ContentLength(verbs: nat, numbers: nat, words: nat, buzzwords: nat, bullets: nat, w: nat)
    ensures var issues := ContentIssuesFrom(verbs, numbers, words, buzzwords, bullets);
      && (TooShort(w) in issues <==> w == words && w < 200)
      && (TooLong(w) in issues <==> w == words && w > 1000)
  {
    var ab := (if verbs < 5 then [FewActionVerbs(verbs)] else []) + (if numbers < 3 then [NoMetrics] else []);
    var de := (if buzzwords > 3 then [GenericBuzzwords] else []) + (if bullets < 5 then [FewBullets] else []);
    assert ContentIssuesFrom(verbs, numbers, words, buzzwords, bullets) == ab + LengthIssues(words) + de;
    assert TooShort(w) !in ab && TooShort(w) !in de;
    assert TooLong(w) !in ab && TooLong(w) !in de;
  }

  // ----------------------------------------------------- recommendations

  const RecommendedFonts: seq<string> := [
    "Arial", "Calibri", "Georgia", "Helvetica", "Times New Roman", "Verdana", "Cambria"]

  /** A recommendation; the keyword one lists up to five missing keywords
      and the font one the first four recommended fonts. */
  datatype Advice =
    | FixFormatting
    | AddKeywords(keywords: seq<string>)
    | ImproveStructure
    | EnhanceContent
    | UseStandardFonts(fonts: seq<string>)
    | SaveAsDocxOrPdf

  function Category(a: Advice): string {
    match a
    case FixFormatting => "format"
    case AddKeywords(_) => "keywords"
    case ImproveStructure => "structure"
    case EnhanceContent => "content"
    case UseStandardFonts(_) => "general"
    case SaveAsDocxOrPdf => "general"
  }

  function Priority(a: Advice): string {
    match a
    case FixFormatting => "high"
    case AddKeywords(_) => "critical"
    case ImproveStructure => "high"
    case EnhanceContent => "medium"
    case UseStandardFonts(_) => "medium"
    case SaveAsDocxOrPdf => "low"
  }

  /** The position of each kind of recommendation in the list. */
  function AdviceRank(a: Advice): nat {
    match a
    case FixFormatting => 0
    case AddKeywords(_) => 1
    case ImproveStructure => 2
    case EnhanceContent => 3
    case UseStandardFonts(_) => 4
    case SaveAsDocxOrPdf => 5
  }

  function RecommendationsOf(f: FormatReport, k: KeywordReport, s: StructureReport, c: ContentReport): seq<Advice> {
    (if f.score < 70 then [FixFormatting] else [])
    + (if k.score < 60.0 then [AddKeywords(Take(k.missing, 5))] else [])
    + (if s.score < 70 then [ImproveStructure] else [])
    + (if c.score < 70 then [EnhanceContent] else [])
    + [UseStandardFonts(RecommendedFonts[..4]), SaveAsDocxOrPdf]
  }

  method GenerateRecommendations(f: FormatReport, k: KeywordReport, s: StructureReport, c: ContentReport)
    returns (rs: seq<Advice>)
    ensures rs == RecommendationsOf(f, k, s, c)
  {
    rs := [];
    if f.score < 70 {
      rs := rs + [FixFormatting];
    }
    if k.score < 60.0 {
      rs := rs + [AddKeywords(Take(k.missing, 5))];
    }
    if s.score < 70 {
      rs := rs + [ImproveStructure];
    }
    if c.score < 70 {
      rs := rs + [EnhanceContent];
    }
    rs := rs + [UseStandardFonts(RecommendedFonts[..4])];
    rs := rs + [SaveAsDocxOrPdf];
  }

  /** The categories come in the order format, keywords, structure,
      content, and the two general tips always close the list, so it holds
      2 to 6 entries. */
  lemma RecommendationsOrder(f: FormatReport, k: KeywordReport, s: StructureReport, c: ContentReport)
    ensures var rs := RecommendationsOf(f, k, s, c);
      && 2 <= |rs| <= 6
      && rs[|rs| - 2] == UseStandardFonts(["Arial", "Calibri", "Georgia", "Helvetica"])
      && rs[|rs| - 1] == SaveAsDocxOrPdf
      && (forall i, j :: 0 <= i < j < |rs| ==> AdviceRank(rs[i]) < AdviceRank(rs[j]))
  {
    var rs := RecommendationsOf(f, k, s, c);
    assert forall i :: 0 <= i < |rs| - 1 ==> AdviceRank(rs[i]) < AdviceRank(rs[i + 1]);
    RanksIncrease(rs);
  }

  /** A category's recommendation is present exactly when its score is
      below its threshold. */
  lemma RecommendationsTriggered(f: FormatReport, k: KeywordReport, s: StructureReport, c: ContentReport)
    ensures var rs := RecommendationsOf(f, k, s, c);
      && (FixFormatting in rs <==> f.score < 70)
      && (AddKeywords(Take(k.missing, 5)) in rs <==> k.score < 60.0)
      && (ImproveStructure in rs <==> s.score < 70)
      && (EnhanceContent in rs <==> c.score < 70)
  {
  }

  lemma {:induction false} RanksIncrease(rs: seq<Advice>)
    requires forall i :: 0 <= i < |rs| - 1 ==> AdviceRank(rs[i]) < AdviceRank(rs[i + 1])
    ensures forall i, j :: 0 <= i < j < |rs| ==> AdviceRank(rs[i]) < AdviceRank(rs[j])
    decreases |rs|
  {
    if |rs| > 1 {
      var t := rs[1..];
      forall i | 0 <= i < |t| - 1
        ensures AdviceRank(t[i]) < AdviceRank(t[i + 1])
      {
        assert t[i] == rs[i + 1] && t[i + 1] == rs[i + 2];
      }
      RanksIncrease(t);
      forall i, j | 0 <= i < j < |rs|
        ensures AdviceRank(rs[i]) < AdviceRank(rs[j])
      {
        assert rs[j] == t[j - 1];
        if i > 0 {
          assert rs[i] == t[i - 1];
        } else if j > 1 {
          assert rs[1] == t[0];
        }
      }
    }
  }

  // ----------------------------------------------------- critical issues

  datatype Critical =
    | SevereFormatting
    | TooFewKeywords
    | Uncontactable
    | PoorStructure
    | TooLittleInformation

  /** The one critical issue `x` when `cond` holds, none otherwise. */
  function Flagged(cond: bool, x: Critical): seq<Critical> {
    if cond then [x] else []
  }

  function CriticalIssuesOf(f: FormatReport, k: KeywordReport, s: StructureReport, c: ContentReport): seq<Critical> {
    Flagged(f.score < 50, SevereFormatting)
    + Flagged(k.score < 40.0, TooFewKeywords)
    + Flagged(!s.hasEmail, Uncontactable)
    + Flagged(s.score < 50, PoorStructure)
    + Flagged(c.wordCount < 150, TooLittleInformation)
  }

  method IdentifyCriticalIssues(f: FormatReport, k: KeywordReport, s: StructureReport, c: ContentReport)
    returns (critical: seq<Critical>)
    ensures critical == CriticalIssuesOf(f, k, s, c)
  {
    critical := [];
    if f.score < 50 {
      critical := critical + [SevereFormatting];
    }
    assert critical == Flagged(f.score < 50, SevereFormatting);
    ghost var sofar := critical;
    if k.score < 40.0 {
      critical := critical + [TooFewKeywords];
    }
    assert critical == sofar + Flagged(k.score < 40.0, TooFewKeywords);
    sofar := critical;
    if !s.hasEmail {
      critical := critical + [Uncontactable];
    }
    assert critical == sofar + Flagged(!s.hasEmail, Uncontactable);
    sofar := critical;
    if s.score < 50 {
      critical := critical + [PoorStructure];
    }
    assert critical == sofar + Flagged(s.score < 50, PoorStructure);
    sofar := critical;
    if c.wordCount < 150 {
      critical := critical + [TooLittleInformation];
    }
    assert critical == sofar + Flagged(c.wordCount < 150, TooLittleInformation);
  }

  /** Each critical issue is reported exactly when its condition holds. */
  lemma CriticalIssuesReported(f: FormatReport, k: KeywordReport, s: StructureReport, c: ContentReport)
    ensures var cs := CriticalIssuesOf(f, k, s, c);
      && (SevereFormatting in cs <==> f.score < 50)
      && (TooFewKeywords in cs <==> k.score < 40.0)
      && (Uncontactable in cs <==> !s.hasEmail)
      && (PoorStructure in cs <==> s.score < 50)
      && (TooLittleInformation in cs <==> c.wordCount < 150)
  {
    var a := Flagged(f.score < 50, SevereFormatting);
    var b := Flagged(k.score < 40.0, TooFewKeywords);
    var u := Flagged(!s.hasEmail, Uncontactable);
    var p := Flagged(s.score < 50, PoorStructure);
    var l := Flagged(c.wordCount < 150, TooLittleInformation);
    assert CriticalIssuesOf(f, k, s, c) == a + b + u + p + l;
    forall x: Critical ensures x in a + b + u + p + l <==> x in a || x in b || x in u || x in p || x in l {
    }
  }

  /** No critical issue is reported twice, so there are at most five. */
  lemma CriticalIssuesDistinct(f: FormatReport, k: KeywordReport, s: StructureReport, c: ContentReport)
    ensures var cs := CriticalIssuesOf(f, k, s, c);
      |cs| <= 5 && Distinct(cs)
  {
  }

  // --------------------------------------------------------------- grade

  datatype Grade = A | B | C | D | F

  function GradeOf(score: real): Grade {
    if score >= 90.0 then A
    else if score >= 80.0 then B
    else if score >= 70.0 then C
    else if score >= 60.0 then D
    else F
  }

  /** 4 for A down to 0 for F. */
  function GradeRank(g: Grade): nat {
    match g
    case A => 4
    case B => 3
    case C => 2
    case D => 1
    case F => 0
  }

  /** A higher score never earns a lower grade, and a grade of C or better
      is exactly the ATS-friendly threshold of 70. */
  lemma GradeMonotone(x: real, y: real)
    ensures x <= y ==> GradeRank(GradeOf(x)) <= GradeRank(GradeOf(y))
    ensures GradeRank(GradeOf(x)) >= GradeRank(C) <==> x >= 70.0
    ensures GradeOf(x) == A <==> x >= 90.0
    ensures GradeOf(x) == F <==> x < 60.0
  {
  }

  // ------------------------------------------------------------- analyse

  /** `int(x)`: truncation toward zero. */
  function Truncate(x: real): (n: int)
    ensures x >= 0.0 ==> n == x.Floor
    ensures n as real <= x < n as real + 1.0 || x < 0.0
  {
    if x >= 0.0 then x.Floor else -((-x).Floor)
  }

  datatype Analysis = Analysis(
    overallScore: real, atsFriendly: bool, grade: Grade,
    format: FormatReport, keywords: KeywordReport, structure: StructureReport, content: ContentReport,
    criticalIssues: seq<Critical>, recommendations: seq<Advice>, estimatedPassRate: int)

  function Overall(f: FormatReport, k: KeywordReport, s: StructureReport, c: ContentReport): real {
    (f.score as real) * 0.25 + k.score * 0.35 + (s.score as real) * 0.20 + (c.score as real) * 0.20
  }

  function Assemble(f: FormatReport, k: KeywordReport, s: StructureReport, c: ContentReport): Analysis {
    var overall := Overall(f, k, s, c);
    var rate := Truncate(overall);
    Analysis(
      overall, overall >= 70.0, GradeOf(overall), f, k, s, c,
      CriticalIssuesOf(f, k, s, c), RecommendationsOf(f, k, s, c), if rate < 95 then rate else 95)
  }

  function AnalysisOf(eng: Engine, text: string, jobKeywords: Option<seq<string>>): Analysis {
    Assemble(FormatOf(eng, text), KeywordsOf(text, jobKeywords), StructureOf(eng, text), ContentOf(eng, text))
  }

  /** Combines the four category reports into the analysis. */
  method Combine(f: FormatReport, k: KeywordReport, s: StructureReport, c: ContentReport) returns (a: Analysis)
    ensures a == Assemble(f, k, s, c)
  {
    var overall := (f.score as real) * 0.25 + k.score * 0.35 + (s.score as real) * 0.20 + (c.score as real) * 0.20;
    var recommendations := GenerateRecommendations(f, k, s, c);
    var critical := IdentifyCriticalIssues(f, k, s, c);
    var rate := Truncate(overall);
    if rate > 95 {
      rate := 95;
    }
    a := Analysis(overall, overall >= 70.0, GradeOf(overall), f, k, s, c, critical, recommendations, rate);
  }

  method Analyze(eng: Engine, text: string, jobKeywords: Option<seq<string>>) returns (a: Analysis)
    ensures a == AnalysisOf(eng, text, jobKeywords)
  {
    var f := AnalyzeFormat(eng, text);
    var k := AnalyzeKeywords(text, jobKeywords);
    var s := AnalyzeStructure(eng, text);
    var c := AnalyzeContent(eng, text);
    a := Combine(f, k, s, c);
  }

  /** The weights add up to one. */
  lemma WeightsSumToOne()
    ensures 0.25 + 0.35 + 0.20 + 0.20 == 1.0
  {
  }

  /** For any reports with scores in range, the overall score is their
      weighted mean, in [0, 100]; it is ATS friendly exactly at 70 or more,
      which is exactly a grade of C or better, and the pass rate is the
      whole part of the score, capped at 95. A content score of at least 30
      alone is worth 6 points. */
  lemma AssembleProperties(f: FormatReport, k: KeywordReport, s: StructureReport, c: ContentReport)
    requires f.score <= 100 && 0.0 <= k.score <= 100.0 && s.score <= 100 && c.score <= 100
    ensures var a := Assemble(f, k, s, c);
      && 0.0 <= a.overallScore <= 100.0
      && (a.atsFriendly <==> a.overallScore >= 70.0)
      && (a.atsFriendly <==> GradeRank(a.grade) >= GradeRank(C))
      && a.estimatedPassRate == (if a.overallScore.Floor < 95 then a.overallScore.Floor else 95)
      && 0 <= a.estimatedPassRate <= 95
      && (c.score >= 30 ==> a.overallScore >= 6.0 && a.estimatedPassRate >= 6)
  {
    GradeMonotone(Overall(f, k, s, c), 70.0);
  }

  /** The format score of every text is at most 100. */
  lemma FormatInRange(eng: Engine, text: string)
    ensures FormatOf(eng, text).score <= 100
  {
    FormatScore(ElementsFound(eng, text), SpecialCharCount(text), Contains(text, "\n\n"), LongLineCount(text));
  }

  /** The structure score of every text is at most 100. */
  lemma StructureInRange(eng: Engine, text: string)
    ensures StructureOf(eng, text).score <= 100
  {
    SectionsMeaning(text, "");
    StructureScore(FoundSections(text), MissingSections(text), HasEmail(eng, text), HasPhone(eng, text),
      Undated(eng, SectionText(text, ExperienceKeys)));
  }

  /** The content score of every text is between 30 and 100. */
  lemma ContentInRange(eng: Engine, text: string)
    ensures 30 <= ContentOf(eng, text).score <= 100
  {
    ContentScore(VerbCount(text), |eng(QuantifiedAchievement, text)|, WordCount(text), BuzzwordCount(text),
      BulletCount(text));
  }

  /** Every resume scores more than zero overall, at least 6 points. */
  lemma OverallPositive(eng: Engine, text: string, jobKeywords: Option<seq<string>>)
    ensures var a := AnalysisOf(eng, text, jobKeywords);
      && 6.0 <= a.overallScore <= 100.0
      && 6 <= a.estimatedPassRate <= 95
      && (a.atsFriendly <==> a.overallScore >= 70.0)
      && (a.atsFriendly <==> GradeRank(a.grade) >= GradeRank(C))
  {
    FormatInRange(eng, text);
    StructureInRange(eng, text);
    ContentInRange(eng, text);
    AssembleProperties(FormatOf(eng, text), KeywordsOf(text, jobKeywords), StructureOf(eng, text), ContentOf(eng, text));
  }

  // ------------------------------------------------------------ optimise

  /** Weak phrases and their stronger replacements, in the order checked. */
  const WeakPhrases: seq<(string, string)> := [
    ("responsible for", "managed"), ("helped with", "contributed to"),
    ("worked on", "developed"), ("duties included", "key achievements include")]

  datatype Suggestion =
    | InsertKeywords(keywords: seq<string>)
    | ReplacePhrase(original: string, replacement: string)

  datatype Optimization = Optimization(suggestions: seq<Suggestion>, autoImprovements: string)

  function PhraseIn(lowerText: string): ((string, string)) -> bool {
    (w: (string, string)) => Contains(lowerText, w.0)
  }

  function Replacement(w: (string, string)): Suggestion {
    ReplacePhrase(w.0, w.1)
  }

  /** The keyword suggestion: only for a non-empty list of target keywords
      of which some are missing, naming the first five missing. */
  function KeywordSuggestions(jobKeywords: Option<seq<string>>, missing: seq<string>): seq<Suggestion> {
    if jobKeywords.Some? && jobKeywords.value != [] && missing != [] then [InsertKeywords(Take(missing, 5))] else []
  }

  /** A replacement for each weak phrase in the lower-cased text, in table
      order. */
  function PhraseSuggestions(lowerText: string): seq<Suggestion> {
    Map(Filter(WeakPhrases, PhraseIn(lowerText)), Replacement)
  }

  /** The suggestions use only the keyword analysis: the missing keywords
      of `KeywordsOf`. */
  function OptimizationOf(text: string, jobKeywords: Option<seq<string>>): Optimization {
    Optimization(
      KeywordSuggestions(jobKeywords, KeywordsOf(text, jobKeywords).missing) + PhraseSuggestions(Lower(text)),
      AutoOptimize(text))
  }

  method SuggestPhrases(lt: string) returns (suggestions: seq<Suggestion>)
    ensures suggestions == PhraseSuggestions(lt)
  {
    suggestions := [];
    for i := 0 to |WeakPhrases|
      invariant suggestions == Map(Filter(WeakPhrases[..i], PhraseIn(lt)), Replacement)
    {
      var (weak, strong) := WeakPhrases[i];
      MapFilterStep(WeakPhrases, i, PhraseIn(lt), Replacement);
      if Contains(lt, weak) {
        suggestions := suggestions + [ReplacePhrase(weak, strong)];
      }
    }
    assert WeakPhrases[..|WeakPhrases|] == WeakPhrases;
  }

  /** The missing keywords of a full analysis. */
  method AnalyzedMissing(eng: Engine, text: string, jobKeywords: Option<seq<string>>) returns (missing: seq<string>)
    ensures missing == KeywordsOf(text, jobKeywords).missing
  {
    var analysis := Analyze(eng, text, jobKeywords);
    missing := analysis.keywords.missing;
  }

  method OptimizeText(eng: Engine, text: string, jobKeywords: Option<seq<string>>) returns (o: Optimization)
    ensures o == OptimizationOf(text, jobKeywords)
  {
    var keywords: seq<Suggestion> := [];
    if jobKeywords.Some? && jobKeywords.value != [] {
      var missing := AnalyzedMissing(eng, text, jobKeywords);
      if missing != [] {
        keywords := [InsertKeywords(Take(missing, 5))];
      }
    }
    assert keywords == KeywordSuggestions(jobKeywords, KeywordsOf(text, jobKeywords).missing);
    var phrases := SuggestPhrases(Lower(text));
    var auto := AutoOptimize(text);
    o := Optimization(keywords + phrases, auto);
  }

  /** A keyword suggestion is made exactly when target keywords are given
      and some are missing, and it names the first five missing; a phrase
      replacement is suggested exactly for each weak phrase in the text.
      So there are at most five suggestions. */
  lemma SuggestionsProperties(jobKeywords: Option<seq<string>>, missing: seq<string>, lowerText: string,
                              weak: string, strong: string)
    ensures var ss := KeywordSuggestions(jobKeywords, missing) + PhraseSuggestions(lowerText);
      && |ss| <= 5
      && ((exists ks :: InsertKeywords(ks) in ss) <==> jobKeywords.Some? && jobKeywords.value != [] && missing != [])
      && (forall ks :: InsertKeywords(ks) in ss ==> ks == Take(missing, 5))
      && (ReplacePhrase(weak, strong) in ss <==> (weak, strong) in WeakPhrases && Contains(lowerText, weak))
  {
    SuggestionsKeywords(jobKeywords, missing, lowerText);
    SuggestionsPhrases(jobKeywords, missing, lowerText, weak, strong);
  }

  /** At most one keyword suggestion, naming the first five missing
      keywords, and only when the posting lists keywords and some are
      missing; at most five suggestions in all. */
  lemma SuggestionsKeywords(jobKeywords: Option<seq<string>>, missing: seq<string>, lowerText: string)
    ensures var ss := KeywordSuggestions(jobKeywords, missing) + PhraseSuggestions(lowerText);
      && |ss| <= 5
      && ((exists ks :: InsertKeywords(ks) in ss) <==> jobKeywords.Some? && jobKeywords.value != [] && missing != [])
      && (forall ks :: InsertKeywords(ks) in ss ==> ks == Take(missing, 5))
  {
    var kws := KeywordSuggestions(jobKeywords, missing);
    var found := Filter(WeakPhrases, PhraseIn(lowerText));
    var phrases := Map(found, Replacement);
    forall i | 0 <= i < |phrases|
      ensures phrases[i].ReplacePhrase?
    {
      assert phrases[i] == Replacement(found[i]);
    }
    if kws != [] {
      assert kws[0] in kws + phrases;
    }
  }

  /** A phrase replacement is suggested exactly for each weak phrase in the
      text. */
  lemma SuggestionsPhrases(jobKeywords: Option<seq<string>>, missing: seq<string>, lowerText: string,
                           weak: string, strong: string)
    ensures var ss := KeywordSuggestions(jobKeywords, missing) + PhraseSuggestions(lowerText);
      ReplacePhrase(weak, strong) in ss <==> (weak, strong) in WeakPhrases && Contains(lowerText, weak)
  {
    MapFilterMember(WeakPhrases, PhraseIn(lowerText), Replacement, ReplacePhrase(weak, strong));
  }

  /** The optimisation's keyword suggestion names the first five keywords
      the keyword analysis reports missing. */
  lemma OptimizationKeywords(text: string, jobKeywords: Option<seq<string>>, weak: string, strong: string)
    ensures var o := OptimizationOf(text, jobKeywords);
      var missing := KeywordsOf(text, jobKeywords).missing;
      && |o.suggestions| <= 5
      && ((exists ks :: InsertKeywords(ks) in o.suggestions) <==>
            jobKeywords.Some? && jobKeywords.value != [] && missing != [])
      && (forall ks :: InsertKeywords(ks) in o.suggestions ==> ks == Take(missing, 5))
      && (ReplacePhrase(weak, strong) in o.suggestions <==>
            (weak, strong) in WeakPhrases && Contains(Lower(text), weak))
  {
    SuggestionsProperties(jobKeywords, KeywordsOf(text, jobKeywords).missing, Lower(text), weak, strong);
  }

  // ------------------------------------------------------- auto-optimise

  /** `s` without the character `c`. */
  function Without(s: string, c: char): string {
    Filter(s, Unlike(c))
  }

  function Unlike(c: char): char -> bool {
    (x: char) => x != c
  }

  /** No more than `k` copies of `c` in a row, counting the `cur` copies
      just before `s`. */
  predicate RunsAtMost(s: string, c: char, k: nat, cur: nat)
    decreases |s|
  {
    s == [] || (if s[0] == c then cur < k && RunsAtMost(s[1..], c, k, cur + 1) else RunsAtMost(s[1..], c, k, 0))
  }

  /** The number of copies of `c` that `s` starts with. */
  function RunLength(s: string, c: char): (n: nat)
    ensures 0 < n <= |s| || (n == 0 && (s == [] || s[0] != c))
    ensures forall i :: 0 <= i < n ==> s[i] == c
    ensures n < |s| ==> s[n] != c
  {
    if s != [] && s[0] == c then 1 + RunLength(s[1..], c) else 0
  }

  function Repeat(c: char, n: nat): (r: string)
    ensures |r| == n && forall i :: 0 <= i < n ==> r[i] == c
  {
    seq(n, _ => c)
  }

  /** Every maximal run of more than `k` copies of `c` shortened to `k`:
      `re.sub` of a run pattern such as `\n\n\n+` by `\n\n` (`k` = 2) or
      `  +` by a single space (`k` = 1). */
  function Collapse(s: string, c: char, k: nat): (r: string)
    requires k >= 1
    ensures s != [] ==> r != [] && r[0] == s[0]
    decreases |s|
  {
    if s == [] then []
    else if s[0] != c then [s[0]] + Collapse(s[1..], c, k)
    else
      var n := RunLength(s, c);
      Repeat(c, if n > k then k else n) + Collapse(s[n..], c, k)
  }

  /** `re.sub(r'([•\-\*])(\w)', r'\1 \2', s)`: a space between every bullet
      character and a word character right after it. */
  function SpaceBullets(s: string): (r: string)
    ensures s != [] ==> r != [] && r[0] == s[0]
    decreases |s|
  {
    if s == [] then []
    else if |s| >= 2 && IsBulletChar(s[0]) && IsWordChar(s[1]) then [s[0], ' ', s[1]] + SpaceBullets(s[2..])
    else [s[0]] + SpaceBullets(s[1..])
  }

  /** Blank-line runs cut to one blank line, space runs to one space, and
      bullets spaced from their text. */
  function AutoOptimize(text: string): string {
    SpaceBullets(Collapse(Collapse(text, '\n', 2), ' ', 1))
  }

  /** Characters other than `c` shield a run of `d`: after at least one of
      them the run count starts again. */
  lemma {:induction false} RunsReset(u: string, t: string, d: char, k: nat, cur: nat)
    requires u != [] && forall i :: 0 <= i < |u| ==> u[i] != d
    ensures RunsAtMost(u + t, d, k, cur) <==> RunsAtMost(t, d, k, 0)
    decreases |u|
  {
    assert (u + t)[0] == u[0];
    if |u| == 1 {
      assert (u + t)[1..] == t;
    } else {
      assert (u + t)[1..] == u[1..] + t;
      RunsReset(u[1..], t, d, k, 0);
    }
  }

  /** A run of at most `k` copies of `c` followed by text that does not
      continue it. */
  lemma {:induction false} RunsRepeat(m: nat, t: string, c: char, k: nat, cur: nat)
    requires cur + m <= k && (t == [] || t[0] != c) && RunsAtMost(t, c, k, 0)
    ensures RunsAtMost(Repeat(c, m) + t, c, k, cur)
    decreases m
  {
    if m == 0 {
      assert Repeat(c, m) + t == t;
      if t != [] {
        assert RunsAtMost(t[1..], c, k, 0);
      }
    } else {
      assert (Repeat(c, m) + t)[0] == c;
      assert (Repeat(c, m) + t)[1..] == Repeat(c, m - 1) + t;
      RunsRepeat(m - 1, t, c, k, cur + 1);
    }
  }

  /** After collapsing, no run of `c` is longer than `k`. */
  lemma {:induction false} CollapseBounded(s: string, c: char, k: nat)
    requires k >= 1
    ensures RunsAtMost(Collapse(s, c, k), c, k, 0)
    decreases |s|
  {
    if s != [] {
      if s[0] != c {
        CollapseBounded(s[1..], c, k);
        assert ([s[0]] + Collapse(s[1..], c, k))[1..] == Collapse(s[1..], c, k);
      } else {
        var n := RunLength(s, c);
        CollapseBounded(s[n..], c, k);
        RunsRepeat(if n > k then k else n, Collapse(s[n..], c, k), c, k, 0);
      }
    }
  }

  /** Collapsing runs of `c` does not lengthen the runs of another
      character. */
  lemma {:induction false} CollapseKeepsRuns(s: string, c: char, k: nat, d: char, m: nat, cur: nat)
    requires k >= 1 && d != c && RunsAtMost(s, d, m, cur)
    ensures RunsAtMost(Collapse(s, c, k), d, m, cur)
    decreases |s|
  {
    if s != [] {
      if s[0] != c {
        var next := if s[0] == d then cur + 1 else 0;
        CollapseKeepsRuns(s[1..], c, k, d, m, next);
        assert ([s[0]] + Collapse(s[1..], c, k))[1..] == Collapse(s[1..], c, k);
      } else {
        var n := RunLength(s, c);
        var j := if n > k then k else n;
        assert s == Repeat(c, n) + s[n..];
        RunsReset(Repeat(c, n), s[n..], d, m, cur);
        CollapseKeepsRuns(s[n..], c, k, d, m, 0);
        RunsReset(Repeat(c, j), Collapse(s[n..], c, k), d, m, cur);
      }
    }
  }

  /** Collapsing runs of `c` keeps every other character, in order. */
  lemma {:induction false} CollapseKeepsText(s: string, c: char, k: nat)
    requires k >= 1
    ensures Without(Collapse(s, c, k), c) == Without(s, c)
    decreases |s|
  {
    var p := Unlike(c);
    if s != [] {
      if s[0] != c {
        CollapseKeepsText(s[1..], c, k);
        assert ([s[0]] + Collapse(s[1..], c, k))[0] == s[0];
        assert ([s[0]] + Collapse(s[1..], c, k))[1..] == Collapse(s[1..], c, k);
      } else {
        var n := RunLength(s, c);
        var j := if n > k then k else n;
        CollapseKeepsText(s[n..], c, k);
        assert s == Repeat(c, n) + s[n..];
        FilterAppend(Repeat(c, n), s[n..], p);
        FilterAppend(Repeat(c, j), Collapse(s[n..], c, k), p);
        FilterNone(Repeat(c, n), p);
        FilterNone(Repeat(c, j), p);
      }
    }
  }

  /** Spacing bullets only adds spaces. */
  lemma {:induction false} SpaceBulletsKeepsText(s: string)
    ensures Without(SpaceBullets(s), ' ') == Without(s, ' ')
    decreases |s|
  {
    if s != [] {
      if |s| >= 2 && IsBulletChar(s[0]) && IsWordChar(s[1]) {
        SpaceBulletsKeepsText(s[2..]);
        assert s == [s[0], s[1]] + s[2..];
        SpacedPairKeepsText(s[0], s[1], s[2..], SpaceBullets(s[2..]));
      } else {
        SpaceBulletsKeepsText(s[1..]);
        assert s == [s[0]] + s[1..];
        ConsKeepsText(s[0], s[1..], SpaceBullets(s[1..]));
      }
    }
  }

  /** A space put between two characters does not change the text apart
      from spaces. */
  lemma SpacedPairKeepsText(x: char, y: char, rest: string, t: string)
    requires Without(t, ' ') == Without(rest, ' ')
    ensures Without([x, ' ', y] + t, ' ') == Without([x, y] + rest, ' ')
  {
    var p := Unlike(' ');
    FilterAppend([x, y], rest, p);
    FilterAppend([x, ' ', y], t, p);
    assert Filter([x, ' ', y], p) == Filter([x, y], p) by {
      assert [x, ' ', y] == [x] + [' '] + [y];
      FilterAppend([x] + [' '], [y], p);
      FilterAppend([x], [' '], p);
      assert [x, y] == [x] + [y];
      FilterAppend([x], [y], p);
    }
  }

  /** The same first character before two texts equal apart from spaces. */
  lemma ConsKeepsText(x: char, rest: string, t: string)
    requires Without(t, ' ') == Without(rest, ' ')
    ensures Without([x] + t, ' ') == Without([x] + rest, ' ')
  {
    var p := Unlike(' ');
    FilterAppend([x], rest, p);
    FilterAppend([x], t, p);
  }

  /** No bullet character directly before a word character. */
  predicate BulletsSpaced(r: string) {
    forall i :: 0 <= i < |r| - 1 ==> !(IsBulletChar(r[i]) && IsWordChar(r[i + 1]))
  }

  /** Spacing bullets leaves no bullet character directly before a word
      character. */
  lemma {:induction false} SpaceBulletsSpaced(s: string)
    ensures BulletsSpaced(SpaceBullets(s))
    decreases |s|
  {
    if s != [] {
      if |s| >= 2 && IsBulletChar(s[0]) && IsWordChar(s[1]) {
        var t := SpaceBullets(s[2..]);
        SpaceBulletsSpaced(s[2..]);
        var r := [s[0], ' ', s[1]] + t;
        forall i | 0 <= i < |r| - 1
          ensures !(IsBulletChar(r[i]) && IsWordChar(r[i + 1]))
        {
          if i >= 3 {
            var j := i - 3;
            assert r[i] == t[j] && r[i + 1] == t[j + 1];
            assert !(IsBulletChar(t[j]) && IsWordChar(t[j + 1]));
          } else if i == 2 {
            assert r[2] == s[1];
          } else {
            assert r[1] == ' ';
          }
        }
      } else {
        var t := SpaceBullets(s[1..]);
        SpaceBulletsSpaced(s[1..]);
        var r := [s[0]] + t;
        forall i | 0 <= i < |r| - 1
          ensures !(IsBulletChar(r[i]) && IsWordChar(r[i + 1]))
        {
          if i >= 1 {
            var j := i - 1;
            assert r[i] == t[j] && r[i + 1] == t[j + 1];
            assert !(IsBulletChar(t[j]) && IsWordChar(t[j + 1]));
          } else {
            assert r[1] == t[0] == s[1..][0];
          }
        }
      }
    }
  }

  /** Spacing bullets does not lengthen the runs of a character that is
      neither a bullet nor a word character, such as a newline or a space. */
  lemma {:induction false} SpaceBulletsKeepsRuns(s: string, d: char, m: nat, cur: nat)
    requires !IsBulletChar(d) && !IsWordChar(d) && m >= 1 && RunsAtMost(s, d, m, cur)
    ensures RunsAtMost(SpaceBullets(s), d, m, cur)
    decreases |s|
  {
    if s != [] {
      if |s| >= 2 && IsBulletChar(s[0]) && IsWordChar(s[1]) {
        assert s == [s[0], s[1]] + s[2..];
        RunsReset([s[0], s[1]], s[2..], d, m, cur);
        SpaceBulletsKeepsRuns(s[2..], d, m, 0);
        var t := SpaceBullets(s[2..]);
        RunsReset([s[1]], t, d, m, 0);
        if d == ' ' {
          assert ([' '] + ([s[1]] + t))[1..] == [s[1]] + t;
          assert RunsAtMost([' '] + ([s[1]] + t), d, m, 0);
        } else {
          RunsReset([' '], [s[1]] + t, d, m, 0);
        }
        assert [s[0], ' ', s[1]] + t == [s[0]] + ([' '] + ([s[1]] + t));
        RunsReset([s[0]], [' '] + ([s[1]] + t), d, m, cur);
      } else {
        var next := if s[0] == d then cur + 1 else 0;
        SpaceBulletsKeepsRuns(s[1..], d, m, next);
        assert ([s[0]] + SpaceBullets(s[1..]))[1..] == SpaceBullets(s[1..]);
      }
    }
  }

  /** The tidied text has no more than one blank line in a row, no two
      spaces in a row and no bullet stuck to its text, and it holds the
      same characters as the original apart from spaces and newlines. */
  lemma AutoOptimizeProperties(text: string)
    ensures var r := AutoOptimize(text);
      && RunsAtMost(r, '\n', 2, 0)
      && RunsAtMost(r, ' ', 1, 0)
      && BulletsSpaced(r)
      && Without(Without(r, ' '), '\n') == Without(Without(text, ' '), '\n')
  {
    var a := Collapse(text, '\n', 2);
    var b := Collapse(a, ' ', 1);
    CollapseBounded(text, '\n', 2);
    CollapseKeepsRuns(a, ' ', 1, '\n', 2, 0);
    SpaceBulletsKeepsRuns(b, '\n', 2, 0);
    CollapseBounded(a, ' ', 1);
    SpaceBulletsKeepsRuns(b, ' ', 1, 0);
    SpaceBulletsKeepsText(b);
    SpaceBulletsSpaced(b);
    CollapseKeepsText(a, ' ', 1);
    CollapseKeepsText(text, '\n', 2);
    var notSpace := Unlike(' ');
    var notNewline := Unlike('\n');
    FilterCommute(a, notSpace, notNewline);
    FilterCommute(text, notSpace, notNewline);
  }

  // ------------------------------------------------------------ sections

  /** A line mentions one of `keys` when its lower-cased form contains it. */
  predicate Mentions(line: string, keys: seq<string>) {
    ContainsAny(Lower(line), keys)
  }

  function Mentioner(keys: seq<string>): string -> bool {
    (line: string) => Mentions(line, keys)
  }

  /** The headings that end a section with the given keys. */
  function OtherHeadings(keys: seq<string>): seq<string> {
    Filter(CommonHeadings, NotKey(keys))
  }

  function NotKey(keys: seq<string>): string -> bool {
    (h: string) => h !in keys
  }

  /** The lines `[start, end)` of the section: it starts after the first
      line that mentions a key and runs up to the first later line that
      mentions another heading, or to the last line. */
  function Bounds(lines: seq<string>, keys: seq<string>): (r: Option<(nat, nat)>)
    ensures r.None? <==> forall i :: 0 <= i < |lines| ==> !Mentions(lines[i], keys)
    ensures r.Some? ==>
      var (s, e) := r.value;
      0 < s <= e <= |lines|
      && Mentions(lines[s - 1], keys)
      && (forall i :: 0 <= i < s - 1 ==> !Mentions(lines[i], keys))
      && (forall i :: s <= i < e ==> !Mentions(lines[i], OtherHeadings(keys)))
      && (e < |lines| ==> Mentions(lines[e], OtherHeadings(keys)))
  {
    var k := FirstFrom(lines, 0, Mentioner(keys));
    if k == |lines| then None
    else Some((k + 1, FirstFrom(lines, k + 1, Mentioner(OtherHeadings(keys)))))
  }

  /** The section's lines joined by newlines, or "" when no line mentions a
      key. */
  function SectionText(text: string, keys: seq<string>): string {
    var lines := Split(text, '\n');
    match Bounds(lines, keys)
    case None => ""
    case Some((s, e)) => Join("\n", lines[s..e])
  }

  method ExtractSection(text: string, keys: seq<string>) returns (r: string)
    ensures r == SectionText(text, keys)
  {
    var lines := Split(text, '\n');
    var start := FindFirst(lines, 0, Mentioner(keys));
    if start == |lines| {
      return "";
    }
    var end := FindFirst(lines, start + 1, Mentioner(OtherHeadings(keys)));
    r := Join("\n", lines[start + 1..end]);
  }

  /** The experience section ends at a line naming education, skills,
      projects or certifications. */
  lemma ExperienceHeadings()
    ensures OtherHeadings(ExperienceKeys) == ["education", "skills", "projects", "certifications"]
  {
    var rest := ["education", "skills", "projects", "certifications"];
    assert CommonHeadings == ["experience"] + rest;
    forall i | 0 <= i < |rest| ensures rest[i] !in ExperienceKeys {
      assert |rest[i]| != |ExperienceKeys[0]| && |rest[i]| != |ExperienceKeys[1]|;
    }
    DropLeadingKey("experience", rest, ExperienceKeys);
  }

  /** A heading list whose first entry is a key and whose other entries are
      not loses exactly its first entry. */
  lemma DropLeadingKey(first: string, rest: seq<string>, keys: seq<string>)
    requires first in keys
    requires forall i :: 0 <= i < |rest| ==> rest[i] !in keys
    ensures Filter([first] + rest, NotKey(keys)) == rest
  {
    var p := NotKey(keys);
    FilterAppend([first], rest, p);
    assert Filter([first], p) == [] by {
      FilterNone([first], p);
    }
    assert Filter(rest, p) == rest by {
      FilterAll(rest, p);
    }
  }
}
