/** The resume-to-job match scorer: five sub-scores (semantic similarity,
    skills, experience, education, keywords), their weighted sum, the score
    bands, the skill gaps, and the ranking of several postings.

    The embedding model is the caller's `Similarity`: the cosine similarity of
    the embeddings of two texts. The current year is a parameter. */
module SemanticMatcher {

  import opened Wrappers
  import opened Text
  import opened Regex
  import opened Seqs
  import opened Sorting
  import opened ResumeData
  import opened Dates
  import opened Ratios

  type Similarity = (string, string) -> real

  const SemanticWeight: real := 0.30
  const SkillsWeight: real := 0.35
  const ExperienceWeight: real := 0.15
  const EducationWeight: real := 0.10
  const KeywordWeight: real := 0.10

  datatype Scores = Scores(semantic: real, skills: real, experience: real, education: real, keyword: real)

  predicate AllInUnit(sc: Scores) {
    InUnit(sc.semantic) && InUnit(sc.skills) && InUnit(sc.experience)
    && InUnit(sc.education) && InUnit(sc.keyword)
  }

  /** The weighted overall score. The weights sum to one, so the overall
      score is a convex combination: it lies between the smallest and the
      largest sub-score. */
  function Overall(sc: Scores): (r: real)
    ensures AllInUnit(sc) ==> InUnit(r)
    ensures var lo := Min5(sc); var hi := Max5(sc); lo <= r <= hi
  {
    sc.semantic * SemanticWeight + sc.skills * SkillsWeight + sc.experience * ExperienceWeight
    + sc.education * EducationWeight + sc.keyword * KeywordWeight
  }

  function Min5(sc: Scores): real {
    Min(Min(Min(sc.semantic, sc.skills), Min(sc.experience, sc.education)), sc.keyword)
  }

  function Max5(sc: Scores): real {
    Max(Max(Max(sc.semantic, sc.skills), Max(sc.experience, sc.education)), sc.keyword)
  }

  lemma WeightsSumToOne()
    ensures SemanticWeight + SkillsWeight + ExperienceWeight + EducationWeight + KeywordWeight == 1.0
  {
  }

  // ------------------------------------------------------------ texts

  /** `" ".join(filter(None, parts))`: the non-empty parts joined by spaces. */
  function JoinNonEmpty(parts: seq<string>): string {
    Join(" ", Filter(parts, (p: string) => p != []))
  }

  function Descriptions(es: seq<Experience>): (r: seq<string>)
    ensures |r| == |es|
  {
    seq(|es|, i requires 0 <= i < |es| => es[i].description.GetOr([]))
  }

  /** The resume side of the semantic comparison: summary, descriptions and
      skills. */
  function ResumeText(res: Resume): string {
    JoinNonEmpty([res.summary.GetOr([]), Join(" ", Descriptions(res.experience)), Join(" ", res.skills.allSkills)])
  }

  /** The job side: description, requirements, required and preferred
      skills, joined without dropping empty parts. */
  function JobText(job: JobPosting): string {
    Join(" ", [job.description, job.requirements, Join(" ", job.requiredSkills), Join(" ", job.preferredSkills)])
  }

  /** Zero when either text is blank, otherwise the similarity clamped to
      the unit interval. */
  function SemanticSimilarity(res: Resume, job: JobPosting, sim: Similarity): (r: real)
    ensures InUnit(r)
    ensures IsBlank(ResumeText(res)) || IsBlank(JobText(job)) ==> r == 0.0
    ensures !IsBlank(ResumeText(res)) && !IsBlank(JobText(job)) ==> r == Clamp(sim(ResumeText(res), JobText(job)))
  {
    var rt := ResumeText(res);
    var jt := JobText(job);
    StripEmptyIffBlank(rt);
    StripEmptyIffBlank(jt);
    if Strip(rt) == [] || Strip(jt) == [] then 0.0 else Clamp(sim(rt, jt))
  }

  // ----------------------------------------------------------- skills

  /** `set(x.lower() for x in xs)`. */
  function LowerSet(xs: seq<string>): set<string> {
    set x | x in xs :: Lower(x)
  }

  /** The share of `wanted` that `have` covers. */
  function Coverage(have: set<string>, wanted: set<string>): (r: real)
    requires wanted != {}
    ensures InUnit(r)
    ensures r == 1.0 <==> wanted <= have
  {
    CoverageCard(have, wanted);
    Ratio(|have * wanted|, |wanted|)
  }

  lemma CoverageCard(have: set<string>, wanted: set<string>)
    ensures |have * wanted| <= |wanted|
    ensures |have * wanted| == |wanted| <==> wanted <= have
  {
    assert wanted == (have * wanted) + (wanted - have);
    assert (have * wanted) * (wanted - have) == {};
    assert |wanted| == |have * wanted| + |wanted - have|;
  }

  /** The skills score over case-folded sets: neutral 0.5 without any
      listed skill; 70/30 between required and preferred coverage when both
      are listed; otherwise the one coverage there is. */
  function SkillsMatch(res: Resume, job: JobPosting): (r: real)
    ensures InUnit(r)
    ensures var req := LowerSet(job.requiredSkills); var pref := LowerSet(job.preferredSkills);
            var have := LowerSet(res.skills.allSkills);
            && (req == {} && pref == {} ==> r == 0.5)
            && (req != {} && pref != {} ==> r == 0.7 * Coverage(have, req) + 0.3 * Coverage(have, pref))
            && (req != {} && pref == {} ==> r == Coverage(have, req))
            && (req == {} && pref != {} ==> r == Coverage(have, pref))
            && (req + pref != {} ==> (r == 1.0 <==> req + pref <= have))
  {
    var have := LowerSet(res.skills.allSkills);
    var req := LowerSet(job.requiredSkills);
    var pref := LowerSet(job.preferredSkills);
    if req == {} && pref == {} then 0.5
    else
      var reqMatch := if req != {} then Coverage(have, req) else 0.0;
      var prefMatch := if pref != {} then Coverage(have, pref) else 0.0;
      if req != {} && pref != {} then 0.7 * reqMatch + 0.3 * prefMatch
      else if req != {} then reqMatch
      else prefMatch
  }

  // ------------------------------------------------------- experience

  /** `_calculate_total_years`: the clamped year spans of the entries,
      summed. */
  method CalculateTotalYears(es: seq<Experience>, currentYear: int) returns (years: nat)
    ensures years == ClampedTotal(es, currentYear)
  {
    var totalMonths := 0;
    var i := 0;
    while i < |es|
      invariant 0 <= i <= |es|
      invariant totalMonths == 12 * ClampedTotal(es[..i], currentYear)
    {
      var e := es[i];
      assert es[..i + 1][..i] == es[..i];
      var span := EntrySpan(e, currentYear);
      if span.Some? {
        var y := if span.value > 0 then span.value else 0;
        totalMonths := totalMonths + y * 12;
      }
      i := i + 1;
    }
    assert es[..|es|] == es;
    years := totalMonths / 12;
  }

  /** The experience score: neutral without a requirement; full up to two
      years above it; then 0.05 less per further year but never below 0.8;
      below the requirement, the fraction met. */
  function ExperienceScore(total: real, required: real): (r: real)
    requires total >= 0.0
    ensures required == 0.0 ==> r == 0.5
    ensures required != 0.0 && required <= total <= required + 2.0 ==> r == 1.0
    ensures required != 0.0 && total > required + 2.0 ==> r == Max(0.8, 1.0 - (total - required - 2.0) * 0.05)
    ensures required != 0.0 && total >= required ==> 0.8 <= r <= 1.0
    ensures required > 0.0 && total < required ==> r == total / required && r < 1.0
    ensures InUnit(r)
  {
    if required == 0.0 then 0.5
    else if total >= required then
      var excess := total - required;
      if excess <= 2.0 then 1.0 else Max(0.8, 1.0 - (excess - 2.0) * 0.05)
    else
      DivBounds(total, required);
      Max(0.0, total / required)
  }

  function ExperienceMatch(res: Resume, job: JobPosting, currentYear: int): (r: real)
    ensures InUnit(r)
  {
    ExperienceScore(ClampedTotal(res.experience, currentYear) as real, job.requiredYears)
  }

  /** Having more experience never lowers the score while the requirement
      is not yet exceeded by more than two years. */
  lemma ExperienceScoreMonotoneBelow(t1: real, t2: real, required: real)
    requires 0.0 <= t1 <= t2 <= required + 2.0 && required > 0.0
    ensures ExperienceScore(t1, required) <= ExperienceScore(t2, required)
  {
    DivMonotone(t1, t2, required);
  }

  // -------------------------------------------------------- education

  /** The degree keywords and their levels, in the table's order. */
  const EducationLevels: seq<(string, nat)> := [
    ("phd", 5), ("doctorate", 5),
    ("master", 4), ("mba", 4), ("m.s.", 4), ("m.a.", 4),
    ("bachelor", 3), ("b.s.", 3), ("b.a.", 3),
    ("associate", 2),
    ("diploma", 1), ("certificate", 1)
  ]

  /** Entry `k` holds the first table keyword that `text` contains. */
  predicate FirstContained(text: string, table: seq<(string, nat)>, k: int) {
    && 0 <= k < |table|
    && Contains(text, table[k].0)
    && forall j :: 0 <= j < k ==> !Contains(text, table[j].0)
  }

  /** The level of the first table keyword that `text` contains, or 0
      when it contains none: the loop over the table with `break`. */
  function FirstLevel(text: string, table: seq<(string, nat)>): (l: nat)
    ensures forall k :: FirstContained(text, table, k) ==> l == table[k].1
    ensures (forall k :: 0 <= k < |table| ==> !Contains(text, table[k].0)) ==> l == 0
    ensures l == 0 || exists k :: 0 <= k < |table| && table[k].1 == l && Contains(text, table[k].0)
    decreases |table|
  {
    if table == [] then 0
    else if Contains(text, table[0].0) then table[0].1
    else
      var l := FirstLevel(text, table[1..]);
      assert forall k :: FirstContained(text, table, k) ==> k > 0 && FirstContained(text, table[1..], k - 1);
      l
  }

  /** A requirement naming both an MBA and a bachelor's degree asks for the
      MBA's level, which the table lists first. */
  lemma FirstLevelExample(text: string)
    requires text == "bachelor or mba"
    ensures FirstLevel(text, EducationLevels) == 4
  {
    MissingCharNotContained(text, "phd", 0);
    MissingCharNotContained(text, "doctorate", 0);
    MissingCharNotContained(text, "master", 2);
    ContainsAt(text, "mba", 12);
    assert FirstContained(text, EducationLevels, 3);
  }

  /** The highest level of any table keyword that `text` contains, or 0. */
  function BestLevel(text: string, table: seq<(string, nat)>): (l: nat)
    ensures forall k :: 0 <= k < |table| && Contains(text, table[k].0) ==> table[k].1 <= l
    ensures l == 0 || exists k :: 0 <= k < |table| && table[k].1 == l && Contains(text, table[k].0)
    decreases |table|
  {
    if table == [] then 0
    else
      var rest := BestLevel(text, table[1..]);
      if Contains(text, table[0].0) && table[0].1 > rest then table[0].1 else rest
  }

  /** The level of one degree, a missing degree read as the empty text
      (see the finding on education). */
  function DegreeLevel(e: Education): nat {
    BestLevel(Lower(e.degree.GetOr([])), EducationLevels)
  }

  /** The candidate's level: the highest over all degrees, or 0 without
      any. */
  function CandidateLevel(edu: seq<Education>): nat {
    MaxOf(edu, DegreeLevel)
  }

  /** The score from the two levels. */
  function LevelScore(required: nat, candidate: nat): (r: real)
    ensures r in {0.3, 0.5, 0.7, 1.0}
    ensures required == 0 ==> r == 0.5
    ensures required != 0 ==> (r == 1.0 <==> candidate >= required)
    ensures required != 0 ==> (r == 0.7 <==> candidate + 1 == required)
  {
    if required == 0 then 0.5
    else if candidate >= required then 1.0
    else if candidate == required - 1 then 0.7
    else 0.3
  }

  /** The education score: neutral 0.5 without a requirement or with one
      the table does not know; otherwise by how far the best degree falls
      short of the required level. */
  function EducationMatch(res: Resume, job: JobPosting): (r: real)
    ensures r in {0.3, 0.5, 0.7, 1.0}
    ensures Lower(job.requiredEducation) == [] ==> r == 0.5
    ensures FirstLevel(Lower(job.requiredEducation), EducationLevels) == 0 ==> r == 0.5
  {
    var req := Lower(job.requiredEducation);
    if req == [] then 0.5
    else LevelScore(FirstLevel(req, EducationLevels), CandidateLevel(res.education))
  }

  /** The education score as the source computes it: the degree of every
      entry is lower-cased, which raises `AttributeError` for an entry whose
      degree is `None`, once a requirement is given. */
  function EducationMatchAsWritten(res: Resume, job: JobPosting): (r: Result<real, string>)
    ensures r.Success? ==> r.value == EducationMatch(res, job)
    ensures r.Failure? <==> Lower(job.requiredEducation) != [] && exists i :: 0 <= i < |res.education| && res.education[i].degree.None?
  {
    var req := Lower(job.requiredEducation);
    if req == [] then Success(0.5)
    else if exists i :: 0 <= i < |res.education| && res.education[i].degree.None? then Failure("AttributeError")
    else Success(EducationMatch(res, job))
  }

  /** An education entry without a degree, against a bachelor requirement,
      makes the source raise, where the corrected score is defined. */
  lemma EducationCrashExample()
    ensures var res := Resume(PersonalInfo(None, None, None, None, None, None),
                              SkillSet([], [], 0), [], [Education(None, Some("2018"), None)], None);
            var job := JobPosting(None, None, None, "", "", [], [], 0.0, "Bachelor", []);
            EducationMatchAsWritten(res, job).Failure? && EducationMatch(res, job) in {0.3, 0.5, 0.7, 1.0}
  {
    var res := Resume(PersonalInfo(None, None, None, None, None, None),
                      SkillSet([], [], 0), [], [Education(None, Some("2018"), None)], None);
    var job := JobPosting(None, None, None, "", "", [], [], 0.0, "Bachelor", []);
    assert |Lower(job.requiredEducation)| == 8;
    assert res.education[0].degree.None?;
  }

  // ---------------------------------------------------------- keywords

  const Stopwords: set<string> := {
    "with", "that", "this", "from", "will", "have", "been", "were",
    "your", "their", "would", "could", "should", "about", "which"
  }

  /** The candidate words of a text: the lower-cased words of four or more
      letters that are not stopwords, in text order. */
  function CandidateWords(text: string): (ws: seq<string>)
  {
    Filter(LowerWordsFrom(Lower(text), 0), (w: string) => w !in Stopwords)
  }

  lemma CandidateWordsValid(text: string)
    ensures forall i :: 0 <= i < |CandidateWords(text)| ==>
              |CandidateWords(text)[i]| >= 4 && CandidateWords(text)[i] !in Stopwords
  {
  }

  /** A word with its frequency, as an item of the frequency dict. */
  function FreqKey(item: (string, nat)): real { item.1 as real }

  /** `word_freq.items()`: each distinct word, at its first occurrence,
      with its count. */
  function FrequencyItems(ws: seq<string>): (items: seq<(string, nat)>)
    ensures |items| == |Dedup(ws)|
    ensures forall i :: 0 <= i < |items| ==> items[i] == (Dedup(ws)[i], Count(ws, Dedup(ws)[i]))
  {
    var d := Dedup(ws);
    seq(|d|, i requires 0 <= i < |d| => (d[i], Count(ws, d[i])))
  }

  function ItemWords(items: seq<(string, nat)>): (r: seq<string>)
    ensures |r| == |items|
    ensures forall i :: 0 <= i < |r| ==> r[i] == items[i].0
  {
    seq(|items|, i requires 0 <= i < |items| => items[i].0)
  }

  function ByFrequency(): ((string, nat), (string, nat)) -> bool {
    ByKeyDesc(FreqKey)
  }

  /** The twenty most frequent words, most frequent first, ties in order of
      first occurrence. */
  function TopWords(ws: seq<string>): seq<string> {
    ItemWords(Take(SortedItems(ws), 20))
  }

  /** The fallback keywords of a text. */
  function KeywordsOf(text: string): seq<string> {
    TopWords(CandidateWords(text))
  }

  /** The frequency dict after the words of `prefix`: its keys in insertion
      order and the count of each. */
  ghost predicate FrequencyOf(prefix: seq<string>, order: seq<string>, freq: map<string, nat>) {
    && order == Dedup(prefix)
    && (forall u :: u in freq <==> u in prefix)
    && (forall u :: u in freq ==> freq[u] == Count(prefix, u))
  }

  /** `word_freq[word] = word_freq.get(word, 0) + 1` keeps the dict the
      frequency dict of the words read so far. */
  lemma FrequencyStep(prefix: seq<string>, w: string, order: seq<string>, freq: map<string, nat>)
    requires FrequencyOf(prefix, order, freq)
    ensures FrequencyOf(prefix + [w], if w in freq then order else order + [w],
                        freq[w := (if w in freq then freq[w] else 0) + 1])
  {
    OrderStep(prefix, w, order, freq);
    CountStep(prefix, w, freq);
  }

  /** A word not yet in the dict is added to the end of its key order. */
  lemma OrderStep(prefix: seq<string>, w: string, order: seq<string>, freq: map<string, nat>)
    requires order == Dedup(prefix) && forall u :: u in freq <==> u in prefix
    ensures (if w in freq then order else order + [w]) == Dedup(prefix + [w])
  {
    DedupSnoc(prefix, w);
  }

  /** Incrementing the word's count keeps every count right. */
  lemma CountStep(prefix: seq<string>, w: string, freq: map<string, nat>)
    requires forall u :: u in freq <==> u in prefix
    requires forall u :: u in freq ==> freq[u] == Count(prefix, u)
    ensures var freq' := freq[w := (if w in freq then freq[w] else 0) + 1];
            && (forall u :: u in freq' <==> u in prefix + [w])
            && (forall u :: u in freq' ==> freq'[u] == Count(prefix + [w], u))
  {
    var freq' := freq[w := (if w in freq then freq[w] else 0) + 1];
    forall u | u in freq' ensures freq'[u] == Count(prefix + [w], u) {
      CountAppend(prefix, [w], u);
    }
  }

  /** The words read so far, one more word on. */
  lemma PrefixStep(ws: seq<string>, i: nat, read: seq<string>)
    requires i < |ws| && read == ws[..i]
    ensures ws[..i + 1] == read + [ws[i]]
  {
  }

  /** The counting loop of `_extract_keywords`: the frequency dict of the
      words, built word by word. */
  method CountWords(ws: seq<string>) returns (order: seq<string>, freq: map<string, nat>)
    ensures FrequencyOf(ws, order, freq)
  {
    order := [];
    freq := map[];
    ghost var read: seq<string> := [];
    var i := 0;
    while i < |ws|
      invariant 0 <= i <= |ws| && read == ws[..i]
      invariant FrequencyOf(read, order, freq)
    {
      var w := ws[i];
      FrequencyStep(read, w, order, freq);
      order := if w in freq then order else order + [w];
      freq := freq[w := (if w in freq then freq[w] else 0) + 1];
      PrefixStep(ws, i, read);
      read := read + [w];
      i := i + 1;
    }
    assert ws[..|ws|] == ws;
  }

  /** `_extract_keywords`. */
  method ExtractKeywords(text: string) returns (r: seq<string>)
    ensures r == KeywordsOf(text)
  {
    var ws := CandidateWords(text);
    var order, freq := CountWords(ws);
    var items := seq(|order|, k requires 0 <= k < |order| => (order[k], freq[order[k]]));
    assert items == FrequencyItems(ws);
    r := ItemWords(Take(Sort(items, ByFrequency()), 20));
  }

  function SortedItems(ws: seq<string>): seq<(string, nat)> {
    Sort(FrequencyItems(ws), ByFrequency())
  }

  /** The sorted frequency items are a permutation of distinct items. */
  lemma SortedItemsPermutation(ws: seq<string>)
    ensures multiset(SortedItems(ws)) == multiset(FrequencyItems(ws))
    ensures Distinct(FrequencyItems(ws))
  {
    var d := Dedup(ws);
    var items := FrequencyItems(ws);
    forall i, j | 0 <= i < j < |items| ensures items[i] != items[j] {
      assert items[i].0 == d[i] && items[j].0 == d[j];
    }
  }

  /** The sorted frequency items are most frequent first. */
  lemma SortedItemsOrdered(ws: seq<string>)
    ensures forall i, j :: 0 <= i < j < |SortedItems(ws)| ==> SortedItems(ws)[i].1 >= SortedItems(ws)[j].1
  {
    var sorted := SortedItems(ws);
    ByKeyDescStrict(FreqKey);
    SortSorted(FrequencyItems(ws), ByFrequency());
    assert Sorted(sorted, ByFrequency());
    forall i, j | 0 <= i < j < |sorted| ensures sorted[i].1 >= sorted[j].1 {
      assert !ByFrequency()(sorted[j], sorted[i]);
      assert !(FreqKey(sorted[j]) > FreqKey(sorted[i]));
    }
  }

  /** Words of equal frequency keep the order of their first occurrence,
      since Python's sort is stable. */
  lemma SortedItemsTies(ws: seq<string>, n: nat)
    ensures Filter(SortedItems(ws), KeyIs(FreqKey, n as real)) == Filter(FrequencyItems(ws), KeyIs(FreqKey, n as real))
  {
    SortStable(FrequencyItems(ws), FreqKey, n as real);
  }

  /** Each sorted item is a word of the list with its count, and no word
      comes twice. */
  lemma SortedItemsCounts(ws: seq<string>)
    ensures forall i :: 0 <= i < |SortedItems(ws)| ==>
              SortedItems(ws)[i].0 in ws && SortedItems(ws)[i].1 == Count(ws, SortedItems(ws)[i].0)
    ensures forall i, j :: 0 <= i < j < |SortedItems(ws)| ==> SortedItems(ws)[i].0 != SortedItems(ws)[j].0
  {
    var items := FrequencyItems(ws);
    var sorted := SortedItems(ws);
    SortedItemsPermutation(ws);
    forall i | 0 <= i < |sorted| ensures sorted[i].0 in ws && sorted[i].1 == Count(ws, sorted[i].0) {
      assert sorted[i] in multiset(items);
      var k :| 0 <= k < |items| && items[k] == sorted[i];
    }
    forall i, j | 0 <= i < j < |sorted| ensures sorted[i].0 != sorted[j].0 {
      DistinctAfterPermutation(items, sorted, i, j);
      assert sorted[i] != sorted[j];
    }
  }

  /** Every word of the list has its item. */
  lemma SortedItemsCover(ws: seq<string>, w: string) returns (m: nat)
    requires w in ws
    ensures m < |SortedItems(ws)| && SortedItems(ws)[m].0 == w
  {
    var d := Dedup(ws);
    var items := FrequencyItems(ws);
    SortedItemsPermutation(ws);
    var k :| 0 <= k < |d| && d[k] == w;
    assert items[k] in multiset(SortedItems(ws));
    m :| 0 <= m < |SortedItems(ws)| && SortedItems(ws)[m] == items[k];
  }

  /** The top words are distinct words of the list; there are at most
      twenty; they come most frequent first; and a word left out is no more
      frequent than any word kept (and was left out only because twenty were
      kept). */
  lemma TopWordsProperties(ws: seq<string>)
    ensures var ks := TopWords(ws);
            && |ks| <= 20
            && Distinct(ks)
            && (forall i :: 0 <= i < |ks| ==> ks[i] in ws)
            && (forall i, j :: 0 <= i < j < |ks| ==> Count(ws, ks[i]) >= Count(ws, ks[j]))
            && (forall w :: w in ws && w !in ks ==> |ks| == 20 && forall i :: 0 <= i < |ks| ==> Count(ws, ks[i]) >= Count(ws, w))
  {
    TopWordsDistinct(ws);
    TopWordsOrdered(ws);
    forall w | w in ws && w !in TopWords(ws)
      ensures |TopWords(ws)| == 20 && forall i :: 0 <= i < |TopWords(ws)| ==> Count(ws, TopWords(ws)[i]) >= Count(ws, w)
    {
      TopWordsOmitted(ws, w);
    }
  }

  /** At most twenty distinct words of the list. */
  lemma TopWordsDistinct(ws: seq<string>)
    ensures var ks := TopWords(ws);
            |ks| <= 20 && Distinct(ks) && forall i :: 0 <= i < |ks| ==> ks[i] in ws
  {
    var sorted := SortedItems(ws);
    var ks := TopWords(ws);
    assert forall i :: 0 <= i < |ks| ==> ks[i] == sorted[i].0;
    SortedItemsCounts(ws);
  }

  /** The top words come most frequent first. */
  lemma TopWordsOrdered(ws: seq<string>)
    ensures var ks := TopWords(ws);
            forall i, j :: 0 <= i < j < |ks| ==> Count(ws, ks[i]) >= Count(ws, ks[j])
  {
    var sorted := SortedItems(ws);
    var ks := TopWords(ws);
    assert forall i :: 0 <= i < |ks| ==> ks[i] == sorted[i].0;
    SortedItemsOrdered(ws);
    SortedItemsCounts(ws);
    forall i, j | 0 <= i < j < |ks| ensures Count(ws, ks[i]) >= Count(ws, ks[j]) {
      assert sorted[i].1 >= sorted[j].1;
    }
  }

  lemma TopWordsOmitted(ws: seq<string>, w: string)
    requires w in ws && w !in TopWords(ws)
    ensures |TopWords(ws)| == 20
    ensures forall i :: 0 <= i < |TopWords(ws)| ==> Count(ws, TopWords(ws)[i]) >= Count(ws, w)
  {
    var sorted := SortedItems(ws);
    SortedItemsOrdered(ws);
    SortedItemsCounts(ws);
    var ks := TopWords(ws);
    assert forall i :: 0 <= i < |ks| ==> ks[i] == sorted[i].0;
    var m := SortedItemsCover(ws, w);
    assert forall k :: 0 <= k < |ks| ==> sorted[k].0 in ks;
    assert m >= |ks|;
    forall i | 0 <= i < |ks| ensures Count(ws, ks[i]) >= Count(ws, w) {
      assert sorted[i].1 >= sorted[m].1;
    }
  }

  /** The fallback keywords are candidate words: four or more letters and
      no stopword. */
  lemma KeywordsAreCandidates(text: string)
    ensures forall i :: 0 <= i < |KeywordsOf(text)| ==>
              |KeywordsOf(text)[i]| >= 4 && KeywordsOf(text)[i] !in Stopwords && KeywordsOf(text)[i] in CandidateWords(text)
  {
    TopWordsProperties(CandidateWords(text));
    CandidateWordsValid(text);
  }

  /** The keywords the score looks for: the posting's own, or the fallback
      keywords of its description and requirements. */
  function JobKeywords(job: JobPosting): seq<string> {
    if job.keywords != [] then job.keywords else KeywordsOf(job.description + " " + job.requirements)
  }

  /** The lower-cased summary and descriptions the keywords are looked for
      in. */
  function KeywordText(res: Resume): string {
    Lower(JoinNonEmpty([res.summary.GetOr([]), Join(" ", Descriptions(res.experience))]))
  }

  function CountFound(keywords: seq<string>, text: string): (n: nat)
    ensures n <= |keywords|
    decreases |keywords|
  {
    if keywords == [] then 0
    else (if Contains(text, Lower(keywords[0])) then 1 else 0) + CountFound(keywords[1..], text)
  }

  /** The keyword score: neutral 0.5 without keywords, otherwise the share
      of keywords found as lower-case substrings. */
  function KeywordMatch(res: Resume, job: JobPosting): (r: real)
    ensures InUnit(r)
    ensures JobKeywords(job) == [] ==> r == 0.5
    ensures JobKeywords(job) != [] ==> r == Ratio(CountFound(JobKeywords(job), KeywordText(res)), |JobKeywords(job)|)
    ensures JobKeywords(job) != [] ==> (r == 1.0 <==> forall k :: k in JobKeywords(job) ==> Contains(KeywordText(res), Lower(k)))
  {
    var ks := JobKeywords(job);
    var text := KeywordText(res);
    if ks == [] then 0.5
    else
      AllFoundIff(ks, text);
      Ratio(CountFound(ks, text), |ks|)
  }

  lemma {:induction false} AllFoundIff(ks: seq<string>, text: string)
    ensures CountFound(ks, text) == |ks| <==> forall k :: k in ks ==> Contains(text, Lower(k))
    decreases |ks|
  {
    if ks != [] {
      AllFoundIff(ks[1..], text);
      assert forall k :: k in ks <==> k == ks[0] || k in ks[1..];
    }
  }

  // ------------------------------------------------------------- gaps

  datatype SkillGaps = SkillGaps(missingRequired: set<string>, missingPreferred: set<string>, totalGaps: nat, criticalGaps: nat)

  /** The required and preferred skills, case-folded, that the resume does
      not list. */
  function IdentifySkillGaps(res: Resume, job: JobPosting): (g: SkillGaps)
    ensures var have := LowerSet(res.skills.allSkills);
            && (forall s :: s in g.missingRequired <==> s in LowerSet(job.requiredSkills) && s !in have)
            && (forall s :: s in g.missingPreferred <==> s in LowerSet(job.preferredSkills) && s !in have)
    ensures g.criticalGaps == |g.missingRequired|
    ensures g.totalGaps == |g.missingRequired| + |g.missingPreferred|
  {
    var have := LowerSet(res.skills.allSkills);
    var mr := LowerSet(job.requiredSkills) - have;
    var mp := LowerSet(job.preferredSkills) - have;
    SkillGaps(mr, mp, |mr| + |mp|, |mr|)
  }

  /** With some skill listed, the skills score is full exactly when there
      is no gap. */
  lemma FullSkillsIffNoGaps(res: Resume, job: JobPosting)
    requires LowerSet(job.requiredSkills) + LowerSet(job.preferredSkills) != {}
    ensures SkillsMatch(res, job) == 1.0 <==> IdentifySkillGaps(res, job).totalGaps == 0
  {
    var g := IdentifySkillGaps(res, job);
    var have := LowerSet(res.skills.allSkills);
    var all := LowerSet(job.requiredSkills) + LowerSet(job.preferredSkills);
    if g.totalGaps == 0 {
      assert g.missingRequired == {} && g.missingPreferred == {};
      assert all <= have;
    } else {
      if g.missingRequired != {} {
        var s :| s in g.missingRequired;
        assert s in all && s !in have;
      } else {
        var s :| s in g.missingPreferred;
        assert s in all && s !in have;
      }
    }
  }

  // ------------------------------------------------------------ bands

  /** The score band: 4 from 0.8, 3 from 0.65, 2 from 0.5, 1 from 0.35,
      else 0. */
  function Band(score: real): (b: nat)
    ensures b <= 4
  {
    if score >= 0.8 then 4 else if score >= 0.65 then 3 else if score >= 0.5 then 2
    else if score >= 0.35 then 1 else 0
  }

  lemma BandMonotone(s: real, t: real)
    requires s <= t
    ensures Band(s) <= Band(t)
  {
  }

  const Recommendations: seq<string> := [
    "Poor Match - Does not meet requirements",
    "Weak Match - May not meet requirements",
    "Moderate Match - Review carefully",
    "Good Match - Recommended for consideration",
    "Strong Match - Highly recommended for interview"
  ]

  const Levels: seq<string> := ["poor", "weak", "moderate", "good", "excellent"]

  function GenerateRecommendation(score: real): (r: string)
    ensures r == Recommendations[Band(score)]
  {
    if score >= 0.8 then "Strong Match - Highly recommended for interview"
    else if score >= 0.65 then "Good Match - Recommended for consideration"
    else if score >= 0.5 then "Moderate Match - Review carefully"
    else if score >= 0.35 then "Weak Match - May not meet requirements"
    else "Poor Match - Does not meet requirements"
  }

  function MatchLevel(score: real): (r: string)
    ensures r == Levels[Band(score)]
  {
    if score >= 0.8 then "excellent"
    else if score >= 0.65 then "good"
    else if score >= 0.5 then "moderate"
    else if score >= 0.35 then "weak"
    else "poor"
  }

  /** A higher score never gets a lower level. */
  lemma LevelMonotone(s: real, t: real, i: nat, j: nat)
    requires s <= t && i < 5 && j < 5 && MatchLevel(s) == Levels[i] && MatchLevel(t) == Levels[j]
    ensures i <= j
  {
    BandMonotone(s, t);
    assert Levels[i] == Levels[Band(s)] && Levels[j] == Levels[Band(t)];
  }

  // ------------------------------------------------------------ match

  datatype MatchResult = MatchResult(overall: real, scores: Scores, gaps: SkillGaps, recommendation: string, level: string)

  function ScoresOf(res: Resume, job: JobPosting, sim: Similarity, currentYear: int): (sc: Scores)
    ensures AllInUnit(sc)
  {
    Scores(SemanticSimilarity(res, job, sim), SkillsMatch(res, job), ExperienceMatch(res, job, currentYear),
           EducationMatch(res, job), KeywordMatch(res, job))
  }

  /** `match`: every score is in the unit interval, and the recommendation
      and level are the bands of the overall score. */
  function Match(res: Resume, job: JobPosting, sim: Similarity, currentYear: int): (m: MatchResult)
    ensures AllInUnit(m.scores) && InUnit(m.overall)
    ensures m.overall == Overall(m.scores)
    ensures m.recommendation == Recommendations[Band(m.overall)] && m.level == Levels[Band(m.overall)]
    ensures m.gaps == IdentifySkillGaps(res, job)
  {
    var sc := ScoresOf(res, job, sim, currentYear);
    var overall := Overall(sc);
    MatchResult(overall, sc, IdentifySkillGaps(res, job), GenerateRecommendation(overall), MatchLevel(overall))
  }

  datatype JobMatch = JobMatch(jobId: Option<string>, jobTitle: Option<string>, company: Option<string>, result: MatchResult)

  function MatchJob(res: Resume, job: JobPosting, sim: Similarity, currentYear: int): JobMatch {
    JobMatch(job.id, job.title, job.company, Match(res, job, sim, currentYear))
  }

  function OverallKey(m: JobMatch): real { m.result.overall }

  /** Matching one posting against the resume. */
  function MatchWith(res: Resume, sim: Similarity, currentYear: int): JobPosting -> JobMatch {
    job => MatchJob(res, job, sim, currentYear)
  }

  /** `batch_match`: one result per posting, best first. */
  method BatchMatch(res: Resume, jobs: seq<JobPosting>, sim: Similarity, currentYear: int)
    returns (results: seq<JobMatch>)
    ensures |results| == |jobs|
    ensures multiset(results) == multiset(Map(jobs, MatchWith(res, sim, currentYear)))
    ensures forall i, j :: 0 <= i < j < |results| ==> results[i].result.overall >= results[j].result.overall
  {
    var unsorted := MatchEach(jobs, MatchWith(res, sim, currentYear));
    results := SortByOverall(unsorted);
  }

  /** The loop of `batch_match`: each posting matched, in posting order. */
  method MatchEach(jobs: seq<JobPosting>, score: JobPosting -> JobMatch) returns (unsorted: seq<JobMatch>)
    ensures unsorted == Map(jobs, score)
  {
    unsorted := [];
    var i := 0;
    while i < |jobs|
      invariant 0 <= i <= |jobs|
      invariant unsorted == Map(jobs[..i], score)
    {
      assert jobs[..i + 1] == jobs[..i] + [jobs[i]];
      MapSnoc(jobs[..i], jobs[i], score);
      unsorted := unsorted + [score(jobs[i])];
      i := i + 1;
    }
    assert jobs[..|jobs|] == jobs;
  }

  /** `sort(key=lambda x: x["overall_score"], reverse=True)`. */
  function SortByOverall(ms: seq<JobMatch>): (r: seq<JobMatch>)
    ensures |r| == |ms| && multiset(r) == multiset(ms)
    ensures forall i, j :: 0 <= i < j < |r| ==> r[i].result.overall >= r[j].result.overall
  {
    var r := Sort(ms, ByKeyDesc(OverallKey));
    ByKeyDescStrict(OverallKey);
    SortSorted(ms, ByKeyDesc(OverallKey));
    assert Sorted(r, ByKeyDesc(OverallKey));
    assert forall i, j :: 0 <= i < j < |r| ==> !(OverallKey(r[j]) > OverallKey(r[i]));
    r
  }
}
