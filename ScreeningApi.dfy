/** The screening endpoint of the first API: skills by keyword, the skill
    gap between a resume and a job, the years of experience a resume
    states, the applicant-tracking-system (ATS) readiness score, and the
    fit score with its recommendation.

    The language model's lemmas and the fit score before adjustment are
    inputs: the lemma lists stand for the alphabetic non-stop-word tokens the
    source collects, and the base fit is what the source computes from
    keyword overlap and an embedding similarity. Scores are exact reals;
    the source rounds them to two decimals, and the fit adjustment uses the
    rounded ATS score, which the model does not round. */
module ScreeningApi {

  import opened Text
  import opened Seqs
  import opened Sets
  import opened Regex
  import opened Ratios

  // -------------------------------------------------------------- skills

  /** The skills looked for in a resume and in a job description. */
  const SkillKeywords: seq<string> := [
    "python", "java", "javascript", "react", "node.js", "sql", "machine learning", "nlp", "ai"]

  /** Whether a keyword, lower-cased, is a substring of the lower-cased text. */
  function MentionedIn(lowerText: string): string -> bool {
    (k: string) => Contains(lowerText, Lower(k))
  }

  /** The keywords of `keywords`, in list order, that the text contains
      ignoring case. */
  function SkillsFrom(keywords: seq<string>, text: string): seq<string> {
    Filter(keywords, MentionedIn(Lower(text)))
  }

  /** The skills of a resume or a job description. */
  function SkillsIn(text: string): seq<string> {
    SkillsFrom(SkillKeywords, text)
  }

  /** A keyword is reported exactly when the text contains it ignoring case;
      the report keeps the order of the list and is no longer than it. */
  lemma SkillsFromMeaning(keywords: seq<string>, text: string, k: string)
    ensures k in SkillsFrom(keywords, text) <==> k in keywords && Contains(Lower(text), Lower(k))
    ensures |SkillsFrom(keywords, text)| <= |keywords|
    ensures multiset(SkillsFrom(keywords, text)) <= multiset(keywords)
  {
    FilterMember(keywords, MentionedIn(Lower(text)), k);
    FilterSubMultiset(keywords, MentionedIn(Lower(text)));
  }

  lemma {:induction false} FilterSubMultiset<T>(s: seq<T>, p: T -> bool)
    ensures multiset(Filter(s, p)) <= multiset(s)
    decreases |s|
  {
    if s != [] {
      FilterSubMultiset(s[1..], p);
      assert s == [s[0]] + s[1..];
    }
  }

  // ----------------------------------------------------------- skill gap

  /** The skills of the job the resume has and those it lacks, as sets, and
      the share of the job's listed skills that are missing. */
  datatype SkillGap = SkillGap(present: set<string>, missing: set<string>, gapScore: real)

  function SkillGapOf(resume: seq<string>, job: seq<string>): (r: SkillGap)
    ensures r.present * r.missing == {}
    ensures r.present + r.missing == SetOf(job)
    ensures forall s :: s in r.present <==> s in job && s in resume
    ensures InUnit(r.gapScore)
    ensures job == [] ==> r.gapScore == 0.0
    ensures job != [] ==> (r.gapScore == 0.0 <==> r.missing == {})
    ensures r.gapScore == 1.0 ==> r.present == {}
    ensures job != [] && Distinct(job) && r.present == {} ==> r.gapScore == 1.0
  {
    var present := SetOf(resume) * SetOf(job);
    var missing := SetOf(job) - SetOf(resume);
    SetOfCard(job);
    SubsetCard(missing, SetOf(job));
    if job == [] then SkillGap(present, missing, 0.0)
    else
      var g := Ratio(|missing|, |job|);
      assert g == 1.0 ==> present == {} by {
        if g == 1.0 {
          assert |missing| == |SetOf(job)|;
        }
      }
      assert Distinct(job) && present == {} ==> g == 1.0 by {
        if Distinct(job) && present == {} {
          assert missing == SetOf(job);
        }
      }
      SkillGap(present, missing, g)
  }

  // -------------------------------------------------- years of experience

  /** The numbers captured by `(\d+)\s*(?:years?|yrs?)\s*(?:of\s*)?(?:experience|exp)`,
      ignoring case, as digit strings. */
  function YearCaptures(eng: Engine, text: string): seq<string> {
    FindAllGroup(eng, YearsOfExperience, text)
  }

  /** The largest number of years the text states, or 0 when it states
      none. */
  function ExperienceYears(eng: Engine, text: string): (years: nat)
    ensures var caps := YearCaptures(eng, text);
      && (forall i :: 0 <= i < |caps| ==> DigitsValue(caps[i]) <= years)
      && (caps == [] ==> years == 0)
      && (caps != [] ==> exists i :: 0 <= i < |caps| && DigitsValue(caps[i]) == years)
  {
    var caps := YearCaptures(eng, text);
    var m := MaxOf(caps, DigitsValue);
    assert caps != [] && m == 0 ==> DigitsValue(caps[0]) == m;
    m
  }

  // ------------------------------------------------------------ ATS check

  datatype AtsCheck = AtsCheck(
    keywordCoverage: real,
    lengthOk: bool,
    hasContact: bool,
    hasExperience: bool,
    atsScore: real)

  /** The share of the job's distinct lemmas that the resume also has, or 0
      when the job has none. */
  function Coverage(jobLemmas: seq<string>, resumeLemmas: seq<string>): (c: real)
    ensures InUnit(c)
    ensures jobLemmas == [] ==> c == 0.0
    ensures jobLemmas != [] ==> (c == 1.0 <==> forall k :: k in jobLemmas ==> k in resumeLemmas)
    ensures jobLemmas != [] ==> (c == 0.0 <==> forall k :: k in jobLemmas ==> k !in resumeLemmas)
  {
    if jobLemmas == [] then 0.0
    else
      var common := SetOf(jobLemmas) * SetOf(resumeLemmas);
      SubsetCard(common, SetOf(jobLemmas));
      assert jobLemmas[0] in SetOf(jobLemmas);
      var c := Ratio(|common|, |SetOf(jobLemmas)|);
      assert c == 1.0 <==> forall k :: k in jobLemmas ==> k in resumeLemmas by {
        if forall k :: k in jobLemmas ==> k in resumeLemmas {
          assert common == SetOf(jobLemmas);
        }
        if c == 1.0 {
          assert common == SetOf(jobLemmas);
          forall k | k in jobLemmas ensures k in resumeLemmas {
            assert k in common;
          }
        }
      }
      assert c == 0.0 <==> forall k :: k in jobLemmas ==> k !in resumeLemmas by {
        if c == 0.0 {
          forall k | k in jobLemmas ensures k !in resumeLemmas {
            assert k !in common;
          }
        } else {
          var k :| k in common;
        }
      }
      c
  }

  /** Python's `True`/`False` used as a number in a weighted sum. */
  function BoolAsReal(b: bool): real {
    if b then 1.0 else 0.0
  }

  /** Half of the score is keyword coverage; a resume of more than 100
      words earns 20 points, a mention of contact details or an e-mail 15,
      and a mention of experience 15. */
  function AtsOf(text: string, jobLemmas: seq<string>, resumeLemmas: seq<string>): (r: AtsCheck)
    ensures 0.0 <= r.atsScore <= 100.0
    ensures r.atsScore == 100.0 <==> r.keywordCoverage == 1.0 && r.lengthOk && r.hasContact && r.hasExperience
    ensures r.keywordCoverage == Coverage(jobLemmas, resumeLemmas)
  {
    var lt := Lower(text);
    var coverage := Coverage(jobLemmas, resumeLemmas);
    var lengthOk := WordCount(text) > 100;
    var hasContact := Contains(lt, "contact") || Contains(lt, "email");
    var hasExperience := Contains(lt, "experience");
    var ats := coverage * 0.5 + BoolAsReal(lengthOk) * 0.2 + BoolAsReal(hasContact) * 0.15
               + BoolAsReal(hasExperience) * 0.15;
    AtsCheck(coverage, lengthOk, hasContact, hasExperience, ats * 100.0)
  }

  // ------------------------------------------------------ fit and bands

  /** The base fit scaled down by up to 20% for missing skills and up to 10%
      for a low ATS score, and capped at 100. */
  function AdjustedFit(baseFit: real, gapScore: real, atsScore: real): (fit: real)
    ensures fit <= 100.0
    ensures InUnit(gapScore) && 0.0 <= atsScore <= 100.0 && 0.0 <= baseFit ==> 0.0 <= fit <= baseFit
    ensures InUnit(gapScore) && 0.0 <= atsScore <= 100.0 && 0.0 <= baseFit <= 100.0 ==> 0.72 * baseFit <= fit
    ensures gapScore == 0.0 && atsScore == 100.0 ==> fit == Min(baseFit, 100.0)
  {
    var p := baseFit * GapFactor(gapScore) * AtsFactor(atsScore);
    if InUnit(gapScore) && 0.0 <= atsScore <= 100.0 && 0.0 <= baseFit then
      ScaledBounds(baseFit, gapScore, atsScore, p);
      Min(p, 100.0)
    else
      Min(p, 100.0)
  }

  /** A full gap costs 20% of the fit. */
  function GapFactor(gapScore: real): (f: real)
    ensures InUnit(gapScore) ==> 0.8 <= f <= 1.0
    ensures gapScore == 0.0 ==> f == 1.0
  {
    1.0 - gapScore * 0.2
  }

  /** An ATS score of 0 costs 10% of the fit. */
  function AtsFactor(atsScore: real): (f: real)
    ensures 0.0 <= atsScore <= 100.0 ==> 0.9 <= f <= 1.0
    ensures atsScore == 100.0 ==> f == 1.0
  {
    atsScore / 100.0 * 0.1 + 0.9
  }

  lemma ScaledBounds(x: real, gapScore: real, atsScore: real, p: real)
    requires p == x * GapFactor(gapScore) * AtsFactor(atsScore)
    requires InUnit(gapScore) && 0.0 <= atsScore <= 100.0 && 0.0 <= x
    ensures 0.72 * x <= p <= x && 0.0 <= p
  {
    FactorBounds(x, GapFactor(gapScore), AtsFactor(atsScore));
  }

  /** Factors in [0.8, 1] and [0.9, 1] keep a non-negative value between
      72% of it and itself. */
  lemma FactorBounds(x: real, f: real, g: real)
    requires 0.0 <= x && 0.8 <= f <= 1.0 && 0.9 <= g <= 1.0
    ensures 0.72 * x <= x * f * g
    ensures x * f * g <= x
    ensures 0.0 <= x * f * g
  {
    var y := x * f;
    assert 0.8 * x <= y by {
      MulLe(x, 0.8, f);
    }
    assert y <= x by {
      MulLe(x, f, 1.0);
    }
    assert 0.9 * y <= y * g by {
      MulLe(y, 0.9, g);
    }
    assert y * g <= y by {
      MulLe(y, g, 1.0);
    }
  }

  lemma MulLe(x: real, a: real, b: real)
    requires 0.0 <= x && a <= b
    ensures x * a <= x * b
  {
    assert x * b - x * a == x * (b - a);
  }

  datatype Recommendation = StrongMatch | ModerateMatch | WeakMatch

  /** Above 70 a strong match, above 50 a moderate one, otherwise weak. */
  function RecommendationOf(fit: real): Recommendation {
    if fit > 70.0 then StrongMatch else if fit > 50.0 then ModerateMatch else WeakMatch
  }

  function Rank(r: Recommendation): nat {
    match r
    case WeakMatch => 0
    case ModerateMatch => 1
    case StrongMatch => 2
  }

  /** A higher fit never gets a weaker recommendation, and the three bands
      meet at 50 and 70. */
  lemma RecommendationMonotone(a: real, b: real)
    requires a <= b
    ensures Rank(RecommendationOf(a)) <= Rank(RecommendationOf(b))
    ensures RecommendationOf(b) == WeakMatch ==> RecommendationOf(a) == WeakMatch
    ensures RecommendationOf(a) == StrongMatch ==> RecommendationOf(b) == StrongMatch
  {
  }

  // ------------------------------------------------------------- screening

  datatype Screening = Screening(
    skills: seq<string>,
    experienceYears: nat,
    skillGap: SkillGap,
    ats: AtsCheck,
    fitScore: real,
    recommendation: Recommendation)

  /** The screening of a resume text against a job description. */
  function Screen(eng: Engine, text: string, jobDescription: string,
                  jobLemmas: seq<string>, resumeLemmas: seq<string>, baseFit: real): Screening
  {
    var skills := SkillsIn(text);
    var gap := SkillGapOf(skills, SkillsIn(jobDescription));
    var ats := AtsOf(text, jobLemmas, resumeLemmas);
    var fit := AdjustedFit(baseFit, gap.gapScore, ats.atsScore);
    Screening(skills, ExperienceYears(eng, text), gap, ats, fit, RecommendationOf(fit))
  }

  /** A skill is present exactly when both the resume and the job mention
      it, and missing exactly when only the job does; the fit stays at or
      below 100 and, for a base fit in [0, 100], loses at most 28% of it. */
  lemma ScreenProperties(eng: Engine, text: string, jobDescription: string,
                         jobLemmas: seq<string>, resumeLemmas: seq<string>, baseFit: real, s: string)
    ensures var r := Screen(eng, text, jobDescription, jobLemmas, resumeLemmas, baseFit);
      && (s in r.skillGap.present <==>
            s in SkillKeywords && Contains(Lower(text), Lower(s)) && Contains(Lower(jobDescription), Lower(s)))
      && (s in r.skillGap.missing <==>
            s in SkillKeywords && !Contains(Lower(text), Lower(s)) && Contains(Lower(jobDescription), Lower(s)))
      && r.fitScore <= 100.0
      && (0.0 <= baseFit <= 100.0 ==> 0.72 * baseFit <= r.fitScore <= baseFit)
      && r.recommendation == RecommendationOf(r.fitScore)
  {
    GapMeaning(SkillKeywords, text, jobDescription, s);
  }

  /** The skill gap between the keywords two texts mention. */
  lemma GapMeaning(keywords: seq<string>, text: string, jobDescription: string, s: string)
    ensures var gap := SkillGapOf(SkillsFrom(keywords, text), SkillsFrom(keywords, jobDescription));
      && (s in gap.present <==>
            s in keywords && Contains(Lower(text), Lower(s)) && Contains(Lower(jobDescription), Lower(s)))
      && (s in gap.missing <==>
            s in keywords && !Contains(Lower(text), Lower(s)) && Contains(Lower(jobDescription), Lower(s)))
  {
    SkillsFromMeaning(keywords, text, s);
    SkillsFromMeaning(keywords, jobDescription, s);
  }
}
