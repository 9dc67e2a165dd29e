/** The text helpers of the second API: anonymising a resume before it is
    shown to a recruiter, the years of experience it claims, the education
    keywords it mentions, and the keyword half of its skill extraction.

    Regular expressions are evaluated by the caller's `Engine`; the named
    entities of the language model are an input list. */
module HiringApi {

  import opened Wrappers
  import opened Text
  import opened Seqs
  import opened Sets
  import opened Regex
  import opened ResumeData

  // ------------------------------------------------------------ anonymize

  /** E-mail addresses, then US phone numbers, then street addresses are
      replaced by placeholders, each substitution working on the result of
      the one before. */
  function Anonymize(eng: Engine, text: string): string {
    var noEmails := Sub(eng, EmailAddress, "[EMAIL]", text);
    var noPhones := Sub(eng, PhoneUs, "[PHONE]", noEmails);
    Sub(eng, StreetAddress, "[ADDRESS]", noPhones)
  }

  /** Each stage keeps the text between its matches, in order, and puts one
      placeholder in place of each match; the stages run e-mail, phone,
      address. */
  lemma AnonymizeStages(eng: Engine, text: string)
    ensures var noEmails := Join("[EMAIL]", GapsFrom(text, eng(EmailAddress, text), 0));
            var noPhones := Join("[PHONE]", GapsFrom(noEmails, eng(PhoneUs, noEmails), 0));
            Anonymize(eng, text) == Join("[ADDRESS]", GapsFrom(noPhones, eng(StreetAddress, noPhones), 0))
  {
    var noEmails := Sub(eng, EmailAddress, "[EMAIL]", text);
    SubIsJoinOfGaps(text, eng(EmailAddress, text), "[EMAIL]", 0);
    var noPhones := Sub(eng, PhoneUs, "[PHONE]", noEmails);
    SubIsJoinOfGaps(noEmails, eng(PhoneUs, noEmails), "[PHONE]", 0);
    SubIsJoinOfGaps(noPhones, eng(StreetAddress, noPhones), "[ADDRESS]", 0);
  }

  /** A text with nothing personal in it comes back unchanged. */
  lemma AnonymizeClean(eng: Engine, text: string)
    requires eng(EmailAddress, text) == [] && eng(PhoneUs, text) == [] && eng(StreetAddress, text) == []
    ensures Anonymize(eng, text) == text
  {
    SubNoMatch(eng, EmailAddress, "[EMAIL]", text);
    SubNoMatch(eng, PhoneUs, "[PHONE]", text);
    SubNoMatch(eng, StreetAddress, "[ADDRESS]", text);
  }

  // ----------------------------------------------------------- experience

  /** The two patterns, tried in this order: "N years of experience", then
      "experience: N years". */
  const ExperiencePatterns: seq<Pattern> := [YearsThenExperience, ExperienceThenYears]

  /** The years a resume claims, and whether it claims any. */
  datatype ExperienceClaim = ExperienceClaim(years: nat, found: bool)

  /** The number captured by the first match of the first pattern that
      matches the lower-cased text at all. */
  function ExperienceOf(eng: Engine, text: string): ExperienceClaim {
    match FirstMatching(eng, ExperiencePatterns, Lower(text))
    case None => ExperienceClaim(0, false)
    case Some(m) => ExperienceClaim(DigitsValue(Group(m, 1)), true)
  }

  /** A claim is found exactly when one of the patterns matches; the first
      pattern wins whenever it matches, the second is used only when the
      first does not, and no claim means zero years. */
  lemma ExperienceOfMeaning(eng: Engine, text: string)
    ensures var lt := Lower(text);
            var r := ExperienceOf(eng, text);
            && (r.found <==> eng(YearsThenExperience, lt) != [] || eng(ExperienceThenYears, lt) != [])
            && (eng(YearsThenExperience, lt) != [] ==> r.years == DigitsValue(Group(eng(YearsThenExperience, lt)[0], 1)))
            && (eng(YearsThenExperience, lt) == [] && eng(ExperienceThenYears, lt) != [] ==>
                  r.years == DigitsValue(Group(eng(ExperienceThenYears, lt)[0], 1)))
            && (!r.found ==> r.years == 0)
  {
    var lt := Lower(text);
    var ps := ExperiencePatterns;
    var r := FirstMatching(eng, ps, lt);
    assert ps[0] == YearsThenExperience && ps[1] == ExperienceThenYears;
    if r.Some? {
      var k :| 0 <= k < |ps| && |eng(ps[k], lt)| > 0 && r.value == eng(ps[k], lt)[0]
               && forall j :: 0 <= j < k ==> eng(ps[j], lt) == [];
      if eng(YearsThenExperience, lt) != [] {
        assert k == 0;
      }
    } else {
      assert eng(ps[0], lt) == [] && eng(ps[1], lt) == [];
    }
  }

  /** The loop over the patterns that returns at the first match it sees. */
  method ExtractExperience(eng: Engine, text: string) returns (r: ExperienceClaim)
    ensures r == ExperienceOf(eng, text)
  {
    var lt := Lower(text);
    var ps := ExperiencePatterns;
    var i := 0;
    while i < |ps|
      invariant 0 <= i <= |ps|
      invariant forall j :: 0 <= j < i ==> !HasMatch(eng, lt)(ps[j])
    {
      var matches := eng(ps[i], lt);
      if |matches| > 0 {
        FirstFromUnique(ps, 0, HasMatch(eng, lt), i);
        return ExperienceClaim(DigitsValue(Group(matches[0], 1)), true);
      }
      i := i + 1;
    }
    FirstFromUnique(ps, 0, HasMatch(eng, lt), i);
    return ExperienceClaim(0, false);
  }

  // ------------------------------------------------------------ education

  /** The education keywords, in the order they are reported. */
  const EducationKeywords: seq<string> := [
    "bachelor", "master", "phd", "doctorate", "mba", "b.tech", "m.tech",
    "b.e.", "m.e.", "b.sc", "m.sc", "diploma", "associate degree"]

  /** Whether a keyword, as written, is a substring of the given text. */
  function OccursIn(lowerText: string): string -> bool {
    (k: string) => Contains(lowerText, k)
  }

  /** The keywords of `keywords` that occur in the lower-cased text, in
      list order. */
  function KeywordsFound(keywords: seq<string>, text: string): seq<string> {
    Filter(keywords, OccursIn(Lower(text)))
  }

  /** A keyword is reported exactly when the lower-cased text contains it,
      in the order of the list, and a list without repeats gives a report
      without repeats. */
  lemma KeywordsFoundMeaning(keywords: seq<string>, text: string, k: string)
    ensures k in KeywordsFound(keywords, text) <==> k in keywords && Contains(Lower(text), k)
    ensures |KeywordsFound(keywords, text)| <= |keywords|
    ensures Distinct(keywords) ==> Distinct(KeywordsFound(keywords, text))
  {
    FilterMember(keywords, OccursIn(Lower(text)), k);
    if Distinct(keywords) {
      FilterDistinct(keywords, OccursIn(Lower(text)));
    }
  }

  /** The loop that appends every keyword found in the lower-cased text. */
  method CollectKeywords(keywords: seq<string>, text: string) returns (found: seq<string>)
    ensures found == KeywordsFound(keywords, text)
  {
    var lt := Lower(text);
    found := [];
    for i := 0 to |keywords|
      invariant found == Filter(keywords[..i], OccursIn(lt))
    {
      FilterStep(keywords, i, OccursIn(lt));
      if Contains(lt, keywords[i]) {
        found := found + [keywords[i]];
      }
    }
    assert keywords[..|keywords|] == keywords;
  }

  /** The education qualifications a resume mentions. */
  method ExtractEducation(text: string) returns (found: seq<string>)
    ensures found == KeywordsFound(EducationKeywords, text)
  {
    found := CollectKeywords(EducationKeywords, text);
  }

  /** The education keywords are distinct, so the report has no repeats. */
  lemma EducationKeywordsDistinct()
    ensures Distinct(EducationKeywords)
  {
    var ks := EducationKeywords;
    forall i, j | 0 <= i < j < |ks| ensures ks[i] != ks[j] {
      KeywordsDiffer(ks, i, j);
    }
  }

  /** Two entries of the keyword table differ in their text. */
  lemma KeywordsDiffer(ks: seq<string>, i: nat, j: nat)
    requires ks == EducationKeywords && i < j < |ks|
    ensures ks[i] != ks[j]
  {
  }

  // --------------------------------------------------------------- skills

  /** The technical skills looked for as substrings. */
  const TechnicalSkills: seq<string> := [
    "python", "java", "javascript", "typescript", "c++", "c#", "ruby", "php", "go", "rust", "swift", "kotlin",
    "react", "angular", "vue", "node.js", "express", "django", "flask", "spring", "fastapi",
    "sql", "postgresql", "mysql", "mongodb", "redis", "elasticsearch",
    "aws", "azure", "gcp", "docker", "kubernetes", "terraform",
    "git", "jenkins", "ci/cd", "agile", "scrum",
    "machine learning", "deep learning", "nlp", "computer vision", "tensorflow", "pytorch",
    "html", "css", "rest api", "graphql", "microservices"]

  /** An organisation or product name of more than two characters. */
  predicate IsToolName(e: Entity) {
    (e.kind == "ORG" || e.kind == "PRODUCT") && |e.text| > 2
  }

  function EntityName(e: Entity): string {
    Lower(e.text)
  }

  /** The skill set: every keyword occurring in the lower-cased text, and
      the lower-cased text of every organisation or product entity. */
  function SkillsNlp(keywords: seq<string>, text: string, entities: seq<Entity>): set<string> {
    SetOf(KeywordsFound(keywords, text)) + SetOf(Map(Filter(entities, IsToolName), EntityName))
  }

  /** A skill is reported exactly when it is a keyword the text contains or
      the name of an organisation or product entity. */
  lemma SkillsNlpMeaning(keywords: seq<string>, text: string, entities: seq<Entity>, s: string)
    ensures s in SkillsNlp(keywords, text, entities) <==>
              (s in keywords && Contains(Lower(text), s))
              || exists e :: e in entities && IsToolName(e) && Lower(e.text) == s
  {
    KeywordsFoundMeaning(keywords, text, s);
    MapFilterMember(entities, IsToolName, EntityName, s);
  }

  /** The two loops of the extraction: the keywords, then the entities,
      each adding to one set. */
  method ExtractSkills(keywords: seq<string>, text: string, entities: seq<Entity>) returns (found: set<string>)
    ensures found == SkillsNlp(keywords, text, entities)
  {
    found := KeywordSet(keywords, text);
    found := AddToolNames(found, entities);
  }

  /** The first loop: every keyword the lower-cased text contains. */
  method KeywordSet(keywords: seq<string>, text: string) returns (found: set<string>)
    ensures found == SetOf(KeywordsFound(keywords, text))
  {
    var lt := Lower(text);
    found := {};
    for i := 0 to |keywords|
      invariant found == SetOf(Filter(keywords[..i], OccursIn(lt)))
    {
      FilterStep(keywords, i, OccursIn(lt));
      if Contains(lt, keywords[i]) {
        SetOfSnoc(Filter(keywords[..i], OccursIn(lt)), keywords[i]);
        found := found + {keywords[i]};
      }
    }
    assert keywords[..|keywords|] == keywords;
  }

  /** The second loop: the lower-cased name of every organisation or
      product entity is added to the set built so far. */
  method AddToolNames(start: set<string>, entities: seq<Entity>) returns (found: set<string>)
    ensures found == start + SetOf(Map(Filter(entities, IsToolName), EntityName))
  {
    found := start;
    for i := 0 to |entities|
      invariant found == start + SetOf(Map(Filter(entities[..i], IsToolName), EntityName))
    {
      MapFilterStep(entities, i, IsToolName, EntityName);
      var e := entities[i];
      if e.kind == "ORG" || e.kind == "PRODUCT" {
        if |e.text| > 2 {
          SetOfSnoc(Map(Filter(entities[..i], IsToolName), EntityName), EntityName(e));
          found := found + {Lower(e.text)};
        }
      }
    }
    assert entities[..|entities|] == entities;
  }

  /** The extraction with the technical-skill table. */
  method ExtractSkillsNlp(text: string, entities: seq<Entity>) returns (found: set<string>)
    ensures found == SkillsNlp(TechnicalSkills, text, entities)
  {
    found := ExtractSkills(TechnicalSkills, text, entities);
  }
}
