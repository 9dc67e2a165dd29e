/** The rule-based resume parser: contact details, skills from a fixed
    table, experience and education entries cut out of their sections, a
    summary, and the years of experience.

    The language model's named entities are the caller's `ents`, in document
    order; the regular expressions that only recognise shapes are the
    caller's `Engine`. */
module ResumeParser {

  import opened Wrappers
  import opened Text
  import opened Regex
  import opened Seqs
  import opened Sorting
  import opened ResumeData
  import opened Dates

  // ------------------------------------------------------------- sections

  /** The headings that end a section unless they name the section itself. */
  const Headings: seq<string> := [
    "experience", "education", "skills", "projects", "certifications",
    "awards", "publications", "references", "summary", "objective"]

  /** A line opens the section when, lower-cased and stripped, it contains
      one of the section's keys. */
  predicate OpensSection(line: string, keys: seq<string>) {
    ContainsAny(Strip(Lower(line)), keys)
  }

  /** A line closes the section when it is not blank and is either in
      capitals or mentions a heading that is not one of the section's keys. */
  predicate ClosesSection(line: string, keys: seq<string>) {
    var l := Strip(Lower(line));
    l != [] && (IsUpperText(Strip(line)) || exists h :: h in Headings && h !in keys && Contains(l, h))
  }

  function Opener(keys: seq<string>): string -> bool {
    (line: string) => OpensSection(line, keys)
  }

  function Closer(keys: seq<string>): string -> bool {
    (line: string) => ClosesSection(line, keys)
  }

  /** The lines `[start, end)` of the section: it starts after the first
      opening line and runs up to the first closing line after it, or to the
      last line. */
  function SectionBounds(lines: seq<string>, keys: seq<string>): (r: Option<(nat, nat)>)
    ensures r.None? <==> forall i :: 0 <= i < |lines| ==> !OpensSection(lines[i], keys)
    ensures r.Some? ==>
      var (s, e) := r.value;
      0 < s <= e <= |lines|
      && OpensSection(lines[s - 1], keys)
      && (forall i :: 0 <= i < s - 1 ==> !OpensSection(lines[i], keys))
      && (forall i :: s <= i < e ==> !ClosesSection(lines[i], keys))
      && (e < |lines| ==> ClosesSection(lines[e], keys))
  {
    var k := FirstFrom(lines, 0, Opener(keys));
    if k == |lines| then None
    else Some((k + 1, FirstFrom(lines, k + 1, Closer(keys))))
  }

  /** The stripped text of the section, or `None` when no line opens it. */
  function Section(text: string, keys: seq<string>): Option<string> {
    var lines := Split(text, '\n');
    match SectionBounds(lines, keys)
    case None => None
    case Some((s, e)) => Some(Strip(Join("\n", lines[s..e])))
  }

  method ExtractSection(text: string, keys: seq<string>) returns (r: Option<string>)
    ensures r == Section(text, keys)
  {
    var lines := Split(text, '\n');
    var i := FindFirst(lines, 0, Opener(keys));
    if i == |lines| {
      return None;
    }
    var end := FindFirst(lines, i + 1, Closer(keys));
    r := Some(Strip(Join("\n", lines[i + 1..end])));
  }

  // --------------------------------------------------------------- skills

  /** The categories of skills and their skills, in the source's order. */
  const SkillTable: seq<(string, seq<string>)> := [
    ("programming_languages", [
      "python", "java", "javascript", "typescript", "c++", "c#", "ruby", "go", "golang",
      "rust", "swift", "kotlin", "php", "perl", "r", "matlab", "scala", "dart"]),
    ("web_technologies", [
      "html", "css", "react", "angular", "vue", "nodejs", "node.js", "express",
      "django", "flask", "fastapi", "spring boot", "asp.net", "next.js", "nuxt.js",
      "svelte", "jquery", "bootstrap", "tailwind", "sass", "less", "webpack", "vite"]),
    ("databases", [
      "sql", "mysql", "postgresql", "mongodb", "redis", "cassandra", "dynamodb",
      "oracle", "sql server", "sqlite", "elasticsearch", "neo4j", "couchdb"]),
    ("cloud_devops", [
      "aws", "azure", "gcp", "google cloud", "docker", "kubernetes", "jenkins",
      "gitlab", "github actions", "terraform", "ansible", "ci/cd", "devops"]),
    ("data_science", [
      "machine learning", "deep learning", "tensorflow", "pytorch", "keras",
      "scikit-learn", "pandas", "numpy", "data analysis", "statistics",
      "nlp", "computer vision", "neural networks", "ai"]),
    ("soft_skills", [
      "leadership", "communication", "teamwork", "problem solving", "analytical",
      "project management", "agile", "scrum", "collaboration", "presentation"]),
    ("tools", [
      "git", "jira", "confluence", "slack", "figma", "adobe", "photoshop",
      "illustrator", "excel", "powerpoint", "tableau", "power bi", "looker"])]

  /** The title-cased skills of `skills` that occur as whole words in the
      lower-cased text, in list order. */
  function FoundSkills(lower: string, skills: seq<string>): seq<string>
    decreases |skills|
  {
    if skills == [] then []
    else
      var s := skills[|skills| - 1];
      FoundSkills(lower, skills[..|skills| - 1]) + (if ContainsWholeWord(lower, Lower(s)) then [Title(s)] else [])
  }

  /** The categories with at least one skill found, in table order. */
  function Categorized(lower: string, table: seq<(string, seq<string>)>): (r: seq<SkillCategory>)
    ensures forall i :: 0 <= i < |r| ==> r[i].skills != []
    decreases |table|
  {
    if table == [] then []
    else
      var (name, skills) := table[|table| - 1];
      var found := FoundSkills(lower, skills);
      Categorized(lower, table[..|table| - 1]) + (if found != [] then [SkillCategory(name, found)] else [])
  }

  /** Every skill found, category after category, repeats included. */
  function AllFound(lower: string, table: seq<(string, seq<string>)>): seq<string>
    decreases |table|
  {
    if table == [] then []
    else AllFound(lower, table[..|table| - 1]) + FoundSkills(lower, table[|table| - 1].1)
  }

  function SkillsOf(text: string): SkillSet {
    var lower := Lower(text);
    var all := AllFound(lower, SkillTable);
    SkillSet(Categorized(lower, SkillTable), SortedDistinct(all), |all|)
  }

  method ExtractSkills(text: string) returns (r: SkillSet)
    ensures r == SkillsOf(text)
  {
    var lower := Lower(text);
    var categorized: seq<SkillCategory> := [];
    var all: seq<string> := [];
    var c := 0;
    while c < |SkillTable|
      invariant 0 <= c <= |SkillTable|
      invariant categorized == Categorized(lower, SkillTable[..c])
      invariant all == AllFound(lower, SkillTable[..c])
    {
      var (name, skills) := SkillTable[c];
      var found;
      found, all := ScanCategory(lower, skills, all);
      TableStep(lower, SkillTable, c);
      if found != [] {
        categorized := categorized + [SkillCategory(name, found)];
      }
      c := c + 1;
    }
    assert SkillTable[..c] == SkillTable;
    r := SkillSet(categorized, SortedDistinct(all), |all|);
  }

  /** The skills of one category that occur in the text, each also
      appended to `all`. */
  method ScanCategory(lower: string, skills: seq<string>, all: seq<string>) returns (found: seq<string>, all': seq<string>)
    ensures found == FoundSkills(lower, skills)
    ensures all' == all + found
  {
    found, all' := [], all;
    var k := 0;
    while k < |skills|
      invariant 0 <= k <= |skills|
      invariant found == FoundSkills(lower, skills[..k])
      invariant all' == all + found
    {
      assert skills[..k + 1][..k] == skills[..k];
      if ContainsWholeWord(lower, Lower(skills[k])) {
        found := found + [Title(skills[k])];
        all' := all' + [Title(skills[k])];
      }
      k := k + 1;
    }
    assert skills[..k] == skills;
  }

  /** The categories and skills found after one more category of the
      table. */
  lemma TableStep(lower: string, table: seq<(string, seq<string>)>, c: nat)
    requires c < |table|
    ensures var found := FoundSkills(lower, table[c].1);
            && AllFound(lower, table[..c + 1]) == AllFound(lower, table[..c]) + found
            && Categorized(lower, table[..c + 1])
               == Categorized(lower, table[..c]) + (if found != [] then [SkillCategory(table[c].0, found)] else [])
  {
    assert table[..c + 1][..c] == table[..c];
  }

  /** A skill is reported, title-cased, exactly when it occurs as a whole
      word. */
  lemma {:induction false} FoundSkillsMembers(lower: string, skills: seq<string>, x: string)
    ensures x in FoundSkills(lower, skills)
            <==> exists k :: 0 <= k < |skills| && ContainsWholeWord(lower, Lower(skills[k])) && x == Title(skills[k])
    decreases |skills|
  {
    if skills != [] {
      var init := skills[..|skills| - 1];
      FoundSkillsMembers(lower, init, x);
      assert forall k :: 0 <= k < |init| ==> init[k] == skills[k];
    }
  }

  /** The total of a skill set is the sum of the category sizes. */
  function SizeSum(cs: seq<SkillCategory>): nat
    decreases |cs|
  {
    if cs == [] then 0 else SizeSum(cs[..|cs| - 1]) + |cs[|cs| - 1].skills|
  }

  lemma {:induction false} CountIsSizeSum(lower: string, table: seq<(string, seq<string>)>)
    ensures |AllFound(lower, table)| == SizeSum(Categorized(lower, table))
    decreases |table|
  {
    if table != [] {
      var init := table[..|table| - 1];
      CountIsSizeSum(lower, init);
      var found := FoundSkills(lower, table[|table| - 1].1);
      var cs := Categorized(lower, init);
      if found != [] {
        var cs' := cs + [SkillCategory(table[|table| - 1].0, found)];
        assert cs'[..|cs'| - 1] == cs;
      } else {
        assert Categorized(lower, table) == cs;
      }
    }
  }

  /** The skill set of a text: `count` is the number of skills found with
      repeats across categories, `all_skills` the distinct ones in sorted
      order, and both agree with the categories. */
  lemma SkillsOfProperties(text: string)
    ensures SkillsOf(text).count == SizeSum(SkillsOf(text).categorized)
    ensures |SkillsOf(text).allSkills| <= SkillsOf(text).count
    ensures forall i, j :: 0 <= i < j < |SkillsOf(text).allSkills| ==> StrLt(SkillsOf(text).allSkills[i], SkillsOf(text).allSkills[j])
    ensures forall x :: x in SkillsOf(text).allSkills <==> x in AllFound(Lower(text), SkillTable)
  {
    CountIsSizeSum(Lower(text), SkillTable);
  }

  /** A skill is in the sorted list exactly when some category has it and it
      occurs as a whole word. */
  lemma {:induction false} AllFoundMembers(lower: string, table: seq<(string, seq<string>)>, x: string)
    ensures x in AllFound(lower, table)
            <==> exists c :: 0 <= c < |table| && x in FoundSkills(lower, table[c].1)
    decreases |table|
  {
    if table != [] {
      var init := table[..|table| - 1];
      AllFoundMembers(lower, init, x);
      assert forall c :: 0 <= c < |init| ==> init[c] == table[c];
    }
  }

  // ----------------------------------------------------------- experience

  const ExperienceKeys: seq<string> := ["experience", "work history", "employment"]

  const CompanyMarkers: seq<string> := ["at ", "with ", "@"]

  const DatePatterns: seq<Pattern> := [DateRangeYears, DateRangeMonthYear, DateRangeNumeric]

  /** One of the first three lines of an entry naming the employer. */
  predicate IsCompanyLine(line: string) {
    ContainsAny(Lower(line), CompanyMarkers)
  }

  /** Blocks shorter than twenty characters once stripped are not entries. */
  predicate IsExperienceEntry(entry: string) {
    |Strip(entry)| >= 20
  }

  /** The experience record of one entry. */
  function EntryOf(eng: Engine, entry: string): Experience {
    var lines := Split(entry, '\n');
    var company := CompanyOf(lines);
    var dates := FirstMatching(eng, DatePatterns, entry);
    Experience(
      Some(Strip(lines[0])),
      company,
      if dates.Some? then Some(Group(dates.value, 1) + " - " + Group(dates.value, 2)) else None,
      if dates.Some? then Some(Group(dates.value, 1)) else None,
      if dates.Some? then Some(Group(dates.value, 2)) else None,
      Some(Strip(entry)),
      Map(FindAllGroup(eng, BulletItem, entry), Strip))
  }

  /** The company of an entry: the first of its first three lines that
      names an employer, stripped. */
  function CompanyOf(lines: seq<string>): Option<string> {
    match First(Take(lines, 3), IsCompanyLine)
    case None => None
    case Some(l) => Some(Strip(l))
  }

  /** The company is the first of the first three lines that names an
      employer ("at ", "with " or "@"), stripped; there is none when none of
      them does. */
  lemma EntryCompany(lines: seq<string>)
    ensures CompanyOf(lines).None? <==> forall k :: 0 <= k < 3 && k < |lines| ==> !IsCompanyLine(lines[k])
    ensures CompanyOf(lines).Some? ==>
              exists k :: 0 <= k < 3 && k < |lines| && IsCompanyLine(lines[k])
                && CompanyOf(lines).value == Strip(lines[k])
                && forall j :: 0 <= j < k ==> !IsCompanyLine(lines[j])
  {
    FirstTake(lines, 3, IsCompanyLine);
    FirstTakeSome(lines, 3, IsCompanyLine);
  }

  /** The dates are present exactly when some date pattern matches, all
      three together, and the duration joins the start and the end. */
  lemma EntryDates(eng: Engine, entry: string)
    ensures EntryOf(eng, entry).startDate.Some?
            <==> exists k :: 0 <= k < |DatePatterns| && eng(DatePatterns[k], entry) != []
    ensures EntryOf(eng, entry).startDate.Some? <==> EntryOf(eng, entry).endDate.Some?
    ensures EntryOf(eng, entry).startDate.Some? <==> EntryOf(eng, entry).duration.Some?
    ensures EntryOf(eng, entry).duration.Some? ==>
              EntryOf(eng, entry).duration.value
              == EntryOf(eng, entry).startDate.value + " - " + EntryOf(eng, entry).endDate.value
  {
  }

  /** One responsibility per bullet, the text after the bullet stripped. */
  lemma EntryResponsibilities(eng: Engine, entry: string)
    ensures |EntryOf(eng, entry).responsibilities| == |eng(BulletItem, entry)|
    ensures forall k :: 0 <= k < |eng(BulletItem, entry)| ==>
              EntryOf(eng, entry).responsibilities[k] == Strip(Group(eng(BulletItem, entry)[k], 1))
  {
  }

  function EntryMapper(eng: Engine): string -> Experience {
    (entry: string) => EntryOf(eng, entry)
  }

  /** The experience entries: the blocks of the experience section between
      blank lines that are long enough, in order. */
  function ExperiencesOf(eng: Engine, text: string): seq<Experience> {
    var sec := Section(text, ExperienceKeys);
    if !Truthy(sec) then []
    else Map(Filter(SplitBlankLines(sec.value), IsExperienceEntry), EntryMapper(eng))
  }

  method ExtractEntry(eng: Engine, entry: string) returns (e: Experience)
    ensures e == EntryOf(eng, entry)
  {
    var lines := Split(entry, '\n');
    var top := Take(lines, 3);
    var c := FindFirst(top, 0, IsCompanyLine);
    var company := if c < |top| then Some(Strip(top[c])) else None;
    var k := FindFirst(DatePatterns, 0, HasMatch(eng, entry));
    var duration, start, end := None, None, None;
    if k < |DatePatterns| {
      var m := Search(eng, DatePatterns[k], entry).value;
      start := Some(Group(m, 1));
      end := Some(Group(m, 2));
      duration := Some(Group(m, 1) + " - " + Group(m, 2));
    }
    var responsibilities := Map(FindAllGroup(eng, BulletItem, entry), Strip);
    e := Experience(Some(Strip(lines[0])), company, duration, start, end, Some(Strip(entry)), responsibilities);
  }

  method ExtractExperience(eng: Engine, text: string) returns (es: seq<Experience>)
    ensures es == ExperiencesOf(eng, text)
  {
    var sec := ExtractSection(text, ExperienceKeys);
    if !Truthy(sec) {
      return [];
    }
    es := ExtractEntries(eng, SplitBlankLines(sec.value));
  }

  /** The loop over the blocks of the experience section. */
  method ExtractEntries(eng: Engine, entries: seq<string>) returns (es: seq<Experience>)
    ensures es == Map(Filter(entries, IsExperienceEntry), EntryMapper(eng))
  {
    es := [];
    var i := 0;
    while i < |entries|
      invariant 0 <= i <= |entries|
      invariant es == Map(Filter(entries[..i], IsExperienceEntry), EntryMapper(eng))
    {
      MapFilterStep(entries, i, IsExperienceEntry, EntryMapper(eng));
      if IsExperienceEntry(entries[i]) {
        var e := ExtractEntry(eng, entries[i]);
        es := es + [e];
      }
      i := i + 1;
    }
    assert entries[..i] == entries;
  }

  // ------------------------------------------------------------ education

  const EducationKeys: seq<string> := ["education", "academic background", "qualifications"]

  /** The degree keywords, tried in this order. */
  const DegreeKeywords: seq<string> := ["bachelor", "master", "phd", "diploma", "degree", "b.s.", "m.s.", "b.a.", "m.a.", "mba"]

  predicate IsEducationEntry(entry: string) {
    |Strip(entry)| >= 10
  }

  function OccursIn(s: string): string -> bool {
    (w: string) => Contains(s, w)
  }

  function LineMentions(w: string): string -> bool {
    (line: string) => Contains(Lower(line), w)
  }

  /** The stripped first line mentioning the first degree keyword that the
      entry mentions at all. */
  function DegreeOf(entry: string): (r: Option<string>)
    ensures r.Some? ==> exists k :: 0 <= k < |DegreeKeywords| && Contains(Lower(entry), DegreeKeywords[k])
  {
    KeyedLine(entry, DegreeKeywords)
  }

  /** The stripped first line mentioning the first of `keys` that the entry
      mentions at all. */
  function KeyedLine(entry: string, keys: seq<string>): (r: Option<string>)
    ensures r.Some? ==> exists k :: 0 <= k < |keys| && Contains(Lower(entry), keys[k])
  {
    var k := FirstFrom(keys, 0, OccursIn(Lower(entry)));
    if k == |keys| then None
    else DegreeLine(Split(entry, '\n'), keys[k])
  }

  /** A degree is found exactly when the entry mentions some degree keyword.
      It is then the stripped first line of the entry that mentions the
      earliest-listed keyword the entry mentions. */
  lemma DegreeOfMeaning(entry: string)
    ensures DegreeOf(entry).Some? <==>
              exists k :: 0 <= k < |DegreeKeywords| && Contains(Lower(entry), DegreeKeywords[k])
    ensures DegreeOf(entry).Some? ==> KeyedLineFrom(entry, DegreeKeywords, DegreeOf(entry).value)
  {
    assert forall j :: 0 <= j < |DegreeKeywords| ==> '\n' !in DegreeKeywords[j];
    KeyedLineMeaning(entry, DegreeKeywords);
  }

  /** `line` is the stripped first line of `entry` that mentions the
      earliest-listed of `keys` that `entry` mentions at all. */
  ghost predicate KeyedLineFrom(entry: string, keys: seq<string>, line: string) {
    exists k :: FirstMentioned(entry, keys, k) && FirstLineWith(Split(entry, '\n'), keys[k], line)
  }

  /** `keys[k]` is the first of `keys` that `entry` mentions. */
  predicate FirstMentioned(entry: string, keys: seq<string>, k: int) {
    0 <= k < |keys| && Contains(Lower(entry), keys[k])
    && forall j :: 0 <= j < k ==> !Contains(Lower(entry), keys[j])
  }

  /** `line` is the first of `lines` that mentions `keyword`, stripped. */
  ghost predicate FirstLineWith(lines: seq<string>, keyword: string, line: string) {
    exists i :: 0 <= i < |lines| && Contains(Lower(lines[i]), keyword)
      && (forall m :: 0 <= m < i ==> !Contains(Lower(lines[m]), keyword))
      && line == Strip(lines[i])
  }

  lemma {:induction false} KeyedLineMeaning(entry: string, keys: seq<string>)
    requires forall j :: 0 <= j < |keys| ==> '\n' !in keys[j]
    ensures KeyedLine(entry, keys).Some? <==> exists k :: 0 <= k < |keys| && Contains(Lower(entry), keys[k])
    ensures KeyedLine(entry, keys).Some? ==> KeyedLineFrom(entry, keys, KeyedLine(entry, keys).value)
  {
    var p := OccursIn(Lower(entry));
    var k := FirstFrom(keys, 0, p);
    assert forall j :: 0 <= j < |keys| ==> p(keys[j]) == Contains(Lower(entry), keys[j]);
    if k < |keys| {
      assert FirstMentioned(entry, keys, k);
      LineContains(entry, keys[k]);
      DegreeLineMeaning(Split(entry, '\n'), keys[k]);
    }
  }

  /** When some line mentions the keyword, the first such line is found. */
  lemma DegreeLineMeaning(lines: seq<string>, keyword: string)
    requires exists i :: 0 <= i < |lines| && Contains(Lower(lines[i]), keyword)
    ensures DegreeLine(lines, keyword).Some?
    ensures FirstLineWith(lines, keyword, DegreeLine(lines, keyword).value)
  {
    var q := LineMentions(keyword);
    var j :| 0 <= j < |lines| && Contains(Lower(lines[j]), keyword);
    assert q(lines[j]);
    var i := FirstFrom(lines, 0, q);
    assert i <= j;
    var r := First(lines, q);
    assert r.Some? && r.value == lines[i];
    forall m | 0 <= m < i
      ensures !Contains(Lower(lines[m]), keyword)
    {
      assert !q(lines[m]);
    }
    assert q(lines[i]);
  }

  /** The first of the lines that mentions the keyword, stripped. */
  function DegreeLine(lines: seq<string>, keyword: string): Option<string> {
    match First(lines, LineMentions(keyword))
    case None => None
    case Some(line) => Some(Strip(line))
  }

  function Last(s: seq<string>): (r: Option<string>)
    ensures r.Some? <==> s != []
    ensures r.Some? ==> r.value == s[|s| - 1]
  {
    if s == [] then None else Some(s[|s| - 1])
  }

  /** The year of an entry as the source computes it: the last match of
      `\b(19|20)\d{2}\b`, through `re.findall`, which returns the captured
      century and not the year. */
  function YearAsWritten(entry: string): Option<string> {
    Last(CenturyPrefixes(entry))
  }

  /** The year of an entry as intended: the last whole four-digit year. */
  function YearOf(entry: string): (r: Option<string>)
    ensures r.Some? ==> |r.value| == 4 && (r.value[..2] == "19" || r.value[..2] == "20")
  {
    Last(CenturyYears(entry))
  }

  /** What the source reports is always the first two characters of the
      intended year. */
  lemma YearAsWrittenIsCentury(entry: string)
    ensures YearAsWritten(entry) == match YearOf(entry) case None => None case Some(y) => Some(y[..2])
  {
    var ps := CenturyYearsFrom(entry, 0);
    if ps != [] {
      var p := ps[|ps| - 1];
      assert CenturyPrefixes(entry)[|ps| - 1] == entry[p..p + 2];
      assert CenturyYears(entry)[|ps| - 1] == entry[p..p + 4];
      assert entry[p..p + 4][..2] == entry[p..p + 2];
    }
  }

  /** An entry graduating in 2018 is reported with the year "20". */
  lemma YearTruncatedExample()
    ensures YearAsWritten("Graduated 2018") == Some("20")
    ensures YearOf("Graduated 2018") == Some("2018")
  {
    var s := "Graduated 2018";
    ExampleYearPosition();
    assert s[10..12] == "20";
    assert s[10..14] == "2018";
  }

  /** The one year of the example starts at position 10. */
  lemma ExampleYearPosition()
    ensures CenturyYearsFrom("Graduated 2018", 0) == [10]
  {
    var s := "Graduated 2018";
    assert CenturyYearAt(s, 10);
    assert forall j :: 0 <= j < 10 ==> !CenturyYearAt(s, j);
    assert CenturyYearsFrom(s, 14) == [];
    assert CenturyYearsFrom(s, 10) == [10];
    CenturyYearsFromSkip(s, 0, 10);
  }

  /** No match before `k` means the matches from `i` are those from `k`. */
  lemma {:induction false} CenturyYearsFromSkip(s: string, i: nat, k: nat)
    requires i <= k
    requires forall j :: i <= j < k ==> !CenturyYearAt(s, j)
    ensures CenturyYearsFrom(s, i) == CenturyYearsFrom(s, k)
    decreases k - i
  {
    if i < k {
      CenturyYearsFromSkip(s, i + 1, k);
    }
  }

  function GpaOf(eng: Engine, entry: string): (r: Option<string>)
    ensures r.Some? <==> eng(GpaValue, entry) != []
  {
    match Search(eng, GpaValue, entry)
    case None => None
    case Some(m) => Some(Group(m, 1))
  }

  function EducationOf(eng: Engine, entry: string): Education {
    Education(DegreeOf(entry), YearOf(entry), GpaOf(eng, entry))
  }

  /** The education record with the year as the source computes it. */
  function EducationAsWritten(eng: Engine, entry: string): (r: Education)
    ensures r.degree == EducationOf(eng, entry).degree && r.gpa == EducationOf(eng, entry).gpa
    ensures r.year.Some? <==> EducationOf(eng, entry).year.Some?
    ensures r.year.Some? ==> r.year.value == EducationOf(eng, entry).year.value[..2] && |r.year.value| == 2
  {
    YearAsWrittenIsCentury(entry);
    Education(DegreeOf(entry), YearAsWritten(entry), GpaOf(eng, entry))
  }

  function EducationMapper(eng: Engine): string -> Education {
    (entry: string) => EducationOf(eng, entry)
  }

  function EducationsOf(eng: Engine, text: string): seq<Education> {
    var sec := Section(text, EducationKeys);
    if !Truthy(sec) then []
    else Map(Filter(SplitBlankLines(sec.value), IsEducationEntry), EducationMapper(eng))
  }

  method ExtractDegree(entry: string) returns (d: Option<string>)
    ensures d == DegreeOf(entry)
  {
    var k := FindFirst(DegreeKeywords, 0, OccursIn(Lower(entry)));
    d := None;
    if k < |DegreeKeywords| {
      var lines := Split(entry, '\n');
      var i := FindFirst(lines, 0, LineMentions(DegreeKeywords[k]));
      if i < |lines| {
        d := Some(Strip(lines[i]));
      }
      assert d == DegreeLine(lines, DegreeKeywords[k]);
    }
  }

  method ExtractEducation(eng: Engine, text: string) returns (es: seq<Education>)
    ensures es == EducationsOf(eng, text)
  {
    var sec := ExtractSection(text, EducationKeys);
    if !Truthy(sec) {
      return [];
    }
    es := ExtractEducationEntries(eng, SplitBlankLines(sec.value));
  }

  /** The loop over the blocks of the education section. */
  method ExtractEducationEntries(eng: Engine, entries: seq<string>) returns (es: seq<Education>)
    ensures es == Map(Filter(entries, IsEducationEntry), EducationMapper(eng))
  {
    es := [];
    var i := 0;
    while i < |entries|
      invariant 0 <= i <= |entries|
      invariant es == Map(Filter(entries[..i], IsEducationEntry), EducationMapper(eng))
    {
      MapFilterStep(entries, i, IsEducationEntry, EducationMapper(eng));
      if IsEducationEntry(entries[i]) {
        var degree := ExtractDegree(entries[i]);
        es := es + [Education(degree, YearOf(entries[i]), GpaOf(eng, entries[i]))];
      }
      i := i + 1;
    }
    assert entries[..i] == entries;
  }

  // -------------------------------------------------------------- summary

  const SummaryKeys: seq<string> := ["summary", "professional summary", "objective", "profile", "about"]

  predicate IsSummaryLine(line: string) {
    |Strip(line)| > 30
  }

  /** The first three stripped lines of the summary section longer than
      thirty characters, joined by spaces. */
  function SummaryOf(text: string): (r: Option<string>)
    ensures r.Some? ==> Truthy(Section(text, SummaryKeys))
  {
    SummaryIn(Section(text, SummaryKeys))
  }

  /** The summary drawn from the text of a section. */
  function SummaryIn(sec: Option<string>): (r: Option<string>)
    ensures r.Some? ==> Truthy(sec)
  {
    if !Truthy(sec) then None
    else
      var ls := Map(Filter(Split(sec.value, '\n'), IsSummaryLine), Strip);
      if ls == [] then None else Some(Join(" ", Take(ls, 3)))
  }

  /** A summary is reported exactly when the summary section is non-empty
      and has a line longer than thirty characters once stripped; it then
      begins with the first such line, so it is longer than thirty
      characters itself. */
  lemma SummaryOfMeaning(text: string)
    ensures var sec := Section(text, SummaryKeys);
      SummaryOf(text).Some? <==>
        Truthy(sec) && exists i :: 0 <= i < |Split(sec.value, '\n')| && IsSummaryLine(Split(sec.value, '\n')[i])
    ensures SummaryOf(text).Some? ==>
      var lines := Split(Section(text, SummaryKeys).value, '\n');
      exists i :: 0 <= i < |lines| && IsSummaryLine(lines[i]) && StartsWith(SummaryOf(text).value, Strip(lines[i]))
    ensures SummaryOf(text).Some? ==> |SummaryOf(text).value| > 30
  {
    SummaryInMeaning(Section(text, SummaryKeys));
  }

  lemma {:induction false} SummaryInMeaning(sec: Option<string>)
    ensures SummaryIn(sec).Some? <==>
      Truthy(sec) && exists i :: 0 <= i < |Split(sec.value, '\n')| && IsSummaryLine(Split(sec.value, '\n')[i])
    ensures SummaryIn(sec).Some? ==>
      var lines := Split(sec.value, '\n');
      exists i :: 0 <= i < |lines| && IsSummaryLine(lines[i]) && StartsWith(SummaryIn(sec).value, Strip(lines[i]))
    ensures SummaryIn(sec).Some? ==> |SummaryIn(sec).value| > 30
  {
    if Truthy(sec) {
      var lines := Split(sec.value, '\n');
      var kept := Filter(lines, IsSummaryLine);
      FilterLength(lines, IsSummaryLine);
      if kept != [] {
        SummaryStart(lines, kept);
      }
    }
  }

  /** The summary joined from the kept lines begins with the first of them. */
  lemma SummaryStart(lines: seq<string>, kept: seq<string>)
    requires kept == Filter(lines, IsSummaryLine) && kept != []
    ensures var r := Join(" ", Take(Map(kept, Strip), 3));
      && StartsWith(r, Strip(kept[0]))
      && |r| > 30
      && exists i :: 0 <= i < |lines| && IsSummaryLine(lines[i]) && lines[i] == kept[0]
  {
    var ls := Map(kept, Strip);
    var t := Take(ls, 3);
    assert t[0] == ls[0] == Strip(kept[0]);
    JoinStartsWith(" ", t);
    assert kept[0] in lines && IsSummaryLine(kept[0]);
  }

  method ExtractSummary(text: string) returns (r: Option<string>)
    ensures r == SummaryOf(text)
  {
    var sec := ExtractSection(text, SummaryKeys);
    r := None;
    if Truthy(sec) {
      var ls := Map(Filter(Split(sec.value, '\n'), IsSummaryLine), Strip);
      if ls != [] {
        r := Some(Join(" ", Take(ls, 3)));
      }
    }
  }

  // --------------------------------------------------------- contact data

  const PhonePatterns: seq<Pattern> := [PhoneUs, PhoneParenthesised, PhoneInternational]

  const NameStopWords: seq<string> := ["email", "phone", "address", "linkedin"]

  /** A line, once stripped, of at most four words and more than three
      characters that mentions none of the contact keywords. */
  predicate IsNameLine(line: string) {
    var l := Strip(line);
    WordCount(l) <= 4 && |l| > 3 && !ContainsAny(Lower(l), NameStopWords)
  }

  predicate IsPerson(e: Entity) { e.kind == "PERSON" }

  predicate IsPlace(e: Entity) { e.kind == "GPE" || e.kind == "LOC" }

  /** The first name-like line among the first five, else the first person
      the entity recogniser found. */
  function NameOf(text: string, ents: seq<Entity>): Option<string> {
    NameFrom(Split(text, '\n'), ents)
  }

  /** The name from the lines of the text: a name-like line among the first
      five whenever there is one, and nothing exactly when there is neither
      such a line nor a person. */
  function NameFrom(lines: seq<string>, ents: seq<Entity>): (r: Option<string>)
    ensures (exists k :: 0 <= k < 5 && k < |lines| && IsNameLine(lines[k])) ==> r.Some? && IsNameLine(r.value)
    ensures r.None? <==>
              (forall k :: 0 <= k < 5 && k < |lines| ==> !IsNameLine(lines[k]))
              && (forall k :: 0 <= k < |ents| ==> !IsPerson(ents[k]))
  {
    FirstTake(lines, 5, IsNameLine);
    match First(Take(lines, 5), IsNameLine)
    case Some(line) =>
      StripIdempotent(line);
      Some(Strip(line))
    case None =>
      match First(ents, IsPerson)
      case Some(e) => Some(e.text)
      case None => None
  }

  function PersonalInfoOf(eng: Engine, text: string, ents: seq<Entity>): (r: PersonalInfo)
    ensures r.email.Some? <==> eng(EmailAddress, text) != []
    ensures r.phone.Some? <==> exists k :: 0 <= k < |PhonePatterns| && eng(PhonePatterns[k], text) != []
    ensures r.location.Some? <==> exists k :: 0 <= k < |ents| && IsPlace(ents[k])
    ensures r.linkedin.Some? <==> eng(LinkedInProfile, text) != []
    ensures r.github.Some? <==> eng(GitHubProfile, text) != []
  {
    var emails := FindAll(eng, EmailAddress, text);
    PersonalInfo(
      NameOf(text, ents),
      if emails == [] then None else Some(emails[0]),
      match FirstMatching(eng, PhonePatterns, text) case None => None case Some(m) => Some(Matched(text, m)),
      match First(ents, IsPlace) case None => None case Some(e) => Some(e.text),
      match Search(eng, LinkedInProfile, text) case None => None case Some(m) => Some(Matched(text, m)),
      match Search(eng, GitHubProfile, text) case None => None case Some(m) => Some(Matched(text, m)))
  }

  /** The loop over the first lines, then the one over the entities. */
  method ExtractName(text: string, ents: seq<Entity>) returns (name: Option<string>)
    ensures name == NameOf(text, ents)
  {
    var top := Take(Split(text, '\n'), 5);
    var n := FindFirst(top, 0, IsNameLine);
    name := None;
    if n < |top| {
      name := Some(Strip(top[n]));
    } else {
      var e := FindFirst(ents, 0, IsPerson);
      if e < |ents| {
        name := Some(ents[e].text);
      }
    }
  }

  method ExtractPersonalInfo(eng: Engine, text: string, ents: seq<Entity>) returns (info: PersonalInfo)
    ensures info == PersonalInfoOf(eng, text, ents)
  {
    var emails := FindAll(eng, EmailAddress, text);
    var email := if emails == [] then None else Some(emails[0]);

    var p := FindFirst(PhonePatterns, 0, HasMatch(eng, text));
    var phone := if p < |PhonePatterns| then Some(FindAll(eng, PhonePatterns[p], text)[0]) else None;

    var name := ExtractName(text, ents);

    var l := FindFirst(ents, 0, IsPlace);
    var location := if l < |ents| then Some(ents[l].text) else None;

    var linkedin := match Search(eng, LinkedInProfile, text) case None => None case Some(m) => Some(Matched(text, m));
    var github := match Search(eng, GitHubProfile, text) case None => None case Some(m) => Some(Matched(text, m));
    info := PersonalInfo(name, email, phone, location, linkedin, github);
  }

  // ---------------------------------------------------------------- parse

  /** The parsed resume. The keywords from noun chunks and entities and the
      metadata (parse time, length, word count) are not part of this model. */
  function ResumeOf(eng: Engine, text: string, ents: seq<Entity>): Resume {
    Resume(PersonalInfoOf(eng, text, ents), SkillsOf(text), ExperiencesOf(eng, text), EducationsOf(eng, text), SummaryOf(text))
  }

  method Parse(eng: Engine, text: string, ents: seq<Entity>) returns (r: Resume)
    ensures r == ResumeOf(eng, text, ents)
  {
    var personal := ExtractPersonalInfo(eng, text, ents);
    var skills := ExtractSkills(text);
    var experience := ExtractExperience(eng, text);
    var education := ExtractEducation(eng, text);
    var summary := ExtractSummary(text);
    r := Resume(personal, skills, experience, education, summary);
  }

  // ------------------------------------------------------ years of experience

  /** The total in whole years: months are added twelve per year, so the
      division back to years (and the rounding to one decimal) is exact. */
  method CalculateExperienceYears(es: seq<Experience>, currentYear: int) returns (years: int)
    ensures years == SignedTotal(es, currentYear)
  {
    var totalMonths := 0;
    var i := 0;
    while i < |es|
      invariant 0 <= i <= |es|
      invariant totalMonths == 12 * SignedTotal(es[..i], currentYear)
    {
      assert es[..i + 1][..i] == es[..i];
      var span := EntrySpan(es[i], currentYear);
      if span.Some? {
        totalMonths := totalMonths + span.value * 12;
      }
      i := i + 1;
    }
    assert es[..i] == es;
    years := totalMonths / 12;
  }

  /** An entry whose range runs backwards lowers the total. */
  lemma InvertedRangeLowersTotal(es: seq<Experience>, e: Experience, currentYear: int)
    requires EntrySpan(e, currentYear).Some? && EntrySpan(e, currentYear).value < 0
    ensures SignedTotal(es + [e], currentYear) < SignedTotal(es, currentYear)
  {
    assert (es + [e])[..|es|] == es;
  }
}
