/** The skill recommendation engine: a static skill taxonomy and table of
    career paths, from which it derives a skill profile, complementary
    skills, the skills missing for a role, promotion readiness, trending
    skills, a prioritised list of skills to learn, a learning path of up to
    three phases and market insights.

    Skill names are compared case-insensitively against `current_lower`,
    the lower-cased list of the candidate's skills. */
module SkillRecommender {

  import opened Wrappers
  import opened Text
  import opened Seqs
  import opened Sorting
  import opened Ratios

  // ------------------------------------------------------------- tables

  /** One skill of the taxonomy: its name, the skills related to it and
      the category its holders are counted under. The taxonomy is nested
      in five groups; every entry names its category, so the group name is
      never used and the table is kept flat, in the same order. */
  datatype TaxonomyEntry = TaxonomyEntry(name: string, related: seq<string>, category: string)

  const Taxonomy: seq<TaxonomyEntry> := [
    TaxonomyEntry("Python", ["Django", "Flask", "FastAPI", "Pandas", "NumPy"], "backend"),
    TaxonomyEntry("JavaScript", ["React", "Node.js", "TypeScript", "Vue", "Angular"], "frontend"),
    TaxonomyEntry("TypeScript", ["JavaScript", "React", "Angular", "Node.js"], "frontend"),
    TaxonomyEntry("Java", ["Spring Boot", "Hibernate", "Maven", "Gradle"], "backend"),
    TaxonomyEntry("Go", ["Docker", "Kubernetes", "Microservices"], "backend"),
    TaxonomyEntry("React", ["JavaScript", "TypeScript", "Next.js", "Redux", "React Query"], "frontend"),
    TaxonomyEntry("Node.js", ["JavaScript", "Express", "NestJS", "MongoDB", "PostgreSQL"], "backend"),
    TaxonomyEntry("Django", ["Python", "PostgreSQL", "Redis", "Celery"], "backend"),
    TaxonomyEntry("FastAPI", ["Python", "Pydantic", "SQLAlchemy", "Uvicorn"], "backend"),
    TaxonomyEntry("AWS", ["Docker", "Kubernetes", "Terraform", "EC2", "S3", "Lambda"], "cloud"),
    TaxonomyEntry("Docker", ["Kubernetes", "Docker Compose", "CI/CD"], "devops"),
    TaxonomyEntry("Kubernetes", ["Docker", "Helm", "Prometheus", "Grafana"], "devops"),
    TaxonomyEntry("Terraform", ["AWS", "Azure", "GCP", "Infrastructure as Code"], "devops"),
    TaxonomyEntry("Machine Learning", ["Python", "TensorFlow", "PyTorch", "Scikit-learn", "Pandas"], "ai"),
    TaxonomyEntry("TensorFlow", ["Python", "Keras", "Deep Learning", "Neural Networks"], "ai"),
    TaxonomyEntry("Pandas", ["Python", "NumPy", "Data Analysis", "SQL"], "data"),
    TaxonomyEntry("PostgreSQL", ["SQL", "Database Design", "Indexing", "Query Optimization"], "database"),
    TaxonomyEntry("MongoDB", ["NoSQL", "Database Design", "Indexing"], "database"),
    TaxonomyEntry("Redis", ["Caching", "In-Memory Database", "Session Management"], "database")
  ]

  datatype CareerPath = CareerPath(role: string, core: seq<string>, nextLevel: string, recommended: seq<string>, typicalYears: nat)

  const CareerPaths: seq<CareerPath> := [
    CareerPath("Software Engineer", ["Python", "JavaScript", "Git", "SQL", "REST APIs"],
      "Senior Software Engineer", ["System Design", "Docker", "AWS", "Testing", "CI/CD"], 2),
    CareerPath("Senior Software Engineer", ["System Design", "Architecture", "Mentoring", "Docker", "Kubernetes"],
      "Tech Lead / Engineering Manager", ["Leadership", "Project Management", "Microservices", "Performance Optimization"], 4),
    CareerPath("Data Scientist", ["Python", "Machine Learning", "Statistics", "Pandas", "SQL"],
      "Senior Data Scientist", ["Deep Learning", "TensorFlow", "Big Data", "MLOps", "A/B Testing"], 2),
    CareerPath("Frontend Developer", ["JavaScript", "React", "HTML", "CSS", "TypeScript"],
      "Senior Frontend Developer", ["Performance Optimization", "Testing", "Web Accessibility", "Next.js", "State Management"], 2),
    CareerPath("Backend Developer", ["Python", "Node.js", "SQL", "REST APIs", "Authentication"],
      "Senior Backend Developer", ["Microservices", "Message Queues", "Caching", "System Design", "GraphQL"], 2),
    CareerPath("DevOps Engineer", ["Docker", "Kubernetes", "CI/CD", "Linux", "Bash"],
      "Senior DevOps Engineer / SRE", ["Terraform", "Monitoring", "Security", "Cloud Architecture", "GitOps"], 2)
  ]

  const HotSkills: seq<string> :=
    ["AI/ML", "Python", "React", "TypeScript", "Kubernetes", "AWS", "Docker", "Go", "Rust", "GraphQL"]

  const EmergingTechnologies: seq<string> :=
    ["Large Language Models", "Edge Computing", "WebAssembly", "Serverless", "Blockchain", "Quantum Computing"]

  const IndustryDemand: seq<(string, string)> := [
    ("AI/ML Engineer", "very_high"), ("Cloud Architect", "high"), ("Full Stack Developer", "high"),
    ("DevOps Engineer", "high"), ("Data Engineer", "high"), ("Cybersecurity Specialist", "high")
  ]

  /** The lower-case indicator skills of each role, in table order. */
  const RoleIndicators: seq<(string, seq<string>)> := [
    ("Software Engineer", ["python", "java", "javascript", "git"]),
    ("Frontend Developer", ["react", "javascript", "html", "css"]),
    ("Backend Developer", ["python", "node.js", "sql", "api"]),
    ("Data Scientist", ["machine learning", "python", "pandas", "statistics"]),
    ("DevOps Engineer", ["docker", "kubernetes", "ci/cd", "aws"])
  ]

  const DefaultRole: string := "Software Engineer"

  // ------------------------------------------------------- known skills

  /** `[s.lower() for s in skills]`. */
  function Lowers(skills: seq<string>): (r: seq<string>)
    ensures |r| == |skills|
  {
    Map(skills, Lower)
  }

  /** `x.lower() not in current_lower`. */
  function Unknown(lowered: seq<string>): string -> bool {
    (x: string) => Lower(x) !in lowered
  }

  // ------------------------------------------------------ skill profile

  /** The skills counted under one category, in the order they were added;
      a skill is added once per taxonomy entry it matches. */
  datatype Bucket = Bucket(category: string, skills: seq<string>)

  /** A skill matches an entry when it is the entry's name or one of its
      related skills, ignoring case. */
  predicate MatchesEntry(skill: string, e: TaxonomyEntry) {
    Lower(skill) == Lower(e.name) || Lower(skill) in Lowers(e.related)
  }

  /** `x` is counted under category `d`. */
  predicate InBucket(bs: seq<Bucket>, d: string, x: string) {
    exists i :: 0 <= i < |bs| && bs[i].category == d && x in bs[i].skills
  }

  predicate HasCategory(bs: seq<Bucket>, c: string) {
    exists i :: 0 <= i < |bs| && bs[i].category == c
  }

  /** No category twice, and no empty bucket. */
  predicate WellFormed(bs: seq<Bucket>) {
    && (forall i, j :: 0 <= i < j < |bs| ==> bs[i].category != bs[j].category)
    && (forall i :: 0 <= i < |bs| ==> bs[i].skills != [])
  }

  lemma InBucketCons(b: Bucket, t: seq<Bucket>, d: string, x: string)
    ensures InBucket([b] + t, d, x) <==> (b.category == d && x in b.skills) || InBucket(t, d, x)
  {
    var bs := [b] + t;
    assert bs[0] == b;
    if InBucket(t, d, x) {
      var i :| 0 <= i < |t| && t[i].category == d && x in t[i].skills;
      assert bs[i + 1] == t[i];
    }
    if InBucket(bs, d, x) {
      var i :| 0 <= i < |bs| && bs[i].category == d && x in bs[i].skills;
      if i > 0 {
        assert t[i - 1] == bs[i];
      }
    }
  }

  lemma HasCategoryCons(b: Bucket, t: seq<Bucket>, c: string)
    ensures HasCategory([b] + t, c) <==> b.category == c || HasCategory(t, c)
  {
    var bs := [b] + t;
    assert bs[0] == b;
    assert forall i :: 0 <= i < |t| ==> bs[i + 1] == t[i];
    if HasCategory(bs, c) && b.category != c {
      var i :| 0 <= i < |bs| && bs[i].category == c;
      assert t[i - 1] == bs[i];
    }
  }

  lemma WellFormedCons(b: Bucket, t: seq<Bucket>)
    ensures WellFormed([b] + t) <==> b.skills != [] && !HasCategory(t, b.category) && WellFormed(t)
  {
    var bs := [b] + t;
    assert bs[0] == b;
    assert forall i :: 0 <= i < |t| ==> bs[i + 1] == t[i];
    if HasCategory(t, b.category) {
      var i :| 0 <= i < |t| && t[i].category == b.category;
      assert bs[i + 1].category == bs[0].category;
    }
    if b.skills != [] && !HasCategory(t, b.category) && WellFormed(t) {
      forall i, j | 0 <= i < j < |bs| ensures bs[i].category != bs[j].category {
        assert bs[j] == t[j - 1];
        if i > 0 {
          assert bs[i] == t[i - 1];
        }
      }
    }
  }

  /** `categories.setdefault(c, []).append(s)` on an insertion-ordered
      dict: the skill goes to the end of the bucket of `c`, which is
      created at the end when it is new. */
  function AddTo(bs: seq<Bucket>, c: string, s: string): seq<Bucket>
    decreases |bs|
  {
    if bs == [] then [Bucket(c, [s])]
    else if bs[0].category == c then [Bucket(c, bs[0].skills + [s])] + bs[1..]
    else [bs[0]] + AddTo(bs[1..], c, s)
  }

  /** Adding a skill counts it under its category and changes nothing
      else, and keeps the buckets well formed. */
  lemma {:induction false} AddToBuckets(bs: seq<Bucket>, c: string, s: string, d: string, x: string)
    requires WellFormed(bs)
    ensures WellFormed(AddTo(bs, c, s))
    ensures InBucket(AddTo(bs, c, s), d, x) <==> InBucket(bs, d, x) || (d == c && x == s)
    decreases |bs|
  {
    AddToCategories(bs, c, s);
    if bs == [] {
      InBucketCons(Bucket(c, [s]), [], d, x);
      WellFormedCons(Bucket(c, [s]), []);
      assert !HasCategory([], c);
    } else {
      var b := bs[0];
      var t := bs[1..];
      assert bs == [b] + t;
      WellFormedCons(b, t);
      InBucketCons(b, t, d, x);
      if b.category == c {
        var nb := Bucket(c, b.skills + [s]);
        WellFormedCons(nb, t);
        InBucketCons(nb, t, d, x);
      } else {
        AddToBuckets(t, c, s, d, x);
        AddToCategories(t, c, s);
        var rest := AddTo(t, c, s);
        WellFormedCons(b, rest);
        InBucketCons(b, rest, d, x);
      }
    }
  }

  /** Adding a skill adds its category and no other. */
  lemma {:induction false} AddToCategories(bs: seq<Bucket>, c: string, s: string)
    ensures forall d :: HasCategory(AddTo(bs, c, s), d) <==> HasCategory(bs, d) || d == c
    decreases |bs|
  {
    forall d ensures HasCategory(AddTo(bs, c, s), d) <==> HasCategory(bs, d) || d == c {
      if bs == [] {
        HasCategoryCons(Bucket(c, [s]), [], d);
        assert !HasCategory([], d);
      } else {
        var b := bs[0];
        var t := bs[1..];
        assert bs == [b] + t;
        HasCategoryCons(b, t, d);
        if b.category == c {
          HasCategoryCons(Bucket(c, b.skills + [s]), t, d);
        } else {
          AddToCategories(t, c, s);
          HasCategoryCons(b, AddTo(t, c, s), d);
        }
      }
    }
  }

  /** The inner loop: one skill against the entries `es`. */
  function AddMatches(bs: seq<Bucket>, skill: string, es: seq<TaxonomyEntry>): seq<Bucket>
    decreases |es|
  {
    if es == [] then bs
    else
      var b := AddMatches(bs, skill, es[..|es| - 1]);
      var e := es[|es| - 1];
      if MatchesEntry(skill, e) then AddTo(b, e.category, skill) else b
  }

  /** Both loops: every skill against every entry. */
  function CategorizeAll(skills: seq<string>, es: seq<TaxonomyEntry>): seq<Bucket>
    decreases |skills|
  {
    if skills == [] then []
    else AddMatches(CategorizeAll(skills[..|skills| - 1], es), skills[|skills| - 1], es)
  }

  lemma {:induction false} AddMatchesBuckets(bs: seq<Bucket>, skill: string, es: seq<TaxonomyEntry>, d: string, x: string)
    requires WellFormed(bs)
    ensures WellFormed(AddMatches(bs, skill, es))
    ensures InBucket(AddMatches(bs, skill, es), d, x)
            <==> InBucket(bs, d, x) || (x == skill && exists e :: e in es && e.category == d && MatchesEntry(skill, e))
    decreases |es|
  {
    if es != [] {
      var pre := es[..|es| - 1];
      var e := es[|es| - 1];
      assert es == pre + [e];
      AddMatchesBuckets(bs, skill, pre, d, x);
      var b := AddMatches(bs, skill, pre);
      if MatchesEntry(skill, e) {
        AddToBuckets(b, e.category, skill, d, x);
      }
      assert forall f :: f in es <==> f in pre || f == e;
    }
  }

  /** The categories: a skill is counted under a category exactly when it
      is one of the skills and matches an entry of that category; no
      category appears twice and none is empty. */
  lemma {:induction false} CategorizeAllBuckets(skills: seq<string>, es: seq<TaxonomyEntry>, d: string, x: string)
    ensures WellFormed(CategorizeAll(skills, es))
    ensures InBucket(CategorizeAll(skills, es), d, x)
            <==> x in skills && exists e :: e in es && e.category == d && MatchesEntry(x, e)
    decreases |skills|
  {
    if skills != [] {
      var pre := skills[..|skills| - 1];
      var s := skills[|skills| - 1];
      assert skills == pre + [s];
      CategorizeAllBuckets(pre, es, d, x);
      AddMatchesBuckets(CategorizeAll(pre, es), s, es, d, x);
    }
  }

  datatype SkillLevel = Beginner | Intermediate | Advanced | Expert

  function LevelRank(l: SkillLevel): nat {
    match l
    case Beginner => 0
    case Intermediate => 1
    case Advanced => 2
    case Expert => 3
  }

  /** The level from the number of skills: expert from 15, advanced from
      10, intermediate from 5. */
  function LevelOf(n: nat): (l: SkillLevel)
    ensures l == Expert <==> n >= 15
    ensures l == Advanced <==> 10 <= n < 15
    ensures l == Intermediate <==> 5 <= n < 10
    ensures l == Beginner <==> n < 5
  {
    if n >= 15 then Expert
    else if n >= 10 then Advanced
    else if n >= 5 then Intermediate
    else Beginner
  }

  /** More skills never give a lower level. */
  lemma LevelMonotone(n: nat, m: nat)
    requires n <= m
    ensures LevelRank(LevelOf(n)) <= LevelRank(LevelOf(m))
  {
  }

  /** `sorted(..., key=len, reverse=True)`. */
  function Larger(): (Bucket, Bucket) -> bool {
    ByKeyDesc((b: Bucket) => |b.skills| as real)
  }

  /** The (up to) three largest buckets, largest first. */
  function Strongest(bs: seq<Bucket>): seq<Bucket> {
    Take(Sort(bs, Larger()), 3)
  }

  function CategoryNames(bs: seq<Bucket>): (r: seq<string>)
    ensures |r| == |bs|
  {
    Map(bs, (b: Bucket) => b.category)
  }

  /** The strengths are three of the categories (or all, when fewer), in
      descending size, and no other category is larger than any of them. */
  lemma StrongestProperties(bs: seq<Bucket>)
    ensures |Strongest(bs)| == if |bs| < 3 then |bs| else 3
    ensures forall b :: b in Strongest(bs) ==> b in bs
    ensures forall i, j :: 0 <= i < j < |Strongest(bs)| ==> |Strongest(bs)[j].skills| <= |Strongest(bs)[i].skills|
    ensures forall b, t :: b in bs && b !in Strongest(bs) && t in Strongest(bs) ==> |b.skills| <= |t.skills|
  {
    StrongestMembers(bs);
    StrongestOrdered(bs);
    StrongestDominate(bs);
  }

  /** Three of the categories, or all when fewer. */
  lemma StrongestMembers(bs: seq<Bucket>)
    ensures |Strongest(bs)| == if |bs| < 3 then |bs| else 3
    ensures forall b :: b in Strongest(bs) ==> b in bs
  {
    var top := Strongest(bs);
    forall b | b in top ensures b in bs {
      SortMembers(bs, Larger(), b);
    }
  }

  /** The strengths come in descending size. */
  lemma StrongestOrdered(bs: seq<Bucket>)
    ensures forall i, j :: 0 <= i < j < |Strongest(bs)| ==> |Strongest(bs)[j].skills| <= |Strongest(bs)[i].skills|
  {
    var r := Sort(bs, Larger());
    ByKeyDescStrict((b: Bucket) => |b.skills| as real);
    SortSorted(bs, Larger());
    var top := Strongest(bs);
    forall i, j | 0 <= i < j < |top| ensures |top[j].skills| <= |top[i].skills| {
      assert top[i] == r[i] && top[j] == r[j];
      assert !Larger()(r[j], r[i]);
    }
  }

  /** No category left out is larger than a strength. */
  lemma StrongestDominate(bs: seq<Bucket>)
    ensures forall b, t :: b in bs && b !in Strongest(bs) && t in Strongest(bs) ==> |b.skills| <= |t.skills|
  {
    var r := Sort(bs, Larger());
    ByKeyDescStrict((b: Bucket) => |b.skills| as real);
    SortSorted(bs, Larger());
    var top := Strongest(bs);
    forall b, t | b in bs && b !in top && t in top ensures |b.skills| <= |t.skills| {
      SortMembers(bs, Larger(), b);
      var p :| 0 <= p < |r| && r[p] == b;
      var i :| 0 <= i < |top| && top[i] == t;
      assert forall q :: 0 <= q < |top| ==> top[q] == r[q];
      if p < |top| {
        assert false;
      }
      assert !Larger()(r[p], r[i]);
    }
  }

  datatype Profile = Profile(totalSkills: nat, categories: seq<Bucket>, strengths: seq<string>, level: SkillLevel)

  function ProfileOf(skills: seq<string>): (p: Profile)
    ensures p.totalSkills == |skills|
    ensures p.level == LevelOf(|skills|)
    ensures |p.strengths| <= 3 && |p.strengths| <= |p.categories|
  {
    var bs := CategorizeAll(skills, Taxonomy);
    StrongestProperties(bs);
    Profile(|skills|, bs, CategoryNames(Strongest(bs)), LevelOf(|skills|))
  }

  /** `_analyze_skill_profile`. */
  method AnalyzeSkillProfile(skills: seq<string>) returns (p: Profile)
    ensures p == ProfileOf(skills)
  {
    var bs := Categorize(skills, Taxonomy);
    p := Profile(|skills|, bs, CategoryNames(Strongest(bs)), LevelOf(|skills|));
  }

  /** The two nested loops that fill the categories. */
  method Categorize(skills: seq<string>, es: seq<TaxonomyEntry>) returns (bs: seq<Bucket>)
    ensures bs == CategorizeAll(skills, es)
  {
    bs := [];
    for i := 0 to |skills|
      invariant bs == CategorizeAll(skills[..i], es)
    {
      var skill := skills[i];
      assert skills[..i + 1][..i] == skills[..i];
      var before := bs;
      for j := 0 to |es|
        invariant bs == AddMatches(before, skill, es[..j])
      {
        assert es[..j + 1][..j] == es[..j];
        if MatchesEntry(skill, es[j]) {
          bs := AddTo(bs, es[j].category, skill);
        }
      }
      assert es[..|es|] == es;
    }
    assert skills[..|skills|] == skills;
  }

  // -------------------------------------------------- complementary

  /** The related skills an entry contributes: none unless the candidate
      knows the entry's skill, and never one the candidate knows. */
  function EntryCandidates(lowered: seq<string>, e: TaxonomyEntry): seq<string> {
    if Lower(e.name) in lowered then Filter(e.related, Unknown(lowered)) else []
  }

  function Candidates(lowered: seq<string>, es: seq<TaxonomyEntry>): seq<string>
    decreases |es|
  {
    if es == [] then []
    else Candidates(lowered, es[..|es| - 1]) + EntryCandidates(lowered, es[|es| - 1])
  }

  lemma {:induction false} CandidatesMembers(lowered: seq<string>, es: seq<TaxonomyEntry>, x: string)
    ensures x in Candidates(lowered, es)
            <==> Lower(x) !in lowered && exists e :: e in es && Lower(e.name) in lowered && x in e.related
    decreases |es|
  {
    if es != [] {
      var pre := es[..|es| - 1];
      var e := es[|es| - 1];
      assert es == pre + [e];
      CandidatesMembers(lowered, pre, x);
      FilterMember(e.related, Unknown(lowered), x);
      assert forall f :: f in es <==> f in pre || f == e;
    }
  }

  /** The complementary skills, each once, in the order first added. The
      source collects them in a `set`, whose order is unspecified. */
  function ComplementaryOf(skills: seq<string>): seq<string> {
    Dedup(Candidates(Lowers(skills), Taxonomy))
  }

  /** A complementary skill is a related skill of a taxonomy entry the
      candidate knows, and is not itself known; every such skill is listed,
      once. */
  lemma ComplementaryMembers(skills: seq<string>, x: string)
    ensures x in ComplementaryOf(skills)
            <==> Lower(x) !in Lowers(skills)
                 && exists e :: e in Taxonomy && Lower(e.name) in Lowers(skills) && x in e.related
    ensures Distinct(ComplementaryOf(skills))
  {
    CandidatesMembers(Lowers(skills), Taxonomy, x);
  }

  /** `_find_complementary_skills`: adds to a set in a double loop. */
  method FindComplementary(skills: seq<string>, es: seq<TaxonomyEntry>) returns (r: seq<string>)
    ensures r == Dedup(Candidates(Lowers(skills), es))
  {
    var lowered := Lowers(skills);
    r := [];
    for i := 0 to |es|
      invariant r == Dedup(Candidates(lowered, es[..i]))
    {
      assert es[..i + 1][..i] == es[..i];
      var e := es[i];
      ghost var before := Candidates(lowered, es[..i]);
      if Lower(e.name) in lowered {
        r := AddRelated(r, before, e.related, lowered);
      } else {
        assert before + [] == before;
      }
    }
    assert es[..|es|] == es;
  }

  /** The inner loop: the related skills of one known entry added to the
      set collected so far. */
  method AddRelated(r0: seq<string>, ghost before: seq<string>, related: seq<string>, lowered: seq<string>)
    returns (r: seq<string>)
    requires r0 == Dedup(before)
    ensures r == Dedup(before + Filter(related, Unknown(lowered)))
  {
    r := r0;
    DedupFilterStart(before, related, Unknown(lowered));
    for j := 0 to |related|
      invariant r == Dedup(before + Filter(related[..j], Unknown(lowered)))
    {
      var x := related[j];
      DedupFilterStep(before, related, j, Unknown(lowered));
      if Lower(x) !in lowered && x !in r {
        r := r + [x];
      }
    }
    assert related[..|related|] == related;
  }

  // ----------------------------------------------------- career advice

  datatype CareerAdvice =
    | UnknownRole(targetRole: string)
    | KnownRole(currentRole: string, nextLevel: string, missingCore: seq<string>,
                missingRecommended: seq<string>, coreCompleteness: real,
                readyForPromotion: bool, estimatedYears: nat)

  function MissingCore(a: CareerAdvice): seq<string> {
    if a.KnownRole? then a.missingCore else []
  }

  function MissingRecommended(a: CareerAdvice): seq<string> {
    if a.KnownRole? then a.missingRecommended else []
  }

  /** `missing_skills`: the missing core skills, then the missing
      recommended ones; none for a role without a career path. */
  function MissingSkills(a: CareerAdvice): seq<string> {
    MissingCore(a) + MissingRecommended(a)
  }

  function HasRole(role: string): CareerPath -> bool {
    (p: CareerPath) => p.role == role
  }

  /** The career path of a role, if the table has one. */
  function PathFor(role: string): (r: Option<CareerPath>)
    ensures r.None? <==> forall k :: 0 <= k < |CareerPaths| ==> CareerPaths[k].role != role
    ensures r.Some? ==> r.value in CareerPaths && r.value.role == role
  {
    First(CareerPaths, HasRole(role))
  }

  lemma PathsHaveCore()
    ensures forall p :: p in CareerPaths ==> p.core != []
  {
  }

  /** The advice for a given role: what is missing from its path, each
      list in the path's order, and whether the candidate is ready for the
      next level. */
  function CareerAdviceFor(lowered: seq<string>, role: string, years: real): (r: CareerAdvice)
    ensures r.UnknownRole? <==> PathFor(role).None?
    ensures r.UnknownRole? ==> r.targetRole == role
    ensures r.KnownRole? ==> var p := PathFor(role).value;
              && r.currentRole == role && r.nextLevel == p.nextLevel && r.estimatedYears == p.typicalYears
              && (forall x :: x in r.missingCore <==> x in p.core && Lower(x) !in lowered)
              && (forall x :: x in r.missingRecommended <==> x in p.recommended && Lower(x) !in lowered)
              && r.coreCompleteness == 1.0 - (|r.missingCore| as real) / (|p.core| as real)
              && InUnit(r.coreCompleteness)
              && (r.coreCompleteness == 1.0 <==> r.missingCore == [])
              && (r.readyForPromotion <==> r.coreCompleteness >= 0.8 && years >= p.typicalYears as real)
  {
    match PathFor(role)
    case None => UnknownRole(role)
    case Some(p) =>
      PathsHaveCore();
      var core := Filter(p.core, Unknown(lowered));
      var recommended := Filter(p.recommended, Unknown(lowered));
      forall x ensures x in core <==> x in p.core && Lower(x) !in lowered {
        FilterMember(p.core, Unknown(lowered), x);
      }
      forall x ensures x in recommended <==> x in p.recommended && Lower(x) !in lowered {
        FilterMember(p.recommended, Unknown(lowered), x);
      }
      var ratio := Ratio(|core|, |p.core|);
      var completeness := 1.0 - ratio;
      KnownRole(role, p.nextLevel, core, recommended, completeness,
                completeness >= 0.8 && years >= p.typicalYears as real, p.typicalYears)
  }

  /** `_get_career_recommendations`: the target role, or when none is given
      the role inferred from the skills. */
  function CareerAdviceOf(skills: seq<string>, target: Option<string>, years: real): CareerAdvice {
    var role := if target.Some? && target.value != [] then target.value else InferRoleOf(skills);
    CareerAdviceFor(Lowers(skills), role, years)
  }

  // ------------------------------------------------------ trending

  /** The hot skills, then the emerging technologies, each without the
      known ones and in table order. */
  function TrendingOf(skills: seq<string>): seq<string> {
    var lowered := Lowers(skills);
    Filter(HotSkills, Unknown(lowered)) + Filter(EmergingTechnologies, Unknown(lowered))
  }

  /** The trending list is the unknown hot skills followed by the unknown
      emerging ones: each of them is listed and nothing else is. */
  lemma TrendingProperties(skills: seq<string>, x: string)
    ensures var r := TrendingOf(skills); var n := |Filter(HotSkills, Unknown(Lowers(skills)))|;
            && n <= |r|
            && (forall i :: 0 <= i < n ==> r[i] in HotSkills)
            && (forall i :: n <= i < |r| ==> r[i] in EmergingTechnologies)
            && (forall i :: 0 <= i < |r| ==> Lower(r[i]) !in Lowers(skills))
            && (x in r <==> (x in HotSkills || x in EmergingTechnologies) && Lower(x) !in Lowers(skills))
  {
    TwoFilters(HotSkills, EmergingTechnologies, Unknown(Lowers(skills)), x);
  }

  /** Two filtered lists one after the other. */
  lemma TwoFilters<T>(a: seq<T>, b: seq<T>, p: T -> bool, x: T)
    ensures var r := Filter(a, p) + Filter(b, p); var n := |Filter(a, p)|;
            && n <= |r|
            && (forall i :: 0 <= i < n ==> r[i] in a)
            && (forall i :: n <= i < |r| ==> r[i] in b)
            && (forall i :: 0 <= i < |r| ==> p(r[i]))
            && (x in r <==> (x in a || x in b) && p(x))
  {
    var fa := Filter(a, p);
    var fb := Filter(b, p);
    FilterMember(a, p, x);
    FilterMember(b, p, x);
    assert forall i :: |fa| <= i < |fa + fb| ==> (fa + fb)[i] == fb[i - |fa|];
  }

  // ------------------------------------------------------ priorities

  datatype Priority = Critical | High | Medium

  function Rank(p: Priority): nat {
    match p
    case Critical => 0
    case High => 1
    case Medium => 2
  }

  /** Why a skill is listed; it fixes the priority and the reason text. */
  datatype Origin = CareerEssential | CareerGrowth | MarketTrend | Complementary

  function PriorityOf(o: Origin): Priority {
    match o
    case CareerEssential => Critical
    case CareerGrowth => High
    case MarketTrend => Medium
    case Complementary => Medium
  }

  datatype NextSkill = NextSkill(skill: string, priority: Priority, category: Origin)

  predicate Listed(ns: seq<NextSkill>, x: string) {
    exists i :: 0 <= i < |ns| && ns[i].skill == x
  }

  /** One stage of `_prioritize_next_skills`: each candidate not known (and,
      for the later stages, not listed yet) is appended with the stage's
      origin. */
  function Stage(acc: seq<NextSkill>, cands: seq<string>, lowered: seq<string>, o: Origin, skipListed: bool): seq<NextSkill>
    decreases |cands|
  {
    if cands == [] then acc
    else
      var a := Stage(acc, cands[..|cands| - 1], lowered, o, skipListed);
      var x := cands[|cands| - 1];
      if Lower(x) !in lowered && (!skipListed || !Listed(a, x)) then a + [NextSkill(x, PriorityOf(o), o)] else a
  }

  /** `r` is `acc` followed by at most `n` entries, each of origin `o`,
      not known and, when `skipListed`, not listed before it. */
  predicate Extends(acc: seq<NextSkill>, r: seq<NextSkill>, n: nat, lowered: seq<string>, o: Origin, skipListed: bool) {
    && |acc| <= |r| <= |acc| + n
    && r[..|acc|] == acc
    && (forall i :: |acc| <= i < |r| ==> r[i].category == o && r[i].priority == PriorityOf(o))
    && (forall i :: |acc| <= i < |r| ==> Lower(r[i].skill) !in lowered)
    && (skipListed ==> forall i :: |acc| <= i < |r| ==> !Listed(r[..i], r[i].skill))
  }

  /** The entries after `acc` are drawn from `cands`. */
  predicate Drawn(acc: seq<NextSkill>, r: seq<NextSkill>, cands: seq<string>) {
    forall i :: |acc| <= i < |r| ==> r[i].skill in cands
  }

  /** A stage keeps what was listed and appends at most one entry per
      candidate, each one taken from the candidates. */
  lemma {:induction false} StageShape(acc: seq<NextSkill>, cands: seq<string>, lowered: seq<string>, o: Origin, skipListed: bool)
    ensures Extends(acc, Stage(acc, cands, lowered, o, skipListed), |cands|, lowered, o, skipListed)
    ensures Drawn(acc, Stage(acc, cands, lowered, o, skipListed), cands)
    decreases |cands|
  {
    if cands != [] {
      var pre := cands[..|cands| - 1];
      var x := cands[|cands| - 1];
      StageShape(acc, pre, lowered, o, skipListed);
      var a := Stage(acc, pre, lowered, o, skipListed);
      var r := Stage(acc, cands, lowered, o, skipListed);
      if Lower(x) !in lowered && (!skipListed || !Listed(a, x)) {
        var e := NextSkill(x, PriorityOf(o), o);
        ExtendsSnoc(acc, a, |pre|, lowered, o, skipListed, e);
        assert r == a + [e];
      } else {
        assert r == a;
      }
      forall i | |acc| <= i < |r| ensures r[i].skill in cands {
        if i < |a| {
          assert r[i] == a[i];
          assert a[i].skill in pre;
        } else {
          assert r[i].skill == x;
        }
      }
    }
  }

  lemma ExtendsSnoc(acc: seq<NextSkill>, a: seq<NextSkill>, n: nat, lowered: seq<string>, o: Origin, skipListed: bool, e: NextSkill)
    requires Extends(acc, a, n, lowered, o, skipListed)
    requires e.category == o && e.priority == PriorityOf(o) && Lower(e.skill) !in lowered
    requires skipListed ==> !Listed(a, e.skill)
    ensures Extends(acc, a + [e], n + 1, lowered, o, skipListed)
  {
    var r := a + [e];
    assert r[..|a|] == a;
    assert r[..|acc|] == a[..|acc|];
    assert forall i :: 0 <= i < |a| ==> r[i] == a[i] && r[..i] == a[..i];
  }

  /** The four stages, in order. */
  function PrioritiesOf(lowered: seq<string>, complementary: seq<string>, advice: CareerAdvice, trending: seq<string>): seq<NextSkill> {
    var s1 := Stage([], MissingCore(advice), lowered, CareerEssential, false);
    var s2 := Stage(s1, Take(MissingRecommended(advice), 5), lowered, CareerGrowth, false);
    var s3 := Stage(s2, Take(trending, 5), lowered, MarketTrend, true);
    Stage(s3, Take(complementary, 5), lowered, Complementary, true)
  }

  function CountOrigin(ns: seq<NextSkill>, o: Origin): nat {
    |Filter(ns, (n: NextSkill) => n.category == o)|
  }

  /** The properties of a prioritised list, stated once for the lemmas. */
  predicate WellPrioritised(r: seq<NextSkill>, lowered: seq<string>) {
    && (forall i, j :: 0 <= i < j < |r| ==> Rank(r[i].priority) <= Rank(r[j].priority))
    && (forall i :: 0 <= i < |r| ==> r[i].priority == PriorityOf(r[i].category))
    && (forall i :: 0 <= i < |r| ==> Lower(r[i].skill) !in lowered)
    && (forall i :: 0 <= i < |r| && r[i].priority == Medium ==> !Listed(r[..i], r[i].skill))
    && CountOrigin(r, CareerGrowth) <= 5
    && CountOrigin(r, MarketTrend) <= 5
    && CountOrigin(r, Complementary) <= 5
  }

  /** In the prioritised list the critical entries come first, then the
      high ones, then the medium ones; there are at most five entries of
      each later stage; no entry is a known skill; and a medium entry's
      skill was not listed before it. */
  lemma PrioritiesProperties(lowered: seq<string>, complementary: seq<string>, advice: CareerAdvice, trending: seq<string>)
    ensures WellPrioritised(PrioritiesOf(lowered, complementary, advice, trending), lowered)
  {
    var s1 := Stage([], MissingCore(advice), lowered, CareerEssential, false);
    var s2 := Stage(s1, Take(MissingRecommended(advice), 5), lowered, CareerGrowth, false);
    var s3 := Stage(s2, Take(trending, 5), lowered, MarketTrend, true);
    var r := Stage(s3, Take(complementary, 5), lowered, Complementary, true);
    StageShape([], MissingCore(advice), lowered, CareerEssential, false);
    StageShape(s1, Take(MissingRecommended(advice), 5), lowered, CareerGrowth, false);
    StageShape(s2, Take(trending, 5), lowered, MarketTrend, true);
    StageShape(s3, Take(complementary, 5), lowered, Complementary, true);
    FourStages(s1, s2, s3, r, lowered);
  }

  /** Four stages of at most five entries after the first, one after the
      other, make a well prioritised list. */
  lemma FourStages(s1: seq<NextSkill>, s2: seq<NextSkill>, s3: seq<NextSkill>, r: seq<NextSkill>, lowered: seq<string>)
    requires Extends([], s1, |s1|, lowered, CareerEssential, false)
    requires Extends(s1, s2, 5, lowered, CareerGrowth, false)
    requires Extends(s2, s3, 5, lowered, MarketTrend, true)
    requires Extends(s3, r, 5, lowered, Complementary, true)
    ensures WellPrioritised(r, lowered)
  {
    StagesAt(s1, s2, s3, r, lowered);
    forall i, j | 0 <= i < j < |r| ensures Rank(r[i].priority) <= Rank(r[j].priority) {
    }
    StagesListed(s3, r, lowered);
    var s4 := r[|s3|..];
    var t3 := s3[|s2|..];
    var t2 := s2[|s1|..];
    assert r == s3 + s4 && s3 == s2 + t3 && s2 == s1 + t2;
    OriginCount(s1, t2, t3, s4, CareerGrowth);
    OriginCount(s1, t2, t3, s4, MarketTrend);
    OriginCount(s1, t2, t3, s4, Complementary);
  }

  lemma PrefixAt<T>(a: seq<T>, b: seq<T>)
    requires |a| <= |b| && b[..|a|] == a
    ensures forall i :: 0 <= i < |a| ==> b[i] == a[i]
  {
    forall i | 0 <= i < |a| ensures b[i] == a[i] {
      assert b[..|a|][i] == b[i];
    }
  }

  /** The entry at each position of the four stages: critical in the
      first, high in the second, medium after. */
  lemma StagesAt(s1: seq<NextSkill>, s2: seq<NextSkill>, s3: seq<NextSkill>, r: seq<NextSkill>, lowered: seq<string>)
    requires Extends([], s1, |s1|, lowered, CareerEssential, false)
    requires Extends(s1, s2, 5, lowered, CareerGrowth, false)
    requires Extends(s2, s3, 5, lowered, MarketTrend, true)
    requires Extends(s3, r, 5, lowered, Complementary, true)
    ensures |s1| <= |s2| <= |s3| <= |r|
    ensures forall i :: 0 <= i < |s3| ==> s3[i] == r[i]
    ensures forall i :: 0 <= i < |r| ==>
              && r[i].priority == (if i < |s1| then Critical else if i < |s2| then High else Medium)
              && r[i].priority == PriorityOf(r[i].category)
              && Lower(r[i].skill) !in lowered
  {
    PrefixAt(s3, r);
    PrefixAt(s2, s3);
    PrefixAt(s1, s2);
  }

  /** A medium entry of the last two stages was not listed before it. */
  lemma StagesListed(s3: seq<NextSkill>, r: seq<NextSkill>, lowered: seq<string>)
    requires Extends(s3, r, 5, lowered, Complementary, true)
    requires forall i :: 0 <= i < |s3| && s3[i].priority == Medium ==> !Listed(s3[..i], s3[i].skill)
    ensures forall i :: 0 <= i < |r| && r[i].priority == Medium ==> !Listed(r[..i], r[i].skill)
  {
    PrefixAt(s3, r);
    forall i | 0 <= i < |s3| ensures r[..i] == s3[..i] {
      assert r[..|s3|][..i] == r[..i];
    }
  }

  /** The count of one origin over the four stages, each of which holds
      entries of its own origin only. */
  lemma OriginCount(s1: seq<NextSkill>, t2: seq<NextSkill>, t3: seq<NextSkill>, s4: seq<NextSkill>, o: Origin)
    requires forall i :: 0 <= i < |s1| ==> s1[i].category == CareerEssential
    requires forall i :: 0 <= i < |t2| ==> t2[i].category == CareerGrowth
    requires forall i :: 0 <= i < |t3| ==> t3[i].category == MarketTrend
    requires forall i :: 0 <= i < |s4| ==> s4[i].category == Complementary
    requires |t2| <= 5 && |t3| <= 5 && |s4| <= 5
    requires o != CareerEssential
    ensures CountOrigin(s1 + t2 + t3 + s4, o) <= 5
  {
    var p := (n: NextSkill) => n.category == o;
    FilterAppend(s1 + t2 + t3, s4, p);
    FilterAppend(s1 + t2, t3, p);
    FilterAppend(s1, t2, p);
    FilterNone(s1, p);
    if o == CareerGrowth {
      FilterNone(t3, p);
      FilterNone(s4, p);
    } else if o == MarketTrend {
      FilterNone(t2, p);
      FilterNone(s4, p);
    } else {
      FilterNone(t2, p);
      FilterNone(t3, p);
    }
  }

  /** One stage's loop. */
  method AppendStage(acc: seq<NextSkill>, cands: seq<string>, lowered: seq<string>, o: Origin, skipListed: bool)
    returns (r: seq<NextSkill>)
    ensures r == Stage(acc, cands, lowered, o, skipListed)
  {
    r := acc;
    for k := 0 to |cands|
      invariant r == Stage(acc, cands[..k], lowered, o, skipListed)
    {
      var x := cands[k];
      assert cands[..k + 1][..k] == cands[..k];
      if Lower(x) !in lowered && (!skipListed || !Listed(r, x)) {
        r := r + [NextSkill(x, PriorityOf(o), o)];
      }
    }
    assert cands[..|cands|] == cands;
  }

  /** `_prioritize_next_skills`. */
  method PrioritizeNextSkills(skills: seq<string>, complementary: seq<string>, advice: CareerAdvice, trending: seq<string>)
    returns (r: seq<NextSkill>)
    ensures r == PrioritiesOf(Lowers(skills), complementary, advice, trending)
  {
    var lowered := Lowers(skills);
    r := AppendStage([], MissingCore(advice), lowered, CareerEssential, false);
    r := AppendStage(r, Take(MissingRecommended(advice), 5), lowered, CareerGrowth, false);
    r := AppendStage(r, Take(trending, 5), lowered, MarketTrend, true);
    r := AppendStage(r, Take(complementary, 5), lowered, Complementary, true);
  }

  // --------------------------------------------------- learning path

  /** A phase of the learning path; its title, focus and duration are
      fixed texts of its number. */
  datatype Phase = Phase(number: nat, skills: seq<string>)

  function Names(ns: seq<NextSkill>): (r: seq<string>)
    ensures |r| == |ns|
  {
    Map(ns, (n: NextSkill) => n.skill)
  }

  function WithPriority(p: Priority): NextSkill -> bool {
    (n: NextSkill) => n.priority == p
  }

  /** The phase of one priority: present only when it has skills, the
      later phases cut to five. */
  function PhaseOf(number: nat, f: seq<NextSkill>, cut: bool): seq<Phase> {
    if f == [] then [] else [Phase(number, Names(if cut then Take(f, 5) else f))]
  }

  /** Phase 1 holds every critical skill, phase 2 the first five high ones
      and phase 3 the first five medium ones; a phase is there only when it
      has skills. */
  function LearningPathOf(next: seq<NextSkill>): seq<Phase> {
    PhaseOf(1, Filter(next, WithPriority(Critical)), false)
    + PhaseOf(2, Filter(next, WithPriority(High)), true)
    + PhaseOf(3, Filter(next, WithPriority(Medium)), true)
  }

  /** A phase lists the skills of its entries, at most five when cut. */
  lemma PhaseOfProperties(number: nat, f: seq<NextSkill>, cut: bool, x: string)
    ensures var r := PhaseOf(number, f, cut);
            && (r != [] <==> f != [])
            && |r| <= 1
            && (r != [] ==> r[0].number == number && r[0].skills != [] && (cut ==> |r[0].skills| <= 5))
            && (r != [] && x in r[0].skills ==> exists i :: 0 <= i < |f| && f[i].skill == x)
  {
    if f != [] && x in PhaseOf(number, f, cut)[0].skills {
      var kept := if cut then Take(f, 5) else f;
      var m :| 0 <= m < |kept| && Names(kept)[m] == x;
      assert f[m] == kept[m];
    }
  }

  /** Filtering by a priority leaves nothing exactly when no entry has it,
      and keeps entries of that priority only. */
  lemma WithPriorityFilter(next: seq<NextSkill>, p: Priority, x: string)
    ensures Filter(next, WithPriority(p)) == [] <==> forall i :: 0 <= i < |next| ==> next[i].priority != p
    ensures var f := Filter(next, WithPriority(p));
            (exists i :: 0 <= i < |f| && f[i].skill == x)
            ==> exists i :: 0 <= i < |next| && next[i].skill == x && next[i].priority == p
  {
    var f := Filter(next, WithPriority(p));
    if f == [] {
      forall i | 0 <= i < |next| ensures next[i].priority != p {
        FilterMember(next, WithPriority(p), next[i]);
      }
    }
    if exists i :: 0 <= i < |f| && f[i].skill == x {
      var i :| 0 <= i < |f| && f[i].skill == x;
      assert f[i] in next;
      var k :| 0 <= k < |next| && next[k] == f[i];
    }
  }

  /** The learning path has at most three phases, numbered 1 to 3 in
      increasing order, none empty, the second and third of at most five
      skills. */
  lemma LearningPathShape(next: seq<NextSkill>)
    ensures var r := LearningPathOf(next);
            && |r| <= 3
            && (forall i, j :: 0 <= i < j < |r| ==> r[i].number < r[j].number)
            && (forall k :: 0 <= k < |r| ==> 1 <= r[k].number <= 3 && r[k].skills != [])
            && (forall k :: 0 <= k < |r| && r[k].number > 1 ==> |r[k].skills| <= 5)
  {
    var a := PhaseOf(1, Filter(next, WithPriority(Critical)), false);
    var b := PhaseOf(2, Filter(next, WithPriority(High)), true);
    var c := PhaseOf(3, Filter(next, WithPriority(Medium)), true);
    PhaseOfProperties(1, Filter(next, WithPriority(Critical)), false, "");
    PhaseOfProperties(2, Filter(next, WithPriority(High)), true, "");
    PhaseOfProperties(3, Filter(next, WithPriority(Medium)), true, "");
    PathShape(a, b, c);
    assert LearningPathOf(next) == a + b + c;
  }

  /** Three optional phases numbered 1, 2 and 3, none empty, the last two
      of at most five skills, make a path of that shape. */
  lemma PathShape(a: seq<Phase>, b: seq<Phase>, c: seq<Phase>)
    requires |a| <= 1 && |b| <= 1 && |c| <= 1
    requires a != [] ==> a[0].number == 1 && a[0].skills != []
    requires b != [] ==> b[0].number == 2 && b[0].skills != [] && |b[0].skills| <= 5
    requires c != [] ==> c[0].number == 3 && c[0].skills != [] && |c[0].skills| <= 5
    ensures var r := a + b + c;
            && |r| <= 3
            && (forall i, j :: 0 <= i < j < |r| ==> r[i].number < r[j].number)
            && (forall k :: 0 <= k < |r| ==> 1 <= r[k].number <= 3 && r[k].skills != [])
            && (forall k :: 0 <= k < |r| && r[k].number > 1 ==> |r[k].skills| <= 5)
  {
    PathPieces(a, b, c);
  }

  /** The phase of a priority is present exactly when some listed skill
      has that priority, and lists only skills of that priority. */
  lemma LearningPathPhase(next: seq<NextSkill>, p: Priority, x: string)
    ensures var r := LearningPathOf(next);
            && ((exists k :: 0 <= k < |r| && r[k].number == Rank(p) + 1)
                <==> exists i :: 0 <= i < |next| && next[i].priority == p)
            && (forall k :: 0 <= k < |r| && r[k].number == Rank(p) + 1 && x in r[k].skills
                  ==> exists i :: 0 <= i < |next| && next[i].skill == x && next[i].priority == p)
  {
    PhaseInPath(next, p);
    PhaseOfProperties(Rank(p) + 1, Filter(next, WithPriority(p)), p != Critical, x);
    WithPriorityFilter(next, p, x);
  }

  /** The phase numbered after a priority is, in the learning path, the
      phase built from that priority's skills. */
  lemma PhaseInPath(next: seq<NextSkill>, p: Priority)
    ensures var r := LearningPathOf(next);
            var mine := PhaseOf(Rank(p) + 1, Filter(next, WithPriority(p)), p != Critical);
            && ((exists k :: 0 <= k < |r| && r[k].number == Rank(p) + 1) <==> mine != [])
            && (forall k :: 0 <= k < |r| && r[k].number == Rank(p) + 1 ==> r[k] == mine[0])
  {
    var mine := PhaseOf(Rank(p) + 1, Filter(next, WithPriority(p)), p != Critical);
    var a := PhaseOf(1, Filter(next, WithPriority(Critical)), false);
    var b := PhaseOf(2, Filter(next, WithPriority(High)), true);
    var c := PhaseOf(3, Filter(next, WithPriority(Medium)), true);
    PhaseOfProperties(1, Filter(next, WithPriority(Critical)), false, "");
    PhaseOfProperties(2, Filter(next, WithPriority(High)), true, "");
    PhaseOfProperties(3, Filter(next, WithPriority(Medium)), true, "");
    assert mine == if p == Critical then a else if p == High then b else c;
    assert LearningPathOf(next) == a + b + c;
    PathFind(a, b, c, Rank(p) + 1, mine);
  }

  /** Three optional phases numbered 1, 2 and 3, one after the other. */
  lemma PathPieces(a: seq<Phase>, b: seq<Phase>, c: seq<Phase>)
    requires |a| <= 1 && |b| <= 1 && |c| <= 1
    requires a != [] ==> a[0].number == 1
    requires b != [] ==> b[0].number == 2
    requires c != [] ==> c[0].number == 3
    ensures var r := a + b + c;
            && |r| <= 3
            && (forall i, j :: 0 <= i < j < |r| ==> r[i].number < r[j].number)
            && (forall k :: 0 <= k < |r| ==> (r[k] in a && r[k].number == 1) || (r[k] in b && r[k].number == 2) || (r[k] in c && r[k].number == 3))
  {
    var r := a + b + c;
    if a != [] { assert r[0] == a[0]; }
    if b != [] { assert r[|a|] == b[0]; }
    if c != [] { assert r[|a| + |b|] == c[0]; }
  }

  /** The phase numbered `n` of three optional phases is the one of that
      number. */
  lemma PathFind(a: seq<Phase>, b: seq<Phase>, c: seq<Phase>, n: nat, mine: seq<Phase>)
    requires |a| <= 1 && |b| <= 1 && |c| <= 1
    requires a != [] ==> a[0].number == 1
    requires b != [] ==> b[0].number == 2
    requires c != [] ==> c[0].number == 3
    requires 1 <= n <= 3 && mine == (if n == 1 then a else if n == 2 then b else c)
    ensures var r := a + b + c;
            && ((exists k :: 0 <= k < |r| && r[k].number == n) <==> mine != [])
            && (forall k :: 0 <= k < |r| && r[k].number == n ==> r[k] == mine[0])
  {
    var r := a + b + c;
    PathPieces(a, b, c);
    if mine != [] {
      if n == 1 { assert r[0] == a[0]; }
      if n == 2 { assert r[|a|] == b[0]; }
      if n == 3 { assert r[|a| + |b|] == c[0]; }
    }
  }

  // -------------------------------------------------- market insights

  datatype Insights = Insights(demandLevel: string, salaryTrend: string, jobOpportunities: string, competitiveness: string)

  /** How many of the candidate's skills (with repeats) are hot skills. */
  function HotCount(skills: seq<string>): (n: nat)
    ensures n <= |skills|
  {
    |Filter(skills, (s: string) => Lower(s) in Lowers(HotSkills))|
  }

  function DemandFor(role: string): (r: Option<string>)
    ensures r.None? <==> forall k :: 0 <= k < |IndustryDemand| ==> IndustryDemand[k].0 != role
  {
    match First(IndustryDemand, (d: (string, string)) => d.0 == role)
    case None => None
    case Some(d) => Some(d.1)
  }

  /** The market insights: the role's demand when the table lists it; high
      competitiveness and excellent opportunities from five hot skills, good
      ones from three, moderate otherwise; a stable salary trend. */
  function InsightsOf(skills: seq<string>, target: Option<string>): (r: Insights)
    ensures r.salaryTrend == "stable"
    ensures r.competitiveness == "high" <==> HotCount(skills) >= 5
    ensures r.jobOpportunities == "excellent" <==> HotCount(skills) >= 5
    ensures r.competitiveness == "good" <==> 3 <= HotCount(skills) < 5
    ensures r.jobOpportunities == "good" <==> 3 <= HotCount(skills) < 5
    ensures r.competitiveness == "moderate" <==> HotCount(skills) < 3
    ensures r.demandLevel != "moderate" ==> target.Some? && DemandFor(target.value).Some?
    ensures target.Some? && target.value != [] && DemandFor(target.value).Some? ==>
              r.demandLevel == DemandFor(target.value).value
    ensures !(target.Some? && target.value != [] && DemandFor(target.value).Some?) ==> r.demandLevel == "moderate"
  {
    var demand := if target.Some? && target.value != [] && DemandFor(target.value).Some?
                  then DemandFor(target.value).value else "moderate";
    var n := HotCount(skills);
    if n >= 5 then Insights(demand, "stable", "excellent", "high")
    else if n >= 3 then Insights(demand, "stable", "good", "good")
    else Insights(demand, "stable", "moderate", "moderate")
  }

  // ------------------------------------------------------ role inference

  /** `sum(1 for ind in indicators if ind in skills_lower)`. */
  function Hits(lowered: seq<string>, inds: seq<string>): (n: nat)
    ensures n <= |inds|
    decreases |inds|
  {
    if inds == [] then 0
    else Hits(lowered, inds[..|inds| - 1]) + (if inds[|inds| - 1] in lowered then 1 else 0)
  }

  /** The best role among `roles` and its count, starting from the default
      role with count zero; a later role replaces it only with a strictly
      greater count. */
  function BestFrom(lowered: seq<string>, roles: seq<(string, seq<string>)>): (b: (string, nat))
    decreases |roles|
  {
    if roles == [] then (DefaultRole, 0)
    else
      var b := BestFrom(lowered, roles[..|roles| - 1]);
      var r := roles[|roles| - 1];
      var c := Hits(lowered, r.1);
      if c > b.1 then (r.0, c) else b
  }

  /** The inferred role has the greatest count; on a tie the earliest
      role wins; with no indicator at all it is the default role. */
  lemma {:induction false} BestFromProperties(lowered: seq<string>, roles: seq<(string, seq<string>)>)
    ensures var b := BestFrom(lowered, roles);
            && (forall k :: 0 <= k < |roles| ==> Hits(lowered, roles[k].1) <= b.1)
            && (b.1 == 0 ==> b.0 == DefaultRole)
            && (b.1 > 0 ==> exists k :: 0 <= k < |roles| && roles[k].0 == b.0 && Hits(lowered, roles[k].1) == b.1
                              && forall j :: 0 <= j < k ==> Hits(lowered, roles[j].1) < b.1)
    decreases |roles|
  {
    if roles != [] {
      var pre := roles[..|roles| - 1];
      BestFromProperties(lowered, pre);
      var b := BestFrom(lowered, pre);
      var r := roles[|roles| - 1];
      assert forall k :: 0 <= k < |pre| ==> roles[k] == pre[k];
      if Hits(lowered, r.1) > b.1 {
        assert roles[|roles| - 1] == r;
      } else if b.1 > 0 {
        var k :| 0 <= k < |pre| && pre[k].0 == b.0 && Hits(lowered, pre[k].1) == b.1
                 && forall j :: 0 <= j < k ==> Hits(lowered, pre[j].1) < b.1;
        assert roles[k] == pre[k];
      }
    }
  }

  function InferRoleOf(skills: seq<string>): string {
    BestFrom(Lowers(skills), RoleIndicators).0
  }

  /** `_infer_role`: the loop that keeps the best match so far. */
  method InferRole(skills: seq<string>) returns (role: string)
    ensures role == InferRoleOf(skills)
  {
    var lowered := Lowers(skills);
    var best := BestRole(lowered, RoleIndicators);
    role := best.0;
  }

  method BestRole(lowered: seq<string>, roles: seq<(string, seq<string>)>) returns (best: (string, nat))
    ensures best == BestFrom(lowered, roles)
  {
    best := (DefaultRole, 0);
    for i := 0 to |roles|
      invariant best == BestFrom(lowered, roles[..i])
    {
      assert roles[..i + 1][..i] == roles[..i];
      var c := Hits(lowered, roles[i].1);
      if c > best.1 {
        best := (roles[i].0, c);
      }
    }
    assert roles[..|roles|] == roles;
  }

  // ------------------------------------------------- recommendations

  datatype Recommendations = Recommendations(
    currentProfile: Profile,
    skillGaps: seq<string>,
    nextSkillsToLearn: seq<NextSkill>,
    complementarySkills: seq<string>,
    trendingSkills: seq<string>,
    careerPath: CareerAdvice,
    learningPath: seq<Phase>,
    marketInsights: Insights)

  /** `generate_recommendations`. The learning path is built from the whole
      prioritised list; only the reported list is cut to ten. */
  function RecommendationsOf(skills: seq<string>, target: Option<string>, years: real): Recommendations {
    var complementary := ComplementaryOf(skills);
    var advice := CareerAdviceOf(skills, target, years);
    var trending := TrendingOf(skills);
    var next := PrioritiesOf(Lowers(skills), complementary, advice, trending);
    Recommendations(ProfileOf(skills), MissingSkills(advice), Take(next, 10), Take(complementary, 15),
                    Take(trending, 10), advice, LearningPathOf(next), InsightsOf(skills, target))
  }

  method GenerateRecommendations(skills: seq<string>, target: Option<string>, years: real)
    returns (r: Recommendations)
    ensures r == RecommendationsOf(skills, target, years)
  {
    var profile := AnalyzeSkillProfile(skills);
    var complementary := FindComplementary(skills, Taxonomy);
    var role: string;
    if target.Some? && target.value != [] {
      role := target.value;
    } else {
      role := InferRole(skills);
    }
    var advice := CareerAdviceFor(Lowers(skills), role, years);
    var trending := TrendingOf(skills);
    var next := PrioritizeNextSkills(skills, complementary, advice, trending);
    r := Recommendations(profile, MissingSkills(advice), Take(next, 10), Take(complementary, 15),
                         Take(trending, 10), advice, LearningPathOf(next), InsightsOf(skills, target));
  }

  /** The list reported is cut to ten entries and keeps the order. */
  lemma ReportedPrefix(skills: seq<string>, target: Option<string>, years: real)
    ensures var r := RecommendationsOf(skills, target, years);
            && |r.nextSkillsToLearn| <= 10 && |r.complementarySkills| <= 15 && |r.trendingSkills| <= 10
            && r.skillGaps == MissingCore(r.careerPath) + MissingRecommended(r.careerPath)
            && (r.careerPath.UnknownRole? ==> r.skillGaps == [])
  {
  }

  // ------------------------------------------------------------ demo

  const DemoSkills: seq<string> := ["Python", "JavaScript", "React", "SQL", "Git"]

  /** Two strings of different length, or whose first letters differ
      ignoring case, differ ignoring case. */
  lemma LowerDiffers(a: string, b: string)
    requires |a| != |b| || (a != [] && b != [] && LowerChar(a[0]) != LowerChar(b[0]))
    ensures Lower(a) != Lower(b)
  {
    if |a| == |b| {
      assert Lower(a)[0] != Lower(b)[0];
    }
  }

  /** The demonstration input (five skills, aiming at Senior Software
      Engineer with three years) knows none of that role's core skills:
      all five are missing, completeness is zero and the candidate is not
      ready for promotion. */
  lemma DemoAdvice()
    ensures var a := CareerAdviceFor(Lowers(DemoSkills), "Senior Software Engineer", 3.0);
            && a.KnownRole?
            && a.missingCore == ["System Design", "Architecture", "Mentoring", "Docker", "Kubernetes"]
            && a.coreCompleteness == 0.0
            && !a.readyForPromotion
  {
    var lowered := Lowers(DemoSkills);
    var core := CareerPaths[1].core;
    assert PathFor("Senior Software Engineer") == Some(CareerPaths[1]) by {
      assert CareerPaths[1].role == "Senior Software Engineer";
      assert CareerPaths[0].role != "Senior Software Engineer";
      FirstFromUnique(CareerPaths, 0, HasRole("Senior Software Engineer"), 1);
    }
    forall i | 0 <= i < |core| ensures Lower(core[i]) !in lowered {
      forall j | 0 <= j < |DemoSkills| ensures Lower(core[i]) != lowered[j] {
        LowerDiffers(core[i], DemoSkills[j]);
      }
    }
    NoCoreKnown(lowered, "Senior Software Engineer", 3.0);
  }

  /** A candidate who knows none of a known role's core skills misses all
      of them, in table order, has a completeness of zero and is not ready
      for promotion. */
  lemma NoCoreKnown(lowered: seq<string>, role: string, years: real)
    requires PathFor(role).Some?
    requires var core := PathFor(role).value.core;
             forall i :: 0 <= i < |core| ==> Lower(core[i]) !in lowered
    ensures var a := CareerAdviceFor(lowered, role, years);
            && a.KnownRole?
            && a.missingCore == PathFor(role).value.core
            && a.coreCompleteness == 0.0
            && !a.readyForPromotion
  {
    var core := PathFor(role).value.core;
    forall i | 0 <= i < |core| ensures Unknown(lowered)(core[i]) {
    }
    FilterAll(core, Unknown(lowered));
    PathsHaveCore();
  }

  /** When a missing core skill is not known, the prioritised list starts
      with a critical entry and the learning path is not empty. */
  lemma CriticalFirst(lowered: seq<string>, advice: CareerAdvice, complementary: seq<string>, trending: seq<string>)
    requires MissingCore(advice) != [] && Lower(MissingCore(advice)[0]) !in lowered
    ensures var next := PrioritiesOf(lowered, complementary, advice, trending);
            next != [] && next[0].priority == Critical && LearningPathOf(next) != []
  {
    var s1 := Stage([], MissingCore(advice), lowered, CareerEssential, false);
    var s2 := Stage(s1, Take(MissingRecommended(advice), 5), lowered, CareerGrowth, false);
    var s3 := Stage(s2, Take(trending, 5), lowered, MarketTrend, true);
    var next := Stage(s3, Take(complementary, 5), lowered, Complementary, true);
    StageNonEmpty(MissingCore(advice), lowered, CareerEssential);
    StageShape([], MissingCore(advice), lowered, CareerEssential, false);
    StageShape(s1, Take(MissingRecommended(advice), 5), lowered, CareerGrowth, false);
    StageShape(s2, Take(trending, 5), lowered, MarketTrend, true);
    StageShape(s3, Take(complementary, 5), lowered, Complementary, true);
    assert next[0] == s1[0] by {
      PrefixAt(s1, s2);
      PrefixAt(s2, s3);
      PrefixAt(s3, next);
    }
    LearningPathPhase(next, Critical, "");
  }

  /** A first stage with an unknown first candidate is not empty. */
  lemma {:induction false} StageNonEmpty(cands: seq<string>, lowered: seq<string>, o: Origin)
    requires cands != [] && Lower(cands[0]) !in lowered
    ensures Stage([], cands, lowered, o, false) != []
    decreases |cands|
  {
    var pre := cands[..|cands| - 1];
    if pre != [] {
      assert pre[0] == cands[0];
      StageNonEmpty(pre, lowered, o);
      StageShape([], pre, lowered, o, false);
    }
  }

  /** For the demonstration input the prioritised list and the learning
      path are not empty, whatever the complementary and trending skills:
      the missing core skills are listed first, as critical. */
  lemma DemoPlan(complementary: seq<string>, trending: seq<string>)
    ensures var a := CareerAdviceFor(Lowers(DemoSkills), "Senior Software Engineer", 3.0);
            var next := PrioritiesOf(Lowers(DemoSkills), complementary, a, trending);
            next != [] && next[0].priority == Critical && LearningPathOf(next) != []
  {
    DemoAdvice();
    var a := CareerAdviceFor(Lowers(DemoSkills), "Senior Software Engineer", 3.0);
    assert MissingCore(a)[0] in a.missingCore;
    CriticalFirst(Lowers(DemoSkills), a, complementary, trending);
  }

  /** `generate_recommendations` on the demonstration input: the
      candidate is not ready for promotion, and the list of skills to learn
      and the learning path are not empty. */
  lemma DemoRecommendations()
    ensures var r := RecommendationsOf(DemoSkills, Some("Senior Software Engineer"), 3.0);
            r.nextSkillsToLearn != [] && r.learningPath != [] && r.careerPath.KnownRole?
            && !r.careerPath.readyForPromotion && r.careerPath.coreCompleteness == 0.0
  {
    DemoAdvice();
    UnpreparedRecommendations(DemoSkills, Some("Senior Software Engineer"), 3.0);
  }

  /** A candidate aiming at a known role whose first core skill they do not
      know gets a non-empty list of skills to learn, led by a critical one,
      and a non-empty learning path. */
  lemma UnpreparedRecommendations(skills: seq<string>, target: Option<string>, years: real)
    requires var a := CareerAdviceOf(skills, target, years);
             a.KnownRole? && a.missingCore != [] && Lower(a.missingCore[0]) !in Lowers(skills)
    ensures var r := RecommendationsOf(skills, target, years);
            && r.careerPath == CareerAdviceOf(skills, target, years)
            && r.nextSkillsToLearn != [] && r.nextSkillsToLearn[0].priority == Critical
            && r.learningPath != []
  {
    var a := CareerAdviceOf(skills, target, years);
    var complementary, trending := ComplementaryOf(skills), TrendingOf(skills);
    RecommendationsParts(skills, target, years, a, complementary, trending);
    CriticalFirst(Lowers(skills), a, complementary, trending);
  }

  /** The reported list, the advice and the learning path of the
      recommendations, in terms of the advice and the complementary and
      trending skills they are built from. */
  lemma RecommendationsParts(skills: seq<string>, target: Option<string>, years: real,
                             a: CareerAdvice, complementary: seq<string>, trending: seq<string>)
    requires a == CareerAdviceOf(skills, target, years)
    requires complementary == ComplementaryOf(skills) && trending == TrendingOf(skills)
    ensures var r := RecommendationsOf(skills, target, years);
            var next := PrioritiesOf(Lowers(skills), complementary, a, trending);
            r.careerPath == a && r.nextSkillsToLearn == Take(next, 10) && r.learningPath == LearningPathOf(next)
  {
  }
}
