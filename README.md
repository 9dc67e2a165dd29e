# AI resume screener: a verified model of its scoring and bookkeeping core

This project models, in Dafny, the deterministic core of an AI-assisted
resume screening system and proves what its scores, partitions, orderings
and state changes guarantee. The system parses resumes, scores them against
job postings, checks them for applicant-tracking-system (ATS) compatibility,
recommends skills to learn, and keeps registries, caches and monitors in
memory. The model covers these parts:

- **Match scorer** (`SemanticMatcher`). Five sub-scores: semantic similarity,
  skills, experience, education and keywords. They are combined with fixed
  weights and mapped to match levels. The module also lists skill gaps and
  ranks several postings.
- **Skill recommender** (`SkillRecommender`). The skill profile,
  complementary skills, career-path advice with promotion readiness,
  trending skills, a prioritised list of skills to learn, a learning path,
  market insights and role inference.
- **ATS optimiser** (`AtsOptimizer`). Four deduction-scored categories, their
  weighted overall score, the grade, pass rate, critical issues and
  recommendations. It also covers text suggestions, automatic clean-up of
  white space and bullets, and section extraction.
- **Resume parser** (`ResumeParser`). Contact details, skills from a fixed
  table, experience and education entries, the summary and the years of
  experience.
- **Backend helpers.**
  - `ScreeningApi`: skills, skill gap, ATS score and fit banding of the
    first API.
  - `HiringApi`: anonymisation, claimed experience, education keywords and
    skill extraction of the second API.
  - `CandidateProfile`: the profile-completion percentage.
- **Stateful components.**
  - `Performance`: a cache with expiry, a sliding-window rate limiter, a
    timing monitor, a query batcher and a connection pool.
  - `ModelPipeline`: the model registry with latest and production markers,
    promotion and retention cleanup; the retraining decision and training
    history; the prediction monitor with recent accuracy and drift.

Where the source works step by step, the model is imperative:

- every analysis that starts from 100 and deducts is a method with loops;
- a loop that collects, counts or scans is a method;
- every object that changes its fields is a class with `modifies` clauses.

Each method is proved against a specification function. Lemmas then prove
the promised properties about those functions.

Some modules are shared:

- `Text` models Python's string operations on ASCII.
- `Regex` names the patterns. An `Engine` supplied by the caller evaluates
  the ones that only recognise shapes. Word boundaries, digit runs and
  single character classes are concrete.
- `Sorting` is a stable sort with its order and permutation proved.
- `Seqs` and `Sets` hold list and set facts.
- `Ratios` holds bounds on fractions.
- `Dates` holds the year arithmetic that the matcher and the parser share.
- `ResumeData` is the structured resume.
- `Wrappers` holds `Option` and `Result`.

Inputs that come from outside the code become parameters:

- The clock is a `now` or `currentYear` parameter.
- The sentence-embedding similarity is a function parameter.
- Language-model output (named entities, lemmas) is an input list.
- The base fit score is a parameter.

Scores are exact reals. The source rounds some scores before it compares or sorts them; the model does not, and "## Left out" lists where that changes a decision.

## Model

| member | source | states |
|---|---|---|
| SemanticMatcher.WeightsSumToOne | ml/semantic_matcher.py:19-25 | the five criterion weights add up to one |
| SemanticMatcher.Overall | ml/semantic_matcher.py:46-50 | the weighted overall score lies between the smallest and the largest sub-score, so it is in [0, 1] when they are |
| SemanticMatcher.SemanticSimilarity | ml/semantic_matcher.py:64-91 | zero when the resume text or the job text is blank, otherwise the embedding similarity clamped to [0, 1]; always in [0, 1] |
| SemanticMatcher.Coverage | ml/semantic_matcher.py:114-123 | the share of the wanted skills the resume has is in [0, 1] and is 1 exactly when every wanted skill is had |
| SemanticMatcher.CoverageCard | ml/semantic_matcher.py:116-117 | the matched skills are no more than the wanted ones, and as many exactly when the wanted skills are all had |
| SemanticMatcher.SkillsMatch | ml/semantic_matcher.py:93-133 | 0.5 with no skills asked for; 0.7 of the required coverage plus 0.3 of the preferred one when both are given; the one coverage otherwise; in [0, 1]; 1 exactly when every asked skill is had |
| SemanticMatcher.FullSkillsIffNoGaps | ml/semantic_matcher.py:227-253 | when some skill is asked for, the skills score is full exactly when the gap report counts no gap |
| SemanticMatcher.CalculateTotalYears | ml/semantic_matcher.py:255-276 | the loop sums, over the entries with both dates, the non-negative span from the first four-digit year of the start to that of the end (or the current year for "present") |
| SemanticMatcher.ExperienceScore | ml/semantic_matcher.py:144-159 | 0.5 without a requirement; 1 within two years above it; decreasing by 0.05 a year beyond that but never below 0.8; the fraction met (less than 1) below it; always in [0, 1] |
| SemanticMatcher.ExperienceMatch | ml/semantic_matcher.py:135-159 | the experience score of the resume's total years is in [0, 1] |
| SemanticMatcher.ExperienceScoreMonotoneBelow | ml/semantic_matcher.py:147-159 | more experience never lowers the score until the requirement is exceeded by more than two years |
| SemanticMatcher.FirstLevel | ml/semantic_matcher.py:178-183 | the required level is that of the first table keyword, in table order, that the requirement contains, and 0 when it contains none |
| SemanticMatcher.FirstLevelExample | ml/semantic_matcher.py:170-183 | a requirement "bachelor or mba" asks for level 4, because the table lists "mba" before "bachelor" |
| SemanticMatcher.BestLevel | ml/semantic_matcher.py:185-191 | the candidate level is at least the level of every keyword a degree contains, and is the level of one of them (or 0) |
| SemanticMatcher.LevelScore | ml/semantic_matcher.py:193-201 | 0.5 without a required level; 1 exactly when the candidate reaches it; 0.7 exactly one level below; 0.3 otherwise |
| SemanticMatcher.EducationMatch | ml/semantic_matcher.py:161-201 | the corrected education score: one of 0.3, 0.5, 0.7, 1, and 0.5 when no requirement or no known level is asked for |
| SemanticMatcher.EducationMatchAsWritten | ml/semantic_matcher.py:186-191 | the score as written fails exactly when a requirement is given and some education entry has no degree; otherwise it equals the corrected score |
| SemanticMatcher.EducationCrashExample | ml/semantic_matcher.py:188 | a resume with one degree-less entry against a "Bachelor" requirement makes the code as written fail, where the corrected score is defined |
| SemanticMatcher.CandidateWordsValid | ml/semantic_matcher.py:281-289 | every candidate word has four or more letters and is not a stopword |
| SemanticMatcher.FrequencyItems | ml/semantic_matcher.py:291-294 | the frequency items are the distinct words in order of first occurrence, each with its number of occurrences |
| SemanticMatcher.CountWords | ml/semantic_matcher.py:291-294 | the counting loop leaves the dict's keys in insertion order, each with its count |
| SemanticMatcher.ExtractKeywords | ml/semantic_matcher.py:278-298 | the method's result is the fallback keyword list of the text |
| SemanticMatcher.SortedItemsPermutation | ml/semantic_matcher.py:297 | sorting the frequency items permutes them, and they hold no item twice |
| SemanticMatcher.SortedItemsOrdered | ml/semantic_matcher.py:297 | the sorted items come most frequent first |
| SemanticMatcher.SortedItemsTies | ml/semantic_matcher.py:292-297 | words of equal frequency keep the order of their first occurrence, because the sort is stable |
| SemanticMatcher.SortedItemsCounts | ml/semantic_matcher.py:297 | each sorted item is a word of the text with its count, and no word comes twice |
| SemanticMatcher.SortedItemsCover | ml/semantic_matcher.py:297 | every word of the text has its sorted item |
| SemanticMatcher.TopWordsProperties | ml/semantic_matcher.py:297-298 | at most twenty distinct words of the text, most frequent first; a word left out means twenty were kept, each at least as frequent |
| SemanticMatcher.TopWordsDistinct | ml/semantic_matcher.py:298 | the keywords are at most twenty distinct words of the text |
| SemanticMatcher.TopWordsOrdered | ml/semantic_matcher.py:297-298 | the keywords come most frequent first |
| SemanticMatcher.TopWordsOmitted | ml/semantic_matcher.py:297-298 | a word that is not kept is no more frequent than any kept one, and twenty were kept |
| SemanticMatcher.KeywordsAreCandidates | ml/semantic_matcher.py:278-298 | every fallback keyword is a candidate word of four or more letters and no stopword |
| SemanticMatcher.CountFound | ml/semantic_matcher.py:219-223 | no more keywords are found than there are |
| SemanticMatcher.KeywordMatch | ml/semantic_matcher.py:203-225 | 0.5 without keywords; otherwise the share of keywords found as lower-case substrings, in [0, 1], and 1 exactly when all are found |
| SemanticMatcher.AllFoundIff | ml/semantic_matcher.py:219-225 | every keyword is counted exactly when each one occurs in the text |
| SemanticMatcher.IdentifySkillGaps | ml/semantic_matcher.py:227-253 | the missing required and preferred skills are exactly the case-folded asked skills the resume lacks; the total and critical counts are their sizes |
| SemanticMatcher.BandMonotone | ml/semantic_matcher.py:300-324 | a higher score never falls in a lower band |
| SemanticMatcher.GenerateRecommendation | ml/semantic_matcher.py:300-311 | the recommendation is the text of the score's band |
| SemanticMatcher.MatchLevel | ml/semantic_matcher.py:313-324 | the match level is the name of the score's band |
| SemanticMatcher.LevelMonotone | ml/semantic_matcher.py:313-324 | a higher score never gets a lower level |
| SemanticMatcher.ScoresOf | ml/semantic_matcher.py:38-44 | all five sub-scores are in [0, 1] |
| SemanticMatcher.Match | ml/semantic_matcher.py:27-62 | every sub-score and the overall score are in [0, 1]; the overall is the weighted sum; the recommendation and level are those of its band; the gaps are the skill gaps |
| SemanticMatcher.BatchMatch | ml/semantic_matcher.py:326-351 | one result per posting, a permutation of the results in posting order, best overall score first |
| SemanticMatcher.MatchEach | ml/semantic_matcher.py:339-346 | the loop matches each posting in posting order |
| SemanticMatcher.SortByOverall | ml/semantic_matcher.py:348-349 | the sort keeps every result and orders by descending overall score |
| SkillRecommender.AddToBuckets | ml/skill_recommender.py:257-260 | adding a skill lists it under its category and changes nothing else, keeping no category twice and none empty |
| SkillRecommender.AddToCategories | ml/skill_recommender.py:257-260 | adding a skill adds its category and no other |
| SkillRecommender.AddMatchesBuckets | ml/skill_recommender.py:254-260 | one skill against the taxonomy is listed under each category of an entry it matches by name or related skill, ignoring case |
| SkillRecommender.CategorizeAllBuckets | ml/skill_recommender.py:252-260 | a skill is under a category exactly when it is one of the candidate's skills matching an entry of that category; no category twice and none empty |
| SkillRecommender.LevelOf | ml/skill_recommender.py:272-277 | expert from 15 skills, advanced from 10, intermediate from 5, beginner below |
| SkillRecommender.LevelMonotone | ml/skill_recommender.py:272-277 | more skills never give a lower level |
| SkillRecommender.StrongestProperties | ml/skill_recommender.py:263-269 | the strengths are three categories (or all when fewer), in descending size, and no category left out is larger than one of them |
| SkillRecommender.StrongestMembers | ml/skill_recommender.py:269 | three of the categories, or all when fewer |
| SkillRecommender.StrongestOrdered | ml/skill_recommender.py:264-268 | the strengths come in descending size |
| SkillRecommender.StrongestDominate | ml/skill_recommender.py:264-269 | no category left out is larger than a strength |
| SkillRecommender.ProfileOf | ml/skill_recommender.py:242-279 | the profile counts the skills, has their level and at most three strengths drawn from the categories |
| SkillRecommender.AnalyzeSkillProfile | ml/skill_recommender.py:242-279 | the method's profile is the profile of the skills |
| SkillRecommender.Categorize | ml/skill_recommender.py:252-260 | the nested loops build the categories of the skills |
| SkillRecommender.CandidatesMembers | ml/skill_recommender.py:286-292 | a skill is collected exactly when the candidate does not know it and it is related to an entry whose skill the candidate knows |
| SkillRecommender.ComplementaryMembers | ml/skill_recommender.py:281-294 | the complementary skills are exactly the unknown skills related to a known taxonomy skill, each once |
| SkillRecommender.FindComplementary | ml/skill_recommender.py:281-294 | the double loop collects the related unknown skills of the known entries, without repeats |
| SkillRecommender.AddRelated | ml/skill_recommender.py:290-292 | the inner loop adds the unknown related skills of one entry to the set |
| SkillRecommender.PathFor | ml/skill_recommender.py:310-313 | the career path of a role exactly when the table has that role |
| SkillRecommender.PathsHaveCore | ml/skill_recommender.py:128-167 | every career path has core skills, so the completeness division is defined |
| SkillRecommender.CareerAdviceFor | ml/skill_recommender.py:303-340 | an unknown role gives only the role; a known one its next level, the core and recommended skills the candidate lacks, the completeness 1 - missing/core in [0, 1] (1 exactly when nothing core is missing), and promotion readiness exactly at 0.8 completeness and the typical years |
| SkillRecommender.TrendingProperties | ml/skill_recommender.py:342-358 | the unknown hot skills, then the unknown emerging technologies: each of them is listed and nothing else |
| SkillRecommender.StageShape | ml/skill_recommender.py:372-409 | each stage keeps the list so far and appends at most one entry per candidate, of its own origin and priority, for a skill the candidate does not know |
| SkillRecommender.PrioritiesProperties | ml/skill_recommender.py:360-411 | the prioritised list has critical entries first, then high, then medium; no known skill; at most five of each later origin; no medium skill listed twice |
| SkillRecommender.FourStages | ml/skill_recommender.py:360-411 | four stages, the last three of at most five candidates, make a well prioritised list |
| SkillRecommender.StagesAt | ml/skill_recommender.py:372-409 | each position of the list holds a critical, high or medium entry according to its stage, with the priority of its origin |
| SkillRecommender.StagesListed | ml/skill_recommender.py:402-409 | a medium entry was not listed before it |
| SkillRecommender.OriginCount | ml/skill_recommender.py:382-409 | at most five entries of each origin after the first |
| SkillRecommender.AppendStage | ml/skill_recommender.py:372-409 | one stage's loop appends the stage's entries |
| SkillRecommender.PrioritizeNextSkills | ml/skill_recommender.py:360-411 | the method's list is the four stages in order |
| SkillRecommender.PhaseOfProperties | ml/skill_recommender.py:427-452 | a phase is present exactly when its priority has entries, lists only their skills and at most five when cut |
| SkillRecommender.WithPriorityFilter | ml/skill_recommender.py:423-425 | selecting a priority leaves nothing exactly when no entry has it, and keeps entries of that priority only |
| SkillRecommender.LearningPathShape | ml/skill_recommender.py:413-454 | at most three phases in increasing number, none empty, the last two of at most five skills |
| SkillRecommender.PathShape | ml/skill_recommender.py:427-454 | three optional phases numbered 1, 2 and 3 make a path of that shape |
| SkillRecommender.LearningPathPhase | ml/skill_recommender.py:423-452 | the phase of a priority is present exactly when some listed skill has that priority, and lists only skills of that priority |
| SkillRecommender.PhaseInPath | ml/skill_recommender.py:423-452 | the phase numbered after a priority is the phase built from that priority's entries |
| SkillRecommender.HotCount | ml/skill_recommender.py:469-472 | no more hot skills are counted than the candidate lists |
| SkillRecommender.DemandFor | ml/skill_recommender.py:465-466 | a demand level exactly when the table names the role |
| SkillRecommender.InsightsOf | ml/skill_recommender.py:456-481 | a stable salary trend; high competitiveness and excellent opportunities from five hot skills, good from three, moderate otherwise; the table's demand level exactly when the target role is non-empty and listed, moderate otherwise |
| SkillRecommender.Hits | ml/skill_recommender.py:498 | no more indicators are counted than there are |
| SkillRecommender.BestFromProperties | ml/skill_recommender.py:495-502 | the inferred role has the largest indicator count, the earliest wins a tie, and with no indicator at all it is "Software Engineer" |
| SkillRecommender.InferRole | ml/skill_recommender.py:483-502 | the loop keeping the best match so far infers that role |
| SkillRecommender.BestRole | ml/skill_recommender.py:495-500 | the loop's best pair is the best count and its role |
| SkillRecommender.GenerateRecommendations | ml/skill_recommender.py:190-240 | the method assembles the profile, gaps, cut lists, career path, learning path and insights of the skills |
| SkillRecommender.ReportedPrefix | ml/skill_recommender.py:231-240 | the reported lists are cut to 10, 15 and 10 entries, and the skill gaps are the missing core then recommended skills (none for an unknown role) |
| SkillRecommender.DemoAdvice | ml/skill_recommender.py:505-516 | the demo skills against "Senior Software Engineer" miss all five core skills, with completeness 0 and no promotion |
| SkillRecommender.NoCoreKnown | ml/skill_recommender.py:316-329 | knowing no core skill of a known role gives completeness 0 and no promotion, and every core skill is missing |
| SkillRecommender.CriticalFirst | ml/skill_recommender.py:372-379 | when a missing core skill is unknown, the list starts with a critical entry and the learning path is not empty |
| SkillRecommender.StageNonEmpty | ml/skill_recommender.py:372-379 | a first stage whose first candidate is unknown is not empty |
| SkillRecommender.DemoPlan | ml/skill_recommender.py:505-516 | for the demo, the missing core skills are listed first, as critical |
| SkillRecommender.DemoRecommendations | ml/skill_recommender.py:505-516 | the demo's next skills and learning path are not empty and its career path is not ready for promotion |
| SkillRecommender.UnpreparedRecommendations | ml/skill_recommender.py:190-240 | a known role with an unknown missing core skill gives a critical first next skill and a non-empty learning path |
| SkillRecommender.RecommendationsParts | ml/skill_recommender.py:207-240 | the report's career path, next skills (first ten) and learning path are built from the same prioritised list |
| AtsOptimizer.ScanElements | ml/ats_optimizer.py:99-102 | the layout elements reported are those of the table whose pattern matches, in table order, one issue each, 15 points off per element |
| AtsOptimizer.ElementsFoundMeaning | ml/ats_optimizer.py:99-102 | an element is reported exactly when some table entry of that name has a matching pattern |
| AtsOptimizer.ElementStep | ml/ats_optimizer.py:99-102 | one more table entry adds its element, its issue and a 15-point deduction exactly when its pattern matches |
| AtsOptimizer.CheckLayout | ml/ats_optimizer.py:105-126 | special characters above 20, no paragraph break and more than 5 long lines each add an issue and take 10 points off; the score is floored at 0 and passes at 70 |
| AtsOptimizer.LayoutScore | ml/ats_optimizer.py:105-126 | the layout checks append their issues after the element issues and subtract 10 each from the element score |
| AtsOptimizer.LayoutDeduction | ml/ats_optimizer.py:105-120 | the three layout issues cost exactly 10 points each |
| AtsOptimizer.AnalyzeFormat | ml/ats_optimizer.py:93-126 | the format report of a text, combining the element scan and the layout checks |
| AtsOptimizer.FormatScore | ml/ats_optimizer.py:93-126 | score = max(0, 100 - 15 per element - 10 per layout problem), never above 100; 100 exactly when there is no issue; passed exactly when the score is at least 70 |
| AtsOptimizer.FormatIssuesMeaning | ml/ats_optimizer.py:95-120 | every issue names a detected element or a failed layout condition with its measured count, and every such condition yields its issue |
| AtsOptimizer.ElementIssuesMember | ml/ats_optimizer.py:99-120 | an element issue is in the list exactly when its element was found; any other issue exactly when it is among the layout issues |
| AtsOptimizer.FormatInRange | ml/ats_optimizer.py:93-126 | the format score of any text is at most 100 |
| AtsOptimizer.KeywordsOrDefault | ml/ats_optimizer.py:132-137 | a missing or empty keyword list is replaced by the nine default keywords, a non-empty one is used as given; the result is never empty |
| AtsOptimizer.PartitionKeywords | ml/ats_optimizer.py:143-149 | the keywords found as whole words in the lower-cased text and those not found, each in input order |
| AtsOptimizer.KeywordPartition | ml/ats_optimizer.py:139-149 | matched and missing split the keyword list (as multisets) and a keyword is matched exactly when it occurs as a whole word, missing exactly when it does not |
| AtsOptimizer.KeywordReportOf | ml/ats_optimizer.py:152-156 | the keyword score lies in [0, 100] |
| AtsOptimizer.ScoreKeywords | ml/ats_optimizer.py:152-180 | the keyword report for the given partition and density |
| AtsOptimizer.AnalyzeKeywords | ml/ats_optimizer.py:128-180 | the keyword report of a text for the target keywords or the defaults |
| AtsOptimizer.KeywordScore | ml/ats_optimizer.py:152-179 | score is the match rate times 100; 100 iff nothing is missing, 0 iff nothing matched; passed iff at least 60; a low-density issue iff density < 2, high iff > 5, a missing-keywords issue iff more than half are missing |
| AtsOptimizer.ScanRequired | ml/ats_optimizer.py:191-197 | the required sections the text mentions are found, the others missing with one issue and 20 points off each, in table order |
| AtsOptimizer.RequiredStep | ml/ats_optimizer.py:191-197 | one more required section is either found or missing at the cost of 20 points, according to whether the text mentions it |
| AtsOptimizer.ScanOptional | ml/ats_optimizer.py:200-203 | the optional sections the text mentions are appended to the found list, in table order |
| AtsOptimizer.CheckContact | ml/ats_optimizer.py:206-222 | no e-mail costs 15, no phone 10, an experience section with fewer than two dates 15; floored at 0, passed at 70 |
| AtsOptimizer.ContactScore | ml/ats_optimizer.py:206-230 | the contact and date checks append their issues after the section issues and subtract their points from the section score |
| AtsOptimizer.ContactDeduction | ml/ats_optimizer.py:206-222 | the contact and date issues cost 15, 10 and 15 points |
| AtsOptimizer.AnalyzeStructure | ml/ats_optimizer.py:182-231 | the structure report of a text |
| AtsOptimizer.StructureScore | ml/ats_optimizer.py:184-230 | the score is 100 minus the deductions exactly (they never exceed 100); 0 only when everything is missing; 100 iff there is no issue; passed iff at least 70 |
| AtsOptimizer.StructureIssuesMeaning | ml/ats_optimizer.py:196-221 | a missing-section issue exactly for each missing section, and the e-mail, phone and date issues exactly when those checks fail |
| AtsOptimizer.SectionIssuesMember | ml/ats_optimizer.py:196-221 | a missing-section issue is in the list exactly when its section is missing; any other issue exactly when it is among the later ones |
| AtsOptimizer.SectionsMeaning | ml/ats_optimizer.py:187-203 | a section is found iff it is required or optional and the lower-cased text contains it; missing iff required and absent; all three missing iff none is mentioned |
| AtsOptimizer.FilterAll3 | ml/ats_optimizer.py:191-197 | if all three entries survive a filter, each of them passes it |
| AtsOptimizer.StructureInRange | ml/ats_optimizer.py:182-231 | the structure score of any text is at most 100 |
| AtsOptimizer.ScoreContent | ml/ats_optimizer.py:240-285 | the content report for the measured counts of verbs, figures, words, buzzwords and bullets, checked in the source's order |
| AtsOptimizer.AnalyzeContent | ml/ats_optimizer.py:233-285 | the content report of a text |
| AtsOptimizer.ContentScore | ml/ats_optimizer.py:233-285 | score = 100 minus the deductions, always between 30 and 100; 100 iff no issue; passed iff at least 70 |
| AtsOptimizer.ContentIssuesCost | ml/ats_optimizer.py:240-275 | the points deducted are exactly the sum of what the reported issues cost |
| AtsOptimizer.ContentLength | ml/ats_optimizer.py:256-262 | a too-short issue exactly below 200 words and a too-long issue exactly above 1000, with the word count |
| AtsOptimizer.ContentInRange | ml/ats_optimizer.py:233-285 | the content score of any text is between 30 and 100 |
| AtsOptimizer.GenerateRecommendations | ml/ats_optimizer.py:287-354 | the recommendations for the four category reports |
| AtsOptimizer.RecommendationsOrder | ml/ats_optimizer.py:287-354 | 2 to 6 recommendations in the fixed category order, ending with the font advice (first four fonts) and the file-format advice |
| AtsOptimizer.RecommendationsTriggered | ml/ats_optimizer.py:298-335 | each category's recommendation is present exactly when its score is below its threshold (70, 60 with the first five missing keywords, 70, 70) |
| AtsOptimizer.RanksIncrease | ml/ats_optimizer.py:295-354 | ranks increasing between neighbours increase between any two positions |
| AtsOptimizer.IdentifyCriticalIssues | ml/ats_optimizer.py:356-381 | the critical issues of the four category reports |
| AtsOptimizer.CriticalIssuesReported | ml/ats_optimizer.py:366-379 | each critical issue is reported exactly when its condition holds (format < 50, keywords < 40, no e-mail, structure < 50, fewer than 150 words) |
| AtsOptimizer.CriticalIssuesDistinct | ml/ats_optimizer.py:364-381 | no critical issue is repeated, so there are at most five |
| AtsOptimizer.GradeMonotone | ml/ats_optimizer.py:409-420 | a higher score never earns a lower grade; C or better exactly from 70, A exactly from 90, F exactly below 60 |
| AtsOptimizer.Truncate | ml/ats_optimizer.py:90 | Python's int() of a non-negative real is its floor |
| AtsOptimizer.Combine | ml/ats_optimizer.py:61-91 | the analysis assembled from the four category reports |
| AtsOptimizer.Analyze | ml/ats_optimizer.py:43-91 | the full analysis of a text for the target keywords |
| AtsOptimizer.WeightsSumToOne | ml/ats_optimizer.py:61-66 | the four category weights add up to one |
| AtsOptimizer.AssembleProperties | ml/ats_optimizer.py:61-91 | overall in [0, 100]; ATS-friendly iff overall >= 70 iff grade C or better; pass rate is the truncated overall capped at 95; a content score of at least 30 guarantees at least 6 points |
| AtsOptimizer.OverallPositive | ml/ats_optimizer.py:43-91 | every resume scores between 6 and 100 overall with a pass rate between 6 and 95, and is ATS-friendly exactly at a grade of C or better |
| AtsOptimizer.SuggestPhrases | ml/ats_optimizer.py:449-464 | a replacement suggestion for each weak phrase in the lower-cased text, in table order |
| AtsOptimizer.AnalyzedMissing | ml/ats_optimizer.py:436-438 | the missing keywords of the full analysis are those of the keyword analysis alone |
| AtsOptimizer.OptimizeText | ml/ats_optimizer.py:422-469 | the suggestions and the automatically cleaned text |
| AtsOptimizer.SuggestionsProperties | ml/ats_optimizer.py:433-464 | at most five suggestions; a keyword suggestion exactly when keywords were given and some are missing, naming the first five; a replacement exactly for each weak phrase present |
| AtsOptimizer.SuggestionsKeywords | ml/ats_optimizer.py:436-446 | at most five suggestions; the keyword suggestion appears exactly when keywords were given and some are missing, and names the first five missing |
| AtsOptimizer.SuggestionsPhrases | ml/ats_optimizer.py:449-464 | a replacement is suggested exactly for each table phrase contained in the lower-cased text |
| AtsOptimizer.OptimizationKeywords | ml/ats_optimizer.py:422-469 | the optimisation's keyword suggestion names the first five keywords that the keyword analysis reports missing, and phrase suggestions match the weak phrases in the text |
| AtsOptimizer.RunLength | ml/ats_optimizer.py:476-477 | the length of the leading run of a character: all those characters are it, the next one is not |
| AtsOptimizer.Repeat | ml/ats_optimizer.py:476-477 | n copies of a character |
| AtsOptimizer.Collapse | ml/ats_optimizer.py:476-477 | collapsing runs keeps the first character of a non-empty text |
| AtsOptimizer.CollapseBounded | ml/ats_optimizer.py:476-477 | after collapsing, no run of the character is longer than the bound (two newlines, one space) |
| AtsOptimizer.CollapseKeepsRuns | ml/ats_optimizer.py:476-477 | collapsing one character's runs does not lengthen another character's runs |
| AtsOptimizer.CollapseKeepsText | ml/ats_optimizer.py:476-477 | collapsing removes only copies of the collapsed character |
| AtsOptimizer.RunsReset | ml/ats_optimizer.py:476-477 | other characters end a run |
| AtsOptimizer.RunsRepeat | ml/ats_optimizer.py:476-477 | a run within the bound followed by text that does not continue it stays within the bound |
| AtsOptimizer.SpaceBullets | ml/ats_optimizer.py:480 | spacing bullets keeps the first character of a non-empty text |
| AtsOptimizer.SpaceBulletsKeepsText | ml/ats_optimizer.py:480 | spacing bullets only inserts spaces |
| AtsOptimizer.SpacedPairKeepsText | ml/ats_optimizer.py:480 | a space inserted between two characters disappears once spaces are removed |
| AtsOptimizer.ConsKeepsText | ml/ats_optimizer.py:480 | texts equal apart from spaces stay so behind the same character |
| AtsOptimizer.SpaceBulletsSpaced | ml/ats_optimizer.py:480 | afterwards no bullet character stands directly before a word character |
| AtsOptimizer.SpaceBulletsKeepsRuns | ml/ats_optimizer.py:480 | spacing bullets does not lengthen newline or space runs |
| AtsOptimizer.AutoOptimizeProperties | ml/ats_optimizer.py:471-482 | the cleaned text has at most two newlines and one space in a row, every bullet spaced from its word, and the same characters as the original apart from spaces and newlines |
| AtsOptimizer.Bounds | ml/ats_optimizer.py:383-407 | none exactly when no line mentions a key; otherwise the section starts after the first line that mentions a key and runs to the first later line mentioning another heading, or to the end |
| AtsOptimizer.ExtractSection | ml/ats_optimizer.py:383-407 | the lines of the section joined by newlines, or "" when no line mentions a key |
| AtsOptimizer.ExperienceHeadings | ml/ats_optimizer.py:398-403 | the experience section ends at a line naming education, skills, projects or certifications |
| AtsOptimizer.DropLeadingKey | ml/ats_optimizer.py:402-403 | dropping the keys from a heading list that starts with one key and has no other keys leaves the rest |
| AtsOptimizer.AtLeastZero | ml/ats_optimizer.py:123 | max(0, score): never negative, and the score itself when it is non-negative |
| ResumeParser.SectionBounds | ml/resume_parser.py:337-374 | none exactly when no line opens the section; otherwise the section starts after the first line containing a key and ends before the first later non-blank line that is in capitals or names another heading, or at the end |
| ResumeParser.ExtractSection | ml/resume_parser.py:337-374 | the stripped lines of the section, or none when no line contains a key |
| ResumeParser.Categorized | ml/resume_parser.py:162-172 | only categories in which some skill was found are listed |
| ResumeParser.ScanCategory | ml/resume_parser.py:164-170 | the skills of one category found as whole words, title-cased and in list order, also appended to the running list of all skills |
| ResumeParser.TableStep | ml/resume_parser.py:162-172 | one more category adds its found skills to the running list, and adds the category exactly when it found any |
| ResumeParser.ExtractSkills | ml/resume_parser.py:155-178 | the skill set of the text: the non-empty categories, the sorted distinct list of all skills and their count |
| ResumeParser.FoundSkillsMembers | ml/resume_parser.py:164-170 | a skill is recorded, title-cased, exactly when its lower-cased form occurs as a whole word in the lower-cased text |
| ResumeParser.CountIsSizeSum | ml/resume_parser.py:170-176 | the number of skills found is the sum of the category sizes |
| ResumeParser.SkillsOfProperties | ml/resume_parser.py:155-178 | count is the sum of the category sizes; all skills are strictly increasing (sorted and distinct), no more than the count, and are exactly the skills found in some category |
| ResumeParser.AllFoundMembers | ml/resume_parser.py:162-176 | a skill is among all skills found exactly when some category found it |
| ResumeParser.EntryCompany | ml/resume_parser.py:213-218 | the company is the stripped first of the first three lines containing "at ", "with " or "@", and is none exactly when none of them does |
| ResumeParser.EntryDates | ml/resume_parser.py:220-232 | start, end and duration are present together, exactly when some date pattern matches, and the duration joins start and end with " - " |
| ResumeParser.EntryResponsibilities | ml/resume_parser.py:234-238 | one stripped responsibility per bullet item, in order |
| ResumeParser.ExtractEntry | ml/resume_parser.py:197-243 | the experience record of one entry |
| ResumeParser.ExtractExperience | ml/resume_parser.py:180-245 | the experience records of the blank-line-separated blocks of the experience section, or none without such a section |
| ResumeParser.ExtractEntries | ml/resume_parser.py:193-243 | one record per block of at least 20 stripped characters, in block order |
| ResumeParser.DegreeOf | ml/resume_parser.py:270-279 | a degree is reported only when the entry mentions some degree keyword |
| ResumeParser.DegreeOfMeaning | ml/resume_parser.py:270-279 | a degree is reported exactly when the entry mentions some degree keyword; it is then the stripped first line of the entry that mentions the earliest-listed keyword the entry mentions |
| ResumeParser.Last | ml/resume_parser.py:284-285 | the last element, present exactly for a non-empty list |
| ResumeParser.YearOf | ml/resume_parser.py:282-286 | the intended year is a four-digit year beginning with 19 or 20 |
| ResumeParser.YearAsWrittenIsCentury | ml/resume_parser.py:282-286 | the year the source stores is exactly the first two digits of the intended year, and missing exactly when that is |
| ResumeParser.YearTruncatedExample | ml/resume_parser.py:282-286 | "Graduated 2018" is stored with year "20" although its year is "2018" |
| ResumeParser.ExampleYearPosition | ml/resume_parser.py:282 | the one year of the example starts at position 10 |
| ResumeParser.CenturyYearsFromSkip | ml/resume_parser.py:282 | positions without a year match do not change the list of matches |
| ResumeParser.GpaOf | ml/resume_parser.py:288-291 | a GPA is reported exactly when the GPA pattern matches |
| ResumeParser.EducationAsWritten | ml/resume_parser.py:264-299 | the record as the source computes it: the same degree and GPA as intended, a year exactly when intended, but only its two-character century |
| ResumeParser.ExtractDegree | ml/resume_parser.py:270-279 | the stripped first line mentioning the first degree keyword, in keyword order, that the entry mentions |
| ResumeParser.ExtractEducation | ml/resume_parser.py:247-302 | the education records of the education section's blocks, or none without such a section; each record's year is the corrected four-digit year of the Findings row, not the century the source stores |
| ResumeParser.ExtractEducationEntries | ml/resume_parser.py:259-300 | one record per block of at least 10 stripped characters, in block order, with the corrected four-digit year (see Findings) |
| ResumeParser.SummaryOf | ml/resume_parser.py:304-318 | a summary is reported only when there is a non-empty summary section |
| ResumeParser.SummaryOfMeaning | ml/resume_parser.py:304-318 | a summary is reported exactly when the summary section is non-empty and has a line longer than thirty characters once stripped; it then begins with the first such line and is longer than thirty characters |
| ResumeParser.ExtractSummary | ml/resume_parser.py:304-318 | the first three stripped lines of the summary section longer than 30 characters, joined by spaces, or none |
| ResumeParser.NameFrom | ml/resume_parser.py:119-133 | a name-like line among the first five wins over the entity fallback; no name exactly when there is no such line and no person entity |
| ResumeParser.PersonalInfoOf | ml/resume_parser.py:89-153 | e-mail, LinkedIn and GitHub are present exactly when their pattern matches, a phone exactly when some phone pattern matches, a location exactly when some entity is a place |
| ResumeParser.ExtractName | ml/resume_parser.py:118-133 | the first name-like line of the first five, else the first person entity |
| ResumeParser.ExtractPersonalInfo | ml/resume_parser.py:89-153 | the personal information of the text, trying the phone patterns in order and stopping at the first that matches |
| ResumeParser.Parse | ml/resume_parser.py:63-87 | the personal information, skills, experience, education and summary of the text; education records carry the corrected four-digit year (see Findings) |
| ResumeParser.CalculateExperienceYears | ml/resume_parser.py:376-396 | the signed sum of end minus start over the entries with parseable dates, "present" meaning the current year |
| ResumeParser.InvertedRangeLowersTotal | ml/resume_parser.py:380-394 | an entry whose dates run backwards lowers the total, since there is no clamp |
| ScreeningApi.SkillsFromMeaning | backend/main.py:63-65 | a fixed keyword is reported exactly when the text contains it ignoring case; the report keeps list order and takes each keyword at most as often as the list has it |
| ScreeningApi.SkillGapOf | backend/main.py:86-94 | present and missing are disjoint and together make the job's skills; present is exactly the skills in both lists; the gap score is in [0, 1], 0 for an empty job list, 0 exactly when nothing is missing, 1 only when nothing is present (and 1 whenever nothing is present in a list without repeats) |
| ScreeningApi.ExperienceYears | backend/main.py:67-70 | the largest number captured by the years-of-experience pattern: no capture exceeds it, one equals it, and it is 0 when there is none |
| ScreeningApi.Coverage | backend/main.py:100-102 | the keyword coverage is in [0, 1]; 0 when the job has no keywords; 1 exactly when the resume has every job keyword, 0 exactly when it has none |
| ScreeningApi.AtsOf | backend/main.py:96-116 | the ATS score is in [0, 100] and is 100 exactly when coverage is full and the length, contact and experience checks all pass |
| ScreeningApi.AdjustedFit | backend/main.py:211-212 | the fit is capped at 100; for a gap score in [0, 1] and an ATS score in [0, 100] it lies between 72% of the base fit and the base fit; no gap and a full ATS score leave the base fit (capped) unchanged |
| ScreeningApi.GapFactor | backend/main.py:211 | a gap score in [0, 1] scales the fit by a factor in [0.8, 1], 1 for no gap |
| ScreeningApi.AtsFactor | backend/main.py:211 | an ATS score in [0, 100] scales the fit by a factor in [0.9, 1], 1 for a full score |
| ScreeningApi.ScaledBounds | backend/main.py:211 | scaling a non-negative fit by both factors keeps it between 72% of itself and itself |
| ScreeningApi.RecommendationMonotone | backend/main.py:222 | a higher fit never gets a weaker recommendation: a weak match implies a weak match for every lower fit, a strong match one for every higher fit |
| ScreeningApi.ScreenProperties | backend/main.py:193-223 | a skill is present exactly when both texts mention it and missing exactly when only the job does; the fit is at most 100 and keeps at least 72% of a base fit in [0, 100]; the recommendation is the band of the fit |
| ScreeningApi.GapMeaning | backend/main.py:81-94 | the gap between the keywords two texts mention: present exactly when both mention a keyword, missing exactly when only the job does |
| HiringApi.AnonymizeStages | backend/main_new.py:206-211 | e-mail addresses are replaced first, then phone numbers in the result, then street addresses in that result, each match by its placeholder |
| HiringApi.AnonymizeClean | backend/main_new.py:206-211 | a text in which none of the three patterns matches comes back unchanged |
| HiringApi.ExperienceOfMeaning | backend/main_new.py:239-252 | a claim is found exactly when one of the two patterns matches the lower-cased text; the years are the number of the first match of the first pattern, the second pattern counting only when the first does not match; 0 years without a claim |
| HiringApi.ExtractExperience | backend/main_new.py:241-252 | the claim of the first match of the first pattern that matches |
| HiringApi.KeywordsFoundMeaning | backend/main_new.py:261-268 | a keyword is reported exactly when the lower-cased text contains it; no more keywords than the list has, and no repeats when the list has none |
| HiringApi.CollectKeywords | backend/main_new.py:261-266 | the keywords the lower-cased text contains, in list order |
| HiringApi.ExtractEducation | backend/main_new.py:254-268 | the education keywords the lower-cased text contains, in list order |
| HiringApi.EducationKeywordsDistinct | backend/main_new.py:256-259 | the education keywords are distinct, so the education report never repeats an entry |
| HiringApi.SkillsNlpMeaning | backend/main_new.py:227-237 | a skill is reported exactly when it is a technical skill the lower-cased text contains, or the lower-cased name of an organisation or product entity longer than two characters |
| HiringApi.KeywordSet | backend/main_new.py:227-230 | the set of the technical skills the lower-cased text contains |
| HiringApi.AddToolNames | backend/main_new.py:232-235 | the set grows by the lower-cased names of exactly the organisation and product entities longer than two characters |
| HiringApi.ExtractSkills | backend/main_new.py:227-237 | the skill set of the keyword loop and the entity loop together |
| HiringApi.ExtractSkillsNlp | backend/main_new.py:213-237 | the skill set for the technical-skill table |
| CandidateProfile.Completed | backend/routers/candidate_routes.py:306-319 | at most ten parts are completed: the seven scalar fields and the three lists of records |
| CandidateProfile.Completion | backend/routers/candidate_routes.py:321-322 | the truncated percentage is exactly ten points per completed part, so it is in [0, 100] |
| CandidateProfile.CompletionZero | backend/routers/candidate_routes.py:304-322 | 0 exactly when no field is filled in and every list of records is empty |
| CandidateProfile.CompletionFull | backend/routers/candidate_routes.py:304-322 | 100 exactly when every field is filled in and every list of records is non-empty |
| CandidateProfile.CompletionMonotone | backend/routers/candidate_routes.py:304-322 | filling in more of a profile never lowers its percentage |
| Performance.EffectiveTtl | backend/performance.py:49 | a set uses its own time to live unless it is absent or zero, and the cache's default otherwise |
| Performance.ExpiredKeys | backend/performance.py:88-91 | the keys whose entries expire at or before the current time |
| Performance.LiveEntries | backend/performance.py:84-94 | exactly the entries that expire after the current time, unchanged |
| Performance.CleanupSizes | backend/performance.py:84-96 | the live and the expired entries together make the whole cache, and nothing is expired exactly when cleanup changes nothing |
| Performance.CacheManager.constructor | backend/performance.py:19-30 | an empty cache with both counters at zero and the given default time to live |
| Performance.CacheManager.Get | backend/performance.py:32-45 | a live entry's value is returned and counted as a hit; otherwise none, a miss, and an expired entry removed; exactly one counter goes up by one |
| Performance.CacheManager.Set | backend/performance.py:47-55 | the key now maps to the value, expiring at the current time plus the effective time to live; other keys and the counters unchanged |
| Performance.CacheManager.Delete | backend/performance.py:57-61 | only that key is removed; the counters are unchanged |
| Performance.CacheManager.Clear | backend/performance.py:63-68 | the cache is empty and both counters are zero |
| Performance.CacheManager.Stats | backend/performance.py:70-82 | total requests is hits plus misses; the hit rate is in [0, 100], 0 before any lookup and exactly when there is no hit, 100 exactly when there is no miss |
| Performance.CacheManager.CleanupExpired | backend/performance.py:84-96 | exactly the expired entries are removed, their number is returned, and the counters are unchanged |
| Performance.DropOldMeaning | backend/performance.py:165-167 | pruning keeps a suffix of the bucket: everything dropped is older than the window start, and the kept front is not |
| Performance.WaitTime | backend/performance.py:186-196 | never negative; 0 while the bucket is under the limit; otherwise 60 seconds minus the age of the oldest request, floored at 0, so at most 60 |
| Performance.RateLimiter.constructor | backend/performance.py:136-146 | no bucket yet, with the given limit |
| Performance.RateLimiter.IsAllowed | backend/performance.py:148-174 | the bucket is pruned to the last minute; the request is allowed exactly when fewer than the limit remain, and only then is its time appended; other buckets unchanged and no bucket exceeds the limit |
| Performance.RateLimiter.GetWaitTime | backend/performance.py:176-196 | the wait time of the identifier's bucket, which the lookup creates empty for a new identifier; nothing else changes |
| Performance.RateLimiter.Reset | backend/performance.py:198-202 | only that identifier's bucket is dropped |
| Performance.RateLimiter.GetStats | backend/performance.py:204-220 | the bucket is pruned; the requests in the window, the limit, the remaining allowance (limit minus the pruned size) and the wait time of the pruned bucket; never more requests than the limit |
| Performance.Observe | backend/performance.py:270-279 | one more call: calls and total time grow by one call and its time, errors by one exactly for an error, and the minimum and maximum widen to include it |
| Performance.ReportOf | backend/performance.py:286-289 | the averages are present exactly when there are calls, and the error rate is then in [0, 100] |
| Performance.ErrorRateBounds | backend/performance.py:289 | no more errors than calls gives an error rate in [0, 100] |
| Performance.PerformanceMonitor.constructor | backend/performance.py:260-268 | no metrics yet |
| Performance.PerformanceMonitor.Record | backend/performance.py:270-279 | exactly the named function's entry is updated by one call, created fresh on first use |
| Performance.PerformanceMonitor.GetMetrics | backend/performance.py:281-301 | a present, non-empty name reports that entry, or nothing when it is unknown; otherwise every entry is reported |
| Performance.PerformanceMonitor.Reset | backend/performance.py:303-310 | a present, non-empty name forgets only that entry; otherwise all entries are forgotten |
| Performance.Chunks | backend/performance.py:456-457 | every slice is non-empty and no longer than the batch size |
| Performance.ChunksConcat | backend/performance.py:456-457 | the slices put back together are the items, in order |
| Performance.ConcatMapElementwise | backend/performance.py:455-460 | a query answering item by item gives, batched, one answer per item in item order |
| Performance.BatchQuery | backend/performance.py:445-462 | a batch size of 0 is an error and a negative one gives no results; otherwise the concatenated answers to the consecutive slices, in order |
| Performance.BatchStep | backend/performance.py:456-459 | the answers from a position on are the answer to the slice there followed by the answers from the next slice on |
| Performance.ChunksStep | backend/performance.py:456-457 | one slice taken from a position leaves the slices of the rest |
| Performance.ConnectionPool.constructor | backend/performance.py:468-478 | an empty pool with nothing in use |
| Performance.ConnectionPool.GetConnection | backend/performance.py:480-491 | the oldest pooled connection is reused if there is one; otherwise a new one is created while fewer than the maximum are in use; otherwise an error and nothing changes; in-use counts up by one on success |
| Performance.ConnectionPool.ReleaseConnection | backend/performance.py:493-497 | the connection goes to the back of the pool and in-use counts down by one |
| Performance.ConnectionPool.Stats | backend/performance.py:499-506 | the available, in-use and maximum counts, the first two together within the maximum |
| ModelPipeline.FindVersion | ml/model_pipeline.py:221-224 | none exactly when no record has that version string; otherwise the first record with that version, even when two records share it |
| ModelPipeline.FirstNamed | ml/model_pipeline.py:221-224 | the first-match scan finds nothing exactly when no record has that version string |
| ModelPipeline.Resolve | ml/model_pipeline.py:214-218 | "latest" and "production" resolve to the entry's markers, any other string to itself |
| ModelPipeline.MetricsOf | ml/model_pipeline.py:209-226 | none for an unknown model; otherwise the metrics of the first record whose version the string resolves to, and none when no record has it |
| ModelPipeline.Select | ml/model_pipeline.py:233-237 | exactly the listed keys that pass the test, each with its value |
| ModelPipeline.SelectSnoc | ml/model_pipeline.py:234-237 | one more key adds its value exactly when it passes the test |
| ModelPipeline.RegisteredLatest | ml/model_pipeline.py:117-133 | after a registration the name is present with latest set to the new version, which is among its versions; production and every other model are unchanged; a fresh version resolves, as "latest", to the new metrics |
| ModelPipeline.FirstNamedSnoc | ml/model_pipeline.py:125-133 | a version string new to the list is found at the record appended for it |
| ModelPipeline.NewerFirstStrict | ml/model_pipeline.py:261-265 | ordering by creation time, newest first, is a strict order, so the sort is well defined |
| ModelPipeline.PyPrefix | ml/model_pipeline.py:272 | Python's `s[:k]`: a prefix of min(k, len) elements for non-negative k, all but the last -k for negative k |
| ModelPipeline.CleanupPartition | ml/model_pipeline.py:279-293 | the records kept and the records counted as removed together make up the old list, as a multiset and in number |
| ModelPipeline.CleanupKeeps | ml/model_pipeline.py:267-277 | exactly keepLast records are newest when there are more; each newest record is kept, and so is the production version when it is set |
| ModelPipeline.CleanupDropsOlder | ml/model_pipeline.py:260-293 | a removed record is not the production version, and none of the kept newest records was created before it |
| ModelPipeline.CompareStep | ml/model_pipeline.py:234-237 | one more version adds its metrics exactly when they are non-empty |
| ModelPipeline.ModelRegistry.constructor | ml/model_pipeline.py:118-123 | an empty registry |
| ModelPipeline.ModelRegistry.RegisterModel | ml/model_pipeline.py:74-137 | the registry after appending one record and setting latest, creating an empty entry on the first registration; the version is returned |
| ModelPipeline.ModelRegistry.PromoteToProduction | ml/model_pipeline.py:174-200 | true exactly for a known model with that version, which then becomes production and nothing else changes; otherwise false and nothing changes |
| ModelPipeline.ModelRegistry.ListVersions | ml/model_pipeline.py:202-207 | the model's versions, or none for an unknown model |
| ModelPipeline.ModelRegistry.GetMetrics | ml/model_pipeline.py:209-226 | the metrics of the record the string resolves to |
| ModelPipeline.ModelRegistry.Comparison | ml/model_pipeline.py:228-239 | exactly the requested versions with non-empty metrics, each with its metrics |
| ModelPipeline.ModelRegistry.CompareVersions | ml/model_pipeline.py:228-239 | the comparison of the requested versions, empty for an unknown model |
| ModelPipeline.ModelRegistry.CleanupOldVersions | ml/model_pipeline.py:241-297 | 0 and no change for an unknown model or at most keepLast versions; otherwise the records not kept are removed, the others stay in their order, and their number is returned |
| ModelPipeline.CollectVersions | ml/model_pipeline.py:272-273 | the set of version strings of the records |
| ModelPipeline.CountDropped | ml/model_pipeline.py:280-287 | the number of records whose version is not kept |
| ModelPipeline.RetrainDecision | ml/model_pipeline.py:427-438 | retrain exactly without production metrics or below the threshold: no production model when metrics are missing or empty, otherwise below threshold with the current accuracy; an error exactly when non-empty metrics lack an accuracy and the threshold is positive |
| ModelPipeline.HistoryOf | ml/model_pipeline.py:459-466 | never longer than the history, and all of it without a name |
| ModelPipeline.HistoryOfMeaning | ml/model_pipeline.py:461-465 | with a name, exactly its records; the whole history exactly when every record is for that model |
| ModelPipeline.ModelTrainer.constructor | ml/model_pipeline.py:300-311 | the given registry and an empty history |
| ModelPipeline.ModelTrainer.TrainAndEvaluate | ml/model_pipeline.py:380-397 | the run's version is registered and one history record appended |
| ModelPipeline.ModelTrainer.AutoRetrainIfNeeded | ml/model_pipeline.py:406-457 | an error or no retraining changes nothing; retraining registers and records the run and promotes it exactly when its accuracy reaches the threshold |
| ModelPipeline.ModelTrainer.GetTrainingHistory | ml/model_pipeline.py:459-466 | the history of the named model, or all of it |
| ModelPipeline.SumBounds | ml/model_pipeline.py:526-529 | a sum of values in an interval lies between their number times its ends |
| ModelPipeline.MeanBounds | ml/model_pipeline.py:526-529 | the mean of values in an interval lies in the interval |
| ModelPipeline.PerformanceOf | ml/model_pipeline.py:498-530 | an error exactly without recent predictions; with feedback no more than total no more than the log; accuracy absent exactly without feedback, and otherwise in [0, 1] |
| ModelPipeline.AccuracyMeaning | ml/model_pipeline.py:516-525 | the accuracy is 1 exactly when every recent prediction with feedback was correct, and 0 exactly when none was |
| ModelPipeline.FilterShare | ml/model_pipeline.py:518-525 | the share of a list passing a test is 1 exactly when all pass, 0 exactly when none does |
| ModelPipeline.ConfidenceBounds | ml/model_pipeline.py:526-529 | confidences in [0, 1] give an average confidence in [0, 1] |
| ModelPipeline.DriftOf | ml/model_pipeline.py:538-555 | insufficient data exactly when there is no accuracy; otherwise drift exactly when the accuracy is below 1 minus the threshold, reported with the performance |
| ModelPipeline.DriftMeansMistake | ml/model_pipeline.py:532-555 | with a non-negative threshold, detected drift means some prediction of the last 24 hours with feedback was wrong |
| ModelPipeline.ModelMonitor.constructor | ml/model_pipeline.py:472-474 | an empty prediction log |
| ModelPipeline.ModelMonitor.LogPrediction | ml/model_pipeline.py:476-496 | one entry is appended, marked correct or not exactly when the actual outcome is given |
| ModelPipeline.ModelMonitor.GetRecentPerformance | ml/model_pipeline.py:498-530 | the performance of the model's predictions logged in the window |
| ModelPipeline.ModelMonitor.CheckForDrift | ml/model_pipeline.py:532-555 | the drift report of the last 24 hours' performance |
| Dates.EntrySpan | ml/resume_parser.py:380-394 | an entry counts only when it has both dates and a four-digit start year |
| Dates.ClampedAtLeastSigned | ml/semantic_matcher.py:255-276 | the matcher's clamped total is never below the parser's signed total, and equals it when no range runs backwards |

## Left out

- Regular expressions that only recognise a shape are not given a semantics. This covers e-mail addresses, phone numbers, street addresses, date ranges, GPA values, bullet items, years-of-experience claims and the layout-element patterns. They are evaluated by the caller's `Engine`; the order in which patterns are tried, and first-match-wins, are modelled.
- The language model is out: loading and downloading spaCy, named-entity recognition, noun chunks and lemmas. Entities and lemmas are input lists.
  - The parser's keyword list from entities and noun chunks (`_extract_keywords`) is not part of this model.
  - So are the education institution lookup and the name, education and contact fields that `parse_resume` in backend/main.py takes from entities.
  - So are the tone evaluation, the bias detection and the base fit computation, which are language-model and embedding heuristics. The base fit is a parameter.
- Sentence embeddings are out. Their cosine similarity is the caller's `Similarity` function.
- The clock is out. `time.time`, `datetime.now` and `utcnow` become `now` and `currentYear` parameters; version strings and creation times come from the caller.
- Rounding and formatting are out: `round(...)`, percentage strings and the wording of issue and recommendation messages. Scores are exact reals. Python's `int()` of a score is modelled as truncation.
- AtsOptimizer.Analyze: uses the exact keyword score, where the source uses it rounded to one decimal (ml/ats_optimizer.py:174). Near a boundary this changes the outcome. Take 4 of 7 keywords matched, format 100, structure 75 and content 50. The model gives overall 70: ATS-friendly, grade C, pass rate 70. The source gets 57.1 for keywords and 69.985 overall: not friendly, grade D, pass rate 69.
- AtsOptimizer.GenerateRecommendations and AtsOptimizer.IdentifyCriticalIssues: compare the exact keyword score with 60 and 40, where the source compares the rounded one (ml/ats_optimizer.py:308, 369). The two differ only for a score within 0.05 below a threshold.
- ScreeningApi.AtsOf and ScreeningApi.AdjustedFit: the fit is scaled by the exact ATS score, where the source scales it by the score rounded to two decimals (backend/main.py:115, 211).
- SemanticMatcher.BatchMatch: sorts by the exact overall score, where the source sorts by the score rounded to two decimals (ml/semantic_matcher.py:56, 348-349). Results whose scores round to the same value keep their posting order in the source, but the model orders them by exact score.
- Floating point is out; reals are exact.
- The iteration order of Python sets is out. A set turned into a list (the skill gap, the complementary skills, the skills of the second API) is a Dafny `set`, or a list in first-insertion order, so no property depends on that order.
- Case folding covers ASCII only; Unicode case mapping is not modelled.
- File and network I/O are out: reports, model files, the registry's JSON file, `mkdir`, `rmtree`, `joblib` and uploads. The registry is the in-memory map.
  - Loading a model (`get_model`) is not part of this model.
  - Neither is merging caller metadata into a version's metadata file.
- Training and evaluation with scikit-learn are out. A training run is its metrics, version, path and times. Only the bookkeeping of `train_and_evaluate` is modelled: registration and the history record.
- ModelPipeline.ModelTrainer.AutoRetrainIfNeeded: requires the new run's metrics to contain an accuracy. `train_and_evaluate` always computes one, so the crash on a missing accuracy is not modelled.
- Performance.RateLimiter.GetStats: models the values `get_stats` would return. The source calls `get_wait_time` while holding the same non-reentrant lock, so it would block.
- Locks and threads are out, including the background job queue. All components are modelled sequentially.
- The `cached`, `rate_limit` and `monitor_performance` decorators are out. They key on an md5 hash of the call and wrap arbitrary functions.
- Performance.ConnectionPool.GetConnection: a new connection is `Created`. The source returns `None` as a placeholder for a connection it does not create.
- The `ModelMonitor` stores neither its alert list, which nothing fills, nor the input data of a prediction.
- Web routing, authentication, persistence and the ORM are out. So are the external LLM endpoints and the frontend.
  - The profile handler's storing of the percentage is part of the ORM update and is not modelled. The percentage itself is.
- The parse metadata of the resume parser is out: parse time, text length and word count.

## Findings

| source | as written | input that shows it | evidently intended | confidence | as-written member | corrected member |
|---|---|---|---|---|---|---|
| ml/semantic_matcher.py:188 | `entry.get("degree", "").lower()` calls `lower` on `None` when an entry's degree is present but `None`, which is what the parser stores for an entry without a degree keyword, so the education score raises | a resume whose one education entry has degree `None` and year "2018", against a required education of "Bachelor" | an entry without a degree counts as level 0 | not executed | SemanticMatcher.EducationMatchAsWritten | SemanticMatcher.EducationMatch |
| ml/resume_parser.py:282-285 | `re.findall` on a year pattern with one capturing group for the century returns that group, so the stored year is its century prefix "19" or "20" | an entry "Graduated 2018" is stored with year "20" | the last four-digit year, "2018" | not executed | ResumeParser.YearAsWrittenIsCentury | ResumeParser.YearOf |
