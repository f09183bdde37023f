# Skill-assessment engine and dashboard list logic, in Dafny

This project models the interview-assessment engine of a career dashboard.
It also models the small pieces of pure list logic that sit in three of the
dashboard's pages.

- **Question catalogue** (`InterviewQuestions`). The static question bank,
  filed by role id, and its two lookups: by role and optional difficulty,
  and by role and skill. The lookups take the bank as a parameter; the
  repository always passes `InterviewQuestionBank`.
- **Selector** (`Selection`). `generateAssessment` builds a working set:
  the role's questions at one difficulty, followed by the questions of every
  declared skill those do not cover. It then shuffles the set with
  Fisher–Yates (`shuffleArray`) and keeps the first `questionCount`.
- **Analyser** (`Analysis`, `Recommendations`). `analyzeResults` grades the
  answers and computes the overall percentage. It then groups the answers per
  skill in a `Map`, which keeps first-insertion order. Each skill is
  classified as a strength, a weakness or neither. Every weakness yields a
  skill gap, study suggestions and learning resources.
- **Jobs page** (`Jobs`). The job list filter: a case-insensitive search on
  title and company, a type choice, a location choice, and a minimum match.
- **Resume page** (`Resume`). Adding and removing profile skills, the
  required-field check on submit, and the mock resume score.
- **Cover-letters page** (`CoverLetters`). Creating and deleting letters,
  and the 200-character preview.

The shared vocabulary has its own modules:

- `Seqs`: JavaScript's order-preserving `filter` and `map`, plus
  subsequence and no-duplicate predicates.
- `Text`: `toLowerCase`, `trim` and `includes`.
- `SkillTypes`: the records and enumerations of `types/skills.ts`.
- `Wrappers`: `Option`.

Numbers are exact `real`s. An assessment with no questions has no score:
the code divides 0 by 0 (NaN), and the model returns `None`.

A skill answered correctly but too slowly is a weakness with a score of 100,
so `generateRecommendations` gives it no suggestions
(`Analysis.SlowButRightIsWeakness`).

Randomness and the clock are parameters:

- `Math.random()` draws for the two mock scores are a real `random` in [0, 1).
- The Fisher–Yates draws are an oracle sequence `choice` with `choice[i] <= i`.
- `Date.now()` and today's date are the new letter's `id` and `createdAt`.

## Model

| member | source | states |
|---|---|---|
| SkillTypes.ParseDifficulty | types/skills.ts:1-5 | a string is read as a difficulty exactly when it is that difficulty's run-time value, so the three levels are the only difficulties |
| SkillTypes.ParseQuestionType | types/skills.ts:7-13 | a string is read as a question type exactly when it is that type's run-time value ("System Design" for SystemDesign); there are five |
| SkillTypes.ParsePriority | types/skills.ts:53 | a gap priority is exactly one of "high", "medium", "low" |
| SkillTypes.ParseResourceType | types/skills.ts:84 | a resource type is exactly one of "course", "documentation", "practice", "tutorial" |
| InterviewQuestions.InterviewQuestionBankIsWellFormed | lib/interview-questions.ts:3-188 | every catalogue entry is filed under its own role, its correct answer indexes an option, its time limit is positive, and no id occurs twice |
| InterviewQuestions.RoleQuestionsWellFormed | lib/interview-questions.ts:3-188 | in a well-formed catalogue the questions of a role belong to that role, are valid, and are pairwise distinct |
| InterviewQuestions.GetQuestionsForRole | lib/interview-questions.ts:190-192 | the result is the subsequence of the role's list holding exactly its questions of the given difficulty; all of them without a difficulty; empty, not an error, for an unknown role |
| InterviewQuestions.KeepAllWhenUnfiltered | lib/interview-questions.ts:191 | without a difficulty the filter keeps the whole list |
| InterviewQuestions.GetQuestionsBySkill | lib/interview-questions.ts:194-196 | the result is the subsequence of the role's list holding exactly the questions whose skill equals the given one, of every difficulty; empty for an unknown role |
| InterviewQuestions.FrontendIntermediateIsReactHooks | lib/interview-questions.ts:4-93 | the frontend role has exactly one intermediate question, fe-react-1 |
| InterviewQuestions.SkillLookupIsCaseSensitive | lib/interview-questions.ts:194-196 | "React" finds fe-react-1 but "react" finds nothing |
| Selection.GapFill | lib/assessment.ts:18-23 | the appended questions are exactly the role's questions whose skill is one of the skills asked for |
| Selection.PoolIsEligibleQuestions | lib/assessment.ts:10-23 | the working set starts with the baseline and holds exactly the role's questions that have the requested difficulty or an uncovered declared skill |
| Selection.PoolCoversDeclaredSkills | lib/assessment.ts:13-23 | every declared skill the role has a question for is covered by the working set |
| Selection.UnknownRoleHasEmptyPool | lib/assessment.ts:10-23 | an unknown role gives an empty working set |
| Selection.GapFillNoDup | lib/assessment.ts:18-23 | distinct skills contribute distinct questions |
| Selection.DistinctSkillsGiveDistinctQuestions | lib/assessment.ts:13-23 | when the declared skills are distinct, no question is in the working set twice, since baseline and gap-fill share no skill |
| Selection.UncoveredSkillFetchedPerDeclaration | lib/assessment.ts:14-22 | an uncovered skill declared n times stays missing n times and has its questions appended n times |
| Selection.RepeatedSkillFetchedTwice | lib/assessment.ts:14-22 | an uncovered skill declared twice puts its questions into the working set twice, after the baseline |
| Selection.RepeatedSkillRepeatsQuestions | lib/assessment.ts:14-22 | declaring "Performance" twice for intermediate frontend gives [fe-react-1, fe-perf-1, fe-perf-1] |
| Selection.GapFillIgnoresDifficulty | lib/assessment.ts:19 | the gap-fill lookup does not filter by difficulty: declaring "Performance" brings the advanced fe-perf-1 into an intermediate assessment |
| Selection.Swap | lib/assessment.ts:135 | the two entries are exchanged and every other entry is unchanged; exchanging an entry with itself is the identity |
| Selection.SwapPermutes | lib/assessment.ts:135 | an exchange keeps every element with its multiplicity |
| Selection.Shuffle | lib/assessment.ts:131-138 | the result is a permutation of the input (same length, same multiset), and draws that never move anything return the input order |
| Selection.SliceLength | lib/assessment.ts:26 | `slice(0, count)` keeps `count` elements when there are that many and all of them otherwise; a negative count drops that many from the end, or everything when there are fewer |
| Selection.GenerateAssessment | lib/assessment.ts:4-27 | exactly `questionCount` questions when the working set has that many and a non-negative count is asked for; a negative count drops that many from the end; at most `questionCount` questions, exactly the sliced length of the working set, a sub-multiset of it (all of it when the count is large enough), each one eligible; nothing for an unknown role |
| Recommendations.GenerateRecommendations | lib/assessment.ts:140-154 | three suggestions, each naming the skill, below 80; none from 80 up |
| Recommendations.RecommendationsDependOnBandOnly | lib/assessment.ts:143-151 | two scores in the same band (below 50, 50 to 80, 80 up) give the same suggestions |
| Recommendations.GetResourcesForSkill | lib/assessment.ts:156-176 | a course, documentation and practice problems in that order, never a tutorial; each titled after the skill, at a URL ending in the lower-cased skill, all URLs distinct |
| Recommendations.ResourcesIdentifySkill | lib/assessment.ts:156-176 | the resource list determines its skill: two skills with the same resources are the same skill |
| Analysis.GradeOne | lib/assessment.ts:61-64 | an answer is correct iff it equals the correct index, and its efficiency times the time limit is the time taken |
| Analysis.CountCorrect | lib/assessment.ts:45 | the number of correct answers never exceeds the number of answers |
| Analysis.CountCorrectIsFilteredAnswers | lib/assessment.ts:45 | the count equals the length of the filtered list of correct answers |
| Analysis.OverallScore | lib/assessment.ts:45-46 | undefined exactly when there are no questions, otherwise a percentage in [0, 100] |
| Analysis.CountCorrectExtremes | lib/assessment.ts:45 | the count of correct answers is the total iff all are correct, and 0 iff none is |
| Analysis.OverallScoreExtremes | lib/assessment.ts:45-46 | for a non-empty assessment the score is 100 iff every answer is correct and 0 iff none is |
| Analysis.Tally | lib/assessment.ts:61-82 | reference statistics of one skill: at most as many correct answers as answers, one outcome per answer, empty when the skill was not asked |
| Analysis.TallyCountsAskedSkills | lib/assessment.ts:61-82 | a skill's tally holds answers exactly when the skill was asked |
| Analysis.TallyIsFilteredAnswers | lib/assessment.ts:72-82 | a skill's outcomes are the outcomes of exactly that skill's answers in question order, and its total is their number |
| Analysis.IndexOfSkill | lib/assessment.ts:66 | finds the entry holding the skill, or reports that no entry holds it |
| Analysis.Group | lib/assessment.ts:61-83 | the pass over the answers makes at most one entry per answer, and at least one when there are answers |
| Analysis.GroupIsPerSkillTally | lib/assessment.ts:61-96 | after the pass the map holds one entry per asked skill, each equal to that skill's tally and non-empty, in the order the skills were first asked |
| Analysis.EntryOfSkill | lib/assessment.ts:61-96 | a skill has a map entry iff it was asked, and the entry is its tally |
| Analysis.Classify | lib/assessment.ts:99-105 | strength iff score >= 80 and mean efficiency <= 1.2; weakness iff not a strength and score < 60 or mean efficiency > 2 |
| Analysis.MakeGap | lib/assessment.ts:106-117 | the gap names the skill, has current = skill score, required = 80, current + gap = 80, priority high iff current < 50 and never low, and the skill's outcomes |
| Analysis.MakeRecommendation | lib/assessment.ts:120-123 | a weak skill is recommended three resources (a course, its documentation, practice problems) titled after it |
| Analysis.QuestionAnalysisOf | lib/assessment.ts:84-94 | the per-question record copies text, skill, difficulty, time limit, explanation and related skills, with correctness and time taken |
| Analysis.AnalyzeResults | lib/assessment.ts:29-129 | score undefined iff no questions, else in [0, 100]; one question record per question in input order; one gap and one recommendation per weakness, aligned with the weakness list; every gap measured against 80 with priority high iff below 50 |
| Analysis.ClassificationFollowsTally | lib/assessment.ts:98-106 | a skill is listed as a strength (weakness) iff it was asked and its tally classifies it so |
| Analysis.GapsFollowTally | lib/assessment.ts:106-118 | each gap is built from its weakness's tally |
| Analysis.SkillsListedOnce | lib/assessment.ts:98-126 | no skill is listed twice, and none is both a strength and a weakness |
| Analysis.ListedInFirstAskedOrder | lib/assessment.ts:98-126 | strengths, and weaknesses, are listed in the order their skills were first asked |
| Analysis.FlawlessSkillIsStrength | lib/assessment.ts:103-105 | a skill answered correctly every time within 1.2 times the time limits is a strength and not a weakness |
| Analysis.LowScoreIsWeakness | lib/assessment.ts:106-117 | an asked skill scoring below 60 is a weakness whose gap has its score, is high priority iff below 50, and carries three suggestions |
| Analysis.TimeDrivenWeakness | lib/assessment.ts:104-113 | a weakness scoring 60 or more took more than twice the time limits on average; above 80 its gap is negative |
| Analysis.EmptyAssessment | lib/assessment.ts:45-46 | no questions give an undefined score and empty lists |
| Analysis.HalfRightIsMediumGap | lib/assessment.ts:29-129 | two React answers, right in 90 s and wrong in 300 s of 180: score 50, React the only weakness, gap 30, medium priority, three suggestions, two records |
| Analysis.SlowButRightIsWeakness | lib/assessment.ts:98-117 | a correct answer taking three times the limit gives score 100, a weakness with gap -20, medium priority and no suggestions |
| Text.Lower | app/dashboard/jobs/page.tsx:111-112 | lower-casing keeps the length, leaves no upper-case ASCII letter, keeps every other character, and maps each upper-case letter to its lower-case partner |
| Text.ContainsIffOccurs | app/dashboard/jobs/page.tsx:111-112 | `includes` holds exactly when the searched text occurs at some position |
| Text.Trim | app/dashboard/resume/page.tsx:68 | the trimmed string neither starts nor ends with whitespace |
| Text.TrimStripsOnlyWhitespace | app/dashboard/resume/page.tsx:68 | the input is whitespace, then the trimmed string, then whitespace |
| Text.TrimIdempotent | app/dashboard/resume/page.tsx:68 | trimming twice is trimming once |
| Text.ContainsInfix | app/dashboard/jobs/page.tsx:111-112 | `includes` finds every infix |
| Jobs.FilterJobs | app/dashboard/jobs/page.tsx:110-118 | the shown jobs are an order-preserving subsequence holding every job passing all four tests as often as it is listed, and no other job; each meets the minimum match |
| Jobs.SearchIgnoresCase | app/dashboard/jobs/page.tsx:111-112 | the search gives the same answer for the search text and its lower-cased form |
| Jobs.EmptySearchMatchesAll | app/dashboard/jobs/page.tsx:111-112 | the empty search matches every job |
| Jobs.TitleInfixMatches | app/dashboard/jobs/page.tsx:111 | a job whose lower-cased title contains the lower-cased search matches it |
| Jobs.NoRestrictionKeepsAll | app/dashboard/jobs/page.tsx:113-115 | "all" for type and location, an empty search and a minimum every job meets keep the whole list |
| Jobs.RaisingMinMatchNarrows | app/dashboard/jobs/page.tsx:115 | raising the minimum match only removes jobs |
| Jobs.ChoosingNarrows | app/dashboard/jobs/page.tsx:113-114 | choosing a type or location instead of "all" only removes jobs |
| Jobs.InitialFiltersShowAll | app/dashboard/jobs/page.tsx:47-118 | the initial filters show all three listings |
| Jobs.ContractFilterFindsReactDeveloper | app/dashboard/jobs/page.tsx:47-118 | the "Contract" type shows only the React developer role |
| Jobs.HighMinimumKeepsBestMatch | app/dashboard/jobs/page.tsx:47-118 | a minimum match of 90 shows only the senior frontend role |
| Resume.AddSkill | app/dashboard/resume/page.tsx:67-75 | the list changes iff the trimmed skill is non-empty and not yet listed, and then the trimmed skill is appended and the draft cleared; otherwise nothing changes; other fields and the absence of duplicates are kept |
| Resume.RemoveSkill | app/dashboard/resume/page.tsx:77-82 | every occurrence of the skill goes, every other skill stays as often as it was listed and in order, and the other fields are unchanged |
| Resume.RemoveAbsentSkill | app/dashboard/resume/page.tsx:77-82 | removing an unlisted skill changes nothing |
| Resume.RemoveUndoesAdd | app/dashboard/resume/page.tsx:67-82 | removing the skill just added restores the profile |
| Resume.AddSkillSettles | app/dashboard/resume/page.tsx:67-75 | pressing "add" twice is the same as pressing it once |
| Resume.SubmitProfile | app/dashboard/resume/page.tsx:84-100 | submission is accepted iff job role, experience, industry and goals are all non-empty; a rejected one changes nothing, an accepted one opens the upload tab |
| Resume.SkillsDoNotAffectSubmission | app/dashboard/resume/page.tsx:86 | adding or removing skills never changes whether the profile can be submitted |
| Resume.BlankProfileRejected | app/dashboard/resume/page.tsx:33-46 | the blank profile the page starts with is rejected |
| Resume.ProfileBonus | app/dashboard/resume/page.tsx:349-352 | the profile bonus lies between 0 and 20 |
| Resume.MockScore | app/dashboard/resume/page.tsx:346-358 | the mock resume score lies in [70, 100) |
| Resume.ClampNeverBinds | app/dashboard/resume/page.tsx:357 | the clamp to [0, 100] never takes effect |
| Resume.AddingSkillNeverLowersScore | app/dashboard/resume/page.tsx:350 | adding a skill never lowers the score for the same draw |
| Resume.FullProfileScoresAtLeast90 | app/dashboard/resume/page.tsx:346-357 | a profile earning every bonus scores at least 90 |
| CoverLetters.MockLetterScore | app/dashboard/cover-letters/page.tsx:56 | the mock letter score is an integer in [80, 99] |
| CoverLetters.Create | app/dashboard/cover-letters/page.tsx:48-61 | the new letter, built from the draft, comes first and the old letters follow in order; the draft is cleared and the dialog closed |
| CoverLetters.Delete | app/dashboard/cover-letters/page.tsx:76-79 | exactly the letters with other ids remain, each as often as before, in order |
| CoverLetters.DeleteAbsentId | app/dashboard/cover-letters/page.tsx:79 | deleting an id no letter carries changes nothing |
| CoverLetters.DeleteUndoesCreate | app/dashboard/cover-letters/page.tsx:59-79 | deleting a freshly created letter with a new id restores the list |
| CoverLetters.Preview | app/dashboard/cover-letters/page.tsx:169-171 | content up to 200 characters is shown unchanged; longer content shows its first 200 characters followed by "..." |
| CoverLetters.PreviewIdempotent | app/dashboard/cover-letters/page.tsx:169-171 | the preview of a preview is the same preview |
| CoverLetters.PreviewKeepsOpening | app/dashboard/cover-letters/page.tsx:169-171 | a preview starts with the content's first 200 characters |

## Left out

- Rendering, hooks, toasts, dialogs and routing are not modelled. The
  resume score animation timer, the simulated upload delays and
  `generateMockAnalysis` are left out too: they are presentation and timing.
- The skills page's `fetch`, the Supabase client and types, and the
  middleware are not part of this model. They are network and configuration
  code.
- Randomness and the clock are parameters, as described above. The model
  states what holds for every draw, not distributions.
- IEEE floating point is not modelled; scores and ratios are exact reals.
  Neither is NaN, except as the `None` overall score.
- `Text.Lower` lower-cases ASCII letters only, where `toLowerCase` covers
  all of Unicode.
- String lengths count characters, not UTF-16 code units. This affects
  `Resume.ProfileBonus` and `CoverLetters.Preview` on text outside the
  Basic Multilingual Plane.
- `Analysis.AnalyzeResults` requires one answer and one time per question,
  and positive time limits. Mismatched lengths make the code read
  `undefined` or throw. A zero time limit makes the ratio infinite or NaN.
  Every catalogue question has a positive limit
  (`InterviewQuestions.InterviewQuestionBankIsWellFormed`).
- `Selection.GenerateAssessment` takes `difficulty` and `questionCount`
  explicitly; the defaults (Intermediate, 15) are not modelled.
- Selection.SliceLength: the count is an integer. A fractional
  `questionCount`, which `slice` truncates toward zero, is not modelled.
- `Selection.GenerateAssessment` states the result as a sub-multiset of
  the working set, not its exact order. The order is whatever the draws
  make it; `Selection.Shuffle` states the permutation.
- A role id that names an `Object.prototype` member, such as "constructor",
  makes the code's `?.filter` throw. The model treats every role outside
  the catalogue as unknown.
- `shuffleArray` copies its input before swapping. Dafny sequences are
  values, so the caller's sequence is never changed and no copy is modelled.
- Resume submission does not model the toast messages.
- `CoverLetters.Create` does not model the `try`/`catch`: nothing in the
  handler can throw once the clock and the draw are parameters.
- The cover-letter code comments the mock score as "between 80-100". The
  expression yields 80 to 99, and `CoverLetters.MockLetterScore` states
  that range.
