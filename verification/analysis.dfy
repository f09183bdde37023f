/** The grading of a finished assessment (`analyzeResults`): overall score,
    per-skill statistics gathered in a `Map` keyed by skill, the
    strength/weakness classification, and the gaps and resources produced
    for every weakness.  Numbers are exact reals; the 0/0 (NaN)
    overall score of an empty assessment is `None`. */
module Analysis {
  import opened Wrappers
  import opened Seqs
  import opened SkillTypes
  import opened Recommendations
  import opened Text

  /** A skill is a strength at or above this score ... */
  const StrengthScore: real := 80.0
  /** ... when its answers took at most this multiple of the time limits. */
  const StrengthEfficiency: real := 1.2
  /** A skill is a weakness below this score ... */
  const WeaknessScore: real := 60.0
  /** ... or when its answers took more than this multiple of the limits. */
  const WeaknessEfficiency: real := 2.0
  /** The score every skill gap is measured against. */
  const RequiredScore: real := 80.0
  /** Gaps whose score is below this are high priority. */
  const HighPriorityBelow: real := 50.0

  /** What the analysis reads off one answered question. */
  datatype Graded = Graded(skill: string, isCorrect: bool, efficiency: real, outcome: QuestionOutcome)

  /** What the caller must supply: one answer and one time per question, and
      positive time limits (every catalogue question has one), so that each
      answer's time-efficiency ratio is defined. */
  ghost predicate WellFormedInput(questions: seq<Question>, answers: seq<int>, timesTaken: seq<real>) {
    && |answers| == |questions|
    && |timesTaken| == |questions|
    && forall i :: 0 <= i < |questions| ==> questions[i].timeLimit > 0
  }

  /** An answer is correct when it is the question's `correctAnswer`; its
      efficiency is the time taken as a fraction of the time limit. */
  function GradeOne(q: Question, answer: int, time: real): (g: Graded)
    requires q.timeLimit > 0
    ensures g.skill == q.skill
    ensures g.isCorrect <==> answer == q.correctAnswer
    ensures g.efficiency * (q.timeLimit as real) == time
    ensures g.outcome.question == q.question && g.outcome.explanation == q.explanation
    ensures g.outcome.timeTaken == time && g.outcome.isCorrect == g.isCorrect
  {
    var isCorrect := answer == q.correctAnswer;
    Graded(q.skill, isCorrect, time / (q.timeLimit as real), QuestionOutcome(q.question, isCorrect, time, q.explanation))
  }

  function Grade(questions: seq<Question>, answers: seq<int>, timesTaken: seq<real>): (gs: seq<Graded>)
    requires WellFormedInput(questions, answers, timesTaken)
    ensures |gs| == |questions|
    ensures forall i :: 0 <= i < |gs| ==> gs[i] == GradeOne(questions[i], answers[i], timesTaken[i])
  {
    seq(|questions|, i requires 0 <= i < |questions| => GradeOne(questions[i], answers[i], timesTaken[i]))
  }

  /** Number of correct answers. */
  function CountCorrect(gs: seq<Graded>): (n: nat)
    ensures n <= |gs|
    decreases |gs|
  {
    if |gs| == 0 then 0
    else CountCorrect(gs[..|gs| - 1]) + (if gs[|gs| - 1].isCorrect then 1 else 0)
  }

  /** The overall score: percentage of correct answers; undefined (NaN in
      TypeScript) when there were no questions. */
  function OverallScore(gs: seq<Graded>): (r: Option<real>)
    ensures r.None? <==> |gs| == 0
    ensures r.Some? ==> 0.0 <= r.value <= 100.0
  {
    if |gs| == 0 then None
    else
      var ratio := CountCorrect(gs) as real / |gs| as real;
      assert ratio * (|gs| as real) == CountCorrect(gs) as real;
      Some(ratio * 100.0)
  }

  function IsCorrect(g: Graded): bool {
    g.isCorrect
  }

  /** The count is the length of the list of correct answers
      (`answers.filter(...)`), read front to back. */
  lemma {:induction false} CountCorrectIsFilteredAnswers(gs: seq<Graded>)
    ensures CountCorrect(gs) == |Filter(gs, IsCorrect)|
    decreases |gs|
  {
    if |gs| > 0 {
      var prefix, g := gs[..|gs| - 1], gs[|gs| - 1];
      CountCorrectIsFilteredAnswers(prefix);
      assert prefix + [g] == gs;
      FilterSnoc(prefix, g, IsCorrect);
    }
  }

  lemma {:induction false} CountCorrectExtremes(gs: seq<Graded>)
    ensures CountCorrect(gs) == |gs| <==> forall i :: 0 <= i < |gs| ==> gs[i].isCorrect
    ensures CountCorrect(gs) == 0 <==> forall i :: 0 <= i < |gs| ==> !gs[i].isCorrect
    decreases |gs|
  {
    if |gs| > 0 {
      var prefix := gs[..|gs| - 1];
      CountCorrectExtremes(prefix);
      assert forall i :: 0 <= i < |prefix| ==> prefix[i] == gs[i];
    }
  }

  lemma RatioExtremes(c: real, n: real)
    requires n > 0.0
    ensures c / n == 1.0 <==> c == n
    ensures c / n == 0.0 <==> c == 0.0
  {
    assert (c / n) * n == c;
  }

  /** The overall score is 100 exactly when every answer is correct and 0
      exactly when none is. */
  lemma OverallScoreExtremes(gs: seq<Graded>)
    requires |gs| > 0
    ensures OverallScore(gs) == Some(100.0) <==> forall i :: 0 <= i < |gs| ==> gs[i].isCorrect
    ensures OverallScore(gs) == Some(0.0) <==> forall i :: 0 <= i < |gs| ==> !gs[i].isCorrect
  {
    CountCorrectExtremes(gs);
    var c, n := CountCorrect(gs) as real, |gs| as real;
    var ratio := c / n;
    assert OverallScore(gs) == Some(ratio * 100.0);
    RatioExtremes(c, n);
  }

  /** The per-skill entry of the `skillAnalysis` map of `analyzeResults`. */
  datatype SkillStats = SkillStats(skill: string, total: nat, correct: nat, efficiency: real, outcomes: seq<QuestionOutcome>)

  function EmptyStats(skill: string): SkillStats {
    SkillStats(skill, 0, 0, 0.0, [])
  }

  /** One answer counted into a skill's statistics. */
  function Add(st: SkillStats, g: Graded): SkillStats {
    SkillStats(st.skill, st.total + 1, st.correct + (if g.isCorrect then 1 else 0),
               st.efficiency + g.efficiency, st.outcomes + [g.outcome])
  }

  /** Reference definition: the statistics of one skill, counting only the
      answers to that skill's questions, in question order. */
  function Tally(gs: seq<Graded>, skill: string): (st: SkillStats)
    ensures st.skill == skill
    ensures st.correct <= st.total <= |gs|
    ensures |st.outcomes| == st.total
    ensures st.total == 0 ==> st == EmptyStats(skill)
    decreases |gs|
  {
    if |gs| == 0 then EmptyStats(skill)
    else
      var prev := Tally(gs[..|gs| - 1], skill);
      if gs[|gs| - 1].skill == skill then Add(prev, gs[|gs| - 1]) else prev
  }

  /** Position of the first answer to a question of `skill`, or |gs| when
      the skill was not asked. */
  function FirstIndex(gs: seq<Graded>, skill: string): (k: nat)
    ensures k <= |gs|
    ensures forall j :: 0 <= j < k ==> gs[j].skill != skill
    ensures k < |gs| ==> gs[k].skill == skill
    decreases |gs|
  {
    if |gs| == 0 then 0
    else
      var k := FirstIndex(gs[..|gs| - 1], skill);
      if k < |gs| - 1 then k
      else if gs[|gs| - 1].skill == skill then |gs| - 1
      else |gs|
  }

  /** A skill has answers in its tally exactly when it was asked. */
  lemma {:induction false} TallyCountsAskedSkills(gs: seq<Graded>, skill: string)
    ensures Tally(gs, skill).total > 0 <==> FirstIndex(gs, skill) < |gs|
    decreases |gs|
  {
    if |gs| > 0 {
      TallyCountsAskedSkills(gs[..|gs| - 1], skill);
    }
  }

  /** Where a skill's entry sits in the map's entry list, or -1. */
  function IndexOfSkill(acc: seq<SkillStats>, skill: string): (k: int)
    ensures -1 <= k < |acc|
    ensures k >= 0 ==> acc[k].skill == skill
    ensures k < 0 ==> forall j :: 0 <= j < |acc| ==> acc[j].skill != skill
    decreases |acc|
  {
    if |acc| == 0 then -1
    else if acc[|acc| - 1].skill == skill then |acc| - 1
    else IndexOfSkill(acc[..|acc| - 1], skill)
  }

  /** One `skillAnalysis.set(skill, …)`: an existing entry is updated in
      place, a new skill is appended (a `Map` keeps first-insertion order). */
  function Insert(acc: seq<SkillStats>, g: Graded): seq<SkillStats> {
    var k := IndexOfSkill(acc, g.skill);
    if k >= 0 then acc[k := Add(acc[k], g)] else acc + [Add(EmptyStats(g.skill), g)]
  }

  /** The map's entries after the pass over all answers. */
  function Group(gs: seq<Graded>): (groups: seq<SkillStats>)
    ensures |groups| <= |gs|
    ensures |gs| > 0 ==> |groups| > 0
    decreases |gs|
  {
    if |gs| == 0 then [] else Insert(Group(gs[..|gs| - 1]), gs[|gs| - 1])
  }

  function SkillOf(st: SkillStats): string {
    st.skill
  }

  ghost predicate DistinctSkills(groups: seq<SkillStats>) {
    forall k, l :: 0 <= k < l < |groups| ==> groups[k].skill != groups[l].skill
  }

  /** Every entry is its skill's tally over `gs`, and non-empty. */
  ghost predicate Tallied(groups: seq<SkillStats>, gs: seq<Graded>) {
    forall k :: 0 <= k < |groups| ==> groups[k] == Tally(gs, groups[k].skill) && groups[k].total > 0
  }

  /** Every skill asked in `gs` has an entry. */
  ghost predicate Covers(groups: seq<SkillStats>, gs: seq<Graded>) {
    forall i :: 0 <= i < |gs| ==> IndexOfSkill(groups, gs[i].skill) >= 0
  }

  /** Entries are in the order their skills were first asked. */
  ghost predicate FirstAskedOrder(groups: seq<SkillStats>, gs: seq<Graded>) {
    forall k, l :: 0 <= k < l < |groups| ==> FirstIndex(gs, groups[k].skill) < FirstIndex(gs, groups[l].skill)
  }

  /** Entries are what the map holds after grouping the answers `gs`: one
      per asked skill, each equal to that skill's tally, in the order the
      skills were first asked. */
  ghost predicate GroupedBy(groups: seq<SkillStats>, gs: seq<Graded>) {
    DistinctSkills(groups) && Tallied(groups, gs) && Covers(groups, gs) && FirstAskedOrder(groups, gs)
  }

  lemma DistinctSkillsByIndex(groups: seq<SkillStats>)
    ensures NoDup(MapSeq(groups, SkillOf)) <==> DistinctSkills(groups)
  {
    var m := MapSeq(groups, SkillOf);
    assert forall k :: 0 <= k < |groups| ==> m[k] == groups[k].skill;
  }

  /** The map's entries are exactly the per-skill tallies. */
  lemma {:induction false} GroupIsPerSkillTally(gs: seq<Graded>)
    ensures GroupedBy(Group(gs), gs)
    decreases |gs|
  {
    if |gs| > 0 {
      var prefix, groups := gs[..|gs| - 1], Group(gs[..|gs| - 1]);
      GroupIsPerSkillTally(prefix);
      EarlierSkills(gs, groups);
      if IndexOfSkill(groups, gs[|gs| - 1].skill) >= 0 {
        UpdateTallied(gs, groups);
        UpdateCovers(gs, groups);
        UpdateKeepsOrder(gs, groups);
      } else {
        NewSkill(gs, groups);
        AppendTallied(gs, groups);
        AppendCovers(gs, groups);
        AppendKeepsOrder(gs, groups);
      }
    }
  }

  /** Skills already in the map were first asked before the latest answer. */
  lemma EarlierSkills(gs: seq<Graded>, groups: seq<SkillStats>)
    requires |gs| > 0 && Tallied(groups, gs[..|gs| - 1])
    ensures forall k :: 0 <= k < |groups| ==>
      FirstIndex(gs, groups[k].skill) == FirstIndex(gs[..|gs| - 1], groups[k].skill) < |gs| - 1
  {
    var prefix := gs[..|gs| - 1];
    forall k | 0 <= k < |groups|
      ensures FirstIndex(gs, groups[k].skill) == FirstIndex(prefix, groups[k].skill) < |prefix|
    {
      TallyCountsAskedSkills(prefix, groups[k].skill);
    }
  }

  lemma UpdateTallied(gs: seq<Graded>, groups: seq<SkillStats>)
    requires |gs| > 0 && IndexOfSkill(groups, gs[|gs| - 1].skill) >= 0
    requires DistinctSkills(groups) && Tallied(groups, gs[..|gs| - 1])
    ensures Tallied(Insert(groups, gs[|gs| - 1]), gs)
  {
    var g := gs[|gs| - 1];
    var k := IndexOfSkill(groups, g.skill);
    var next := groups[k := Add(groups[k], g)];
    assert Insert(groups, g) == next;
    forall j | 0 <= j < |next|
      ensures next[j] == Tally(gs, next[j].skill) && next[j].total > 0
    {
      if j != k {
        assert groups[j].skill != g.skill;
        assert next[j] == groups[j];
      }
    }
  }

  lemma UpdateCovers(gs: seq<Graded>, groups: seq<SkillStats>)
    requires |gs| > 0 && IndexOfSkill(groups, gs[|gs| - 1].skill) >= 0
    requires Covers(groups, gs[..|gs| - 1])
    ensures Covers(Insert(groups, gs[|gs| - 1]), gs)
  {
    var g := gs[|gs| - 1];
    var k := IndexOfSkill(groups, g.skill);
    var next := groups[k := Add(groups[k], g)];
    assert Insert(groups, g) == next;
    CoversExtend(gs, groups, next, k);
  }

  /** An entry list that keeps the earlier entries' skills in place and
      has an entry for the latest answer's skill covers all answers. */
  lemma CoversExtend(gs: seq<Graded>, groups: seq<SkillStats>, next: seq<SkillStats>, at: nat)
    requires |gs| > 0 && Covers(groups, gs[..|gs| - 1])
    requires |groups| <= |next| && forall j :: 0 <= j < |groups| ==> next[j].skill == groups[j].skill
    requires at < |next| && next[at].skill == gs[|gs| - 1].skill
    ensures Covers(next, gs)
  {
    var prefix := gs[..|gs| - 1];
    forall i | 0 <= i < |gs|
      ensures IndexOfSkill(next, gs[i].skill) >= 0
    {
      if i < |prefix| {
        assert prefix[i] == gs[i];
        var m := IndexOfSkill(groups, prefix[i].skill);
        assert next[m].skill == gs[i].skill;
      } else {
        assert next[at].skill == gs[i].skill;
      }
    }
  }

  lemma UpdateKeepsOrder(gs: seq<Graded>, groups: seq<SkillStats>)
    requires |gs| > 0 && IndexOfSkill(groups, gs[|gs| - 1].skill) >= 0
    requires DistinctSkills(groups) && FirstAskedOrder(groups, gs[..|gs| - 1])
    requires forall k :: 0 <= k < |groups| ==>
      FirstIndex(gs, groups[k].skill) == FirstIndex(gs[..|gs| - 1], groups[k].skill)
    ensures DistinctSkills(Insert(groups, gs[|gs| - 1])) && FirstAskedOrder(Insert(groups, gs[|gs| - 1]), gs)
  {
    var g := gs[|gs| - 1];
    var k := IndexOfSkill(groups, g.skill);
    var next := groups[k := Add(groups[k], g)];
    assert Insert(groups, g) == next;
    assert forall j :: 0 <= j < |next| ==> next[j].skill == groups[j].skill;
  }

  /** A skill without an entry has not been asked before. */
  lemma NewSkill(gs: seq<Graded>, groups: seq<SkillStats>)
    requires |gs| > 0 && IndexOfSkill(groups, gs[|gs| - 1].skill) < 0
    requires Covers(groups, gs[..|gs| - 1])
    ensures Tally(gs[..|gs| - 1], gs[|gs| - 1].skill) == EmptyStats(gs[|gs| - 1].skill)
    ensures FirstIndex(gs, gs[|gs| - 1].skill) == |gs| - 1
  {
    var prefix, g := gs[..|gs| - 1], gs[|gs| - 1];
    forall i | 0 <= i < |prefix|
      ensures prefix[i].skill != g.skill
    {
      var m := IndexOfSkill(groups, prefix[i].skill);
      assert groups[m].skill == prefix[i].skill;
    }
    assert FirstIndex(prefix, g.skill) == |prefix|;
    TallyCountsAskedSkills(prefix, g.skill);
  }

  lemma AppendTallied(gs: seq<Graded>, groups: seq<SkillStats>)
    requires |gs| > 0 && IndexOfSkill(groups, gs[|gs| - 1].skill) < 0
    requires Tallied(groups, gs[..|gs| - 1])
    requires Tally(gs[..|gs| - 1], gs[|gs| - 1].skill) == EmptyStats(gs[|gs| - 1].skill)
    ensures Tallied(Insert(groups, gs[|gs| - 1]), gs)
  {
    var g := gs[|gs| - 1];
    var next := groups + [Add(EmptyStats(g.skill), g)];
    assert Insert(groups, g) == next;
    forall j | 0 <= j < |next|
      ensures next[j] == Tally(gs, next[j].skill) && next[j].total > 0
    {
      if j < |groups| {
        assert next[j] == groups[j];
        assert groups[j].skill != g.skill;
      }
    }
  }

  lemma AppendCovers(gs: seq<Graded>, groups: seq<SkillStats>)
    requires |gs| > 0 && IndexOfSkill(groups, gs[|gs| - 1].skill) < 0
    requires Covers(groups, gs[..|gs| - 1])
    ensures Covers(Insert(groups, gs[|gs| - 1]), gs)
  {
    var g := gs[|gs| - 1];
    var next := groups + [Add(EmptyStats(g.skill), g)];
    assert Insert(groups, g) == next;
    CoversExtend(gs, groups, next, |groups|);
  }

  lemma AppendKeepsOrder(gs: seq<Graded>, groups: seq<SkillStats>)
    requires |gs| > 0 && IndexOfSkill(groups, gs[|gs| - 1].skill) < 0
    requires DistinctSkills(groups) && FirstAskedOrder(groups, gs[..|gs| - 1])
    requires forall k :: 0 <= k < |groups| ==>
      FirstIndex(gs, groups[k].skill) == FirstIndex(gs[..|gs| - 1], groups[k].skill) < |gs| - 1
    requires FirstIndex(gs, gs[|gs| - 1].skill) == |gs| - 1
    ensures DistinctSkills(Insert(groups, gs[|gs| - 1])) && FirstAskedOrder(Insert(groups, gs[|gs| - 1]), gs)
  {
    var g := gs[|gs| - 1];
    var next := groups + [Add(EmptyStats(g.skill), g)];
    assert Insert(groups, g) == next;
    assert next[|groups|].skill == g.skill;
    assert forall j :: 0 <= j < |groups| ==> next[j] == groups[j];
  }

  /** `analysis.correct / analysis.total` and the like, for a non-empty
      entry; 0 for an empty one (which the map never holds). */
  function Rate(amount: real, total: nat): real {
    if total == 0 then 0.0 else amount / total as real
  }

  /** Percentage of the skill's questions answered correctly. */
  function SkillScore(st: SkillStats): real {
    Rate(st.correct as real, st.total) * 100.0
  }

  /** Mean fraction of the time limit the skill's answers used. */
  function AverageEfficiency(st: SkillStats): real {
    Rate(st.efficiency, st.total)
  }

  datatype Verdict = Strength | Weakness | Neither

  /** Strength when the score is high and the answers were quick enough;
      otherwise weakness when the score is low or the answers were slow. */
  function Classify(st: SkillStats): (v: Verdict)
    ensures v == Strength <==> SkillScore(st) >= StrengthScore && AverageEfficiency(st) <= StrengthEfficiency
    ensures v == Weakness <==>
      !(SkillScore(st) >= StrengthScore && AverageEfficiency(st) <= StrengthEfficiency) &&
      (SkillScore(st) < WeaknessScore || AverageEfficiency(st) > WeaknessEfficiency)
  {
    var score, efficiency := SkillScore(st), AverageEfficiency(st);
    if score >= StrengthScore && efficiency <= StrengthEfficiency then Strength
    else if score < WeaknessScore || efficiency > WeaknessEfficiency then Weakness
    else Neither
  }

  function IsStrength(st: SkillStats): bool {
    Classify(st) == Strength
  }

  function IsWeakness(st: SkillStats): bool {
    Classify(st) == Weakness
  }

  /** The gap recorded for a weak skill. */
  function MakeGap(st: SkillStats): (gap: SkillGap)
    ensures gap.skill == st.skill && gap.current == SkillScore(st)
    ensures gap.required == RequiredScore && gap.current + gap.gap == RequiredScore
    ensures gap.priority == High <==> gap.current < HighPriorityBelow
    ensures gap.priority != Low
    ensures gap.questionAnalysis == st.outcomes
  {
    var score := SkillScore(st);
    SkillGap(st.skill, score, RequiredScore, RequiredScore - score,
             if score < HighPriorityBelow then High else Medium,
             GenerateRecommendations(st.skill, score), st.outcomes)
  }

  /** The learning resources recommended for a weak skill: a course, its
      documentation and practice problems, each titled after the skill. */
  function MakeRecommendation(st: SkillStats): (rec: Recommendation)
    ensures rec.skill == st.skill && |rec.resources| == 3
    ensures rec.resources[0].kind == Course && rec.resources[1].kind == Documentation
            && rec.resources[2].kind == Practice
    ensures forall k :: 0 <= k < |rec.resources| ==> IsPrefix(st.skill, rec.resources[k].title)
  {
    Recommendation(st.skill, GetResourcesForSkill(st.skill))
  }

  /** The `questionAnalysis` record of one answered question. */
  function QuestionAnalysisOf(q: Question, answer: int, time: real): (a: QuestionAnalysis)
    ensures a.isCorrect <==> answer == q.correctAnswer
    ensures a.question == q.question && a.skill == q.skill && a.difficulty == q.difficulty
    ensures a.timeTaken == time && a.timeLimit == q.timeLimit
    ensures a.explanation == q.explanation && a.relatedSkills == q.relatedSkills
  {
    QuestionAnalysis(q.question, q.skill, q.difficulty, answer == q.correctAnswer, time,
                     q.timeLimit, q.explanation, q.relatedSkills)
  }

  /** `analyzeResults`.  The role is not consulted. */
  function AnalyzeResults(roleId: string, questions: seq<Question>, answers: seq<int>, timesTaken: seq<real>): (r: AssessmentResult)
    requires WellFormedInput(questions, answers, timesTaken)
    ensures r.score.None? <==> |questions| == 0
    ensures r.score.Some? ==> 0.0 <= r.score.value <= 100.0
    ensures |r.questionAnalysis| == |questions|
    ensures forall i :: 0 <= i < |questions| ==>
      r.questionAnalysis[i] == QuestionAnalysisOf(questions[i], answers[i], timesTaken[i])
    ensures |r.skillGaps| == |r.weaknesses| && |r.recommendations| == |r.weaknesses|
    ensures forall k :: 0 <= k < |r.weaknesses| ==>
      && r.skillGaps[k].skill == r.weaknesses[k]
      && r.recommendations[k] == Recommendation(r.weaknesses[k], GetResourcesForSkill(r.weaknesses[k]))
    ensures forall k :: 0 <= k < |r.skillGaps| ==>
      && r.skillGaps[k].required == RequiredScore
      && r.skillGaps[k].current + r.skillGaps[k].gap == RequiredScore
      && (r.skillGaps[k].priority == High <==> r.skillGaps[k].current < HighPriorityBelow)
      && r.skillGaps[k].priority != Low
  {
    var gs := Grade(questions, answers, timesTaken);
    var groups := Group(gs);
    var strong := Filter(groups, IsStrength);
    var weak := Filter(groups, IsWeakness);
    AssessmentResult(
      OverallScore(gs),
      MapSeq(weak, MakeGap),
      MapSeq(strong, SkillOf),
      MapSeq(weak, SkillOf),
      MapSeq(weak, MakeRecommendation),
      seq(|questions|, i requires 0 <= i < |questions| => QuestionAnalysisOf(questions[i], answers[i], timesTaken[i])))
  }

  /** The statistics `analyzeResults` gathers for `skill`. */
  ghost function SkillTally(questions: seq<Question>, answers: seq<int>, timesTaken: seq<real>, skill: string): SkillStats
    requires WellFormedInput(questions, answers, timesTaken)
  {
    Tally(Grade(questions, answers, timesTaken), skill)
  }

  ghost predicate Asked(questions: seq<Question>, skill: string) {
    exists i :: 0 <= i < |questions| && questions[i].skill == skill
  }

  function HasSkill(skill: string): Graded -> bool {
    (g: Graded) => g.skill == skill
  }

  function OutcomeOf(g: Graded): QuestionOutcome {
    g.outcome
  }

  /** The tally is an independent reading of the answers: its outcome list
      is the outcomes of the skill's questions, in question order, and its
      counts are the number of those answers and of the correct ones. */
  lemma {:induction false} TallyIsFilteredAnswers(gs: seq<Graded>, skill: string)
    ensures Tally(gs, skill).outcomes == MapSeq(Filter(gs, HasSkill(skill)), OutcomeOf)
    ensures Tally(gs, skill).total == |Filter(gs, HasSkill(skill))|
    decreases |gs|
  {
    if |gs| > 0 {
      var prefix, g := gs[..|gs| - 1], gs[|gs| - 1];
      var p := HasSkill(skill);
      TallyIsFilteredAnswers(prefix, skill);
      assert gs == prefix + [g];
      FilterSnoc(prefix, g, p);
      var before := Filter(prefix, p);
      if g.skill == skill {
        assert Filter(gs, p) == before + [g];
        MapSeqSnoc(before, g, OutcomeOf);
        assert Tally(gs, skill) == Add(Tally(prefix, skill), g);
      } else {
        assert Filter(gs, p) == before;
        assert Tally(gs, skill) == Tally(prefix, skill);
      }
    }
  }

  /** A skill has a map entry exactly when it was asked, and that entry is
      the skill's tally. */
  lemma EntryOfSkill(gs: seq<Graded>, groups: seq<SkillStats>, skill: string)
    requires GroupedBy(groups, gs)
    ensures (exists k :: 0 <= k < |groups| && groups[k].skill == skill) <==> FirstIndex(gs, skill) < |gs|
    ensures forall k :: 0 <= k < |groups| && groups[k].skill == skill ==> groups[k] == Tally(gs, skill)
  {
    TallyCountsAskedSkills(gs, skill);
    var f := FirstIndex(gs, skill);
    if f < |gs| {
      var k := IndexOfSkill(groups, gs[f].skill);
      assert groups[k].skill == skill;
    }
  }

  lemma AskedIsFirstIndex(questions: seq<Question>, answers: seq<int>, timesTaken: seq<real>, skill: string)
    requires WellFormedInput(questions, answers, timesTaken)
    ensures Asked(questions, skill) <==> FirstIndex(Grade(questions, answers, timesTaken), skill) < |questions|
  {
    var gs := Grade(questions, answers, timesTaken);
    if Asked(questions, skill) {
      var i :| 0 <= i < |questions| && questions[i].skill == skill;
      assert gs[i].skill == skill;
    }
    if FirstIndex(gs, skill) < |questions| {
      assert questions[FirstIndex(gs, skill)].skill == gs[FirstIndex(gs, skill)].skill;
    }
  }

  /** A skill is listed as a strength (a weakness) exactly when it was asked
      and its statistics classify it so. */
  lemma ClassificationFollowsTally(roleId: string, questions: seq<Question>, answers: seq<int>, timesTaken: seq<real>, skill: string)
    requires WellFormedInput(questions, answers, timesTaken)
    ensures var r := AnalyzeResults(roleId, questions, answers, timesTaken);
            var st := SkillTally(questions, answers, timesTaken, skill);
            && (skill in r.strengths <==> Asked(questions, skill) && Classify(st) == Strength)
            && (skill in r.weaknesses <==> Asked(questions, skill) && Classify(st) == Weakness)
  {
    var gs := Grade(questions, answers, timesTaken);
    var groups := Group(gs);
    var r := AnalyzeResults(roleId, questions, answers, timesTaken);
    assert r.strengths == MapSeq(Filter(groups, IsStrength), SkillOf);
    assert r.weaknesses == MapSeq(Filter(groups, IsWeakness), SkillOf);
    GroupIsPerSkillTally(gs);
    EntryOfSkill(gs, groups, skill);
    AskedIsFirstIndex(questions, answers, timesTaken, skill);
    InMapFilter(groups, IsStrength, SkillOf, skill);
    InMapFilter(groups, IsWeakness, SkillOf, skill);
  }

  /** Each gap is built from its skill's statistics: its score, and the
      outcomes of exactly that skill's questions in question order. */
  lemma GapsFollowTally(roleId: string, questions: seq<Question>, answers: seq<int>, timesTaken: seq<real>)
    requires WellFormedInput(questions, answers, timesTaken)
    ensures var r := AnalyzeResults(roleId, questions, answers, timesTaken);
            forall k :: 0 <= k < |r.weaknesses| ==>
              r.skillGaps[k] == MakeGap(SkillTally(questions, answers, timesTaken, r.weaknesses[k]))
  {
    var gs := Grade(questions, answers, timesTaken);
    var groups := Group(gs);
    var weak := Filter(groups, IsWeakness);
    var r := AnalyzeResults(roleId, questions, answers, timesTaken);
    GroupIsPerSkillTally(gs);
    forall k | 0 <= k < |r.weaknesses|
      ensures r.skillGaps[k] == MakeGap(Tally(gs, r.weaknesses[k]))
    {
      assert r.skillGaps[k] == MakeGap(weak[k]) && r.weaknesses[k] == weak[k].skill;
      assert weak[k] in groups;
    }
  }

  /** No skill is listed twice, nor as both a strength and a weakness. */
  lemma SkillsListedOnce(roleId: string, questions: seq<Question>, answers: seq<int>, timesTaken: seq<real>)
    requires WellFormedInput(questions, answers, timesTaken)
    ensures var r := AnalyzeResults(roleId, questions, answers, timesTaken);
            NoDup(r.strengths + r.weaknesses)
  {
    var gs := Grade(questions, answers, timesTaken);
    var groups := Group(gs);
    var r := AnalyzeResults(roleId, questions, answers, timesTaken);
    GroupIsPerSkillTally(gs);
    DistinctSkillsByIndex(groups);
    FilterMapNoDup(groups, IsStrength, SkillOf);
    FilterMapNoDup(groups, IsWeakness, SkillOf);
    forall x | x in r.strengths
      ensures x !in r.weaknesses
    {
      InMapFilter(groups, IsStrength, SkillOf, x);
      InMapFilter(groups, IsWeakness, SkillOf, x);
    }
    NoDupConcat(r.strengths, r.weaknesses);
  }

  /** Strengths, and weaknesses, are listed in the order their skills were
      first asked. */
  lemma ListedInFirstAskedOrder(roleId: string, questions: seq<Question>, answers: seq<int>, timesTaken: seq<real>)
    requires WellFormedInput(questions, answers, timesTaken)
    ensures var r := AnalyzeResults(roleId, questions, answers, timesTaken);
            var gs := Grade(questions, answers, timesTaken);
            && (forall k, l :: 0 <= k < l < |r.strengths| ==> FirstIndex(gs, r.strengths[k]) < FirstIndex(gs, r.strengths[l]))
            && (forall k, l :: 0 <= k < l < |r.weaknesses| ==> FirstIndex(gs, r.weaknesses[k]) < FirstIndex(gs, r.weaknesses[l]))
  {
    var gs := Grade(questions, answers, timesTaken);
    var groups := Group(gs);
    GroupIsPerSkillTally(gs);
    var key := (st: SkillStats) => FirstIndex(gs, st.skill) as int;
    assert StrictlyIncreasing(groups, key) by {
      forall k, l | 0 <= k < l < |groups|
        ensures key(groups[k]) < key(groups[l])
      {
      }
    }
    FilterKeepsIncreasing(groups, IsStrength, key);
    FilterKeepsIncreasing(groups, IsWeakness, key);
  }

  lemma {:induction false} TallyOfFlawless(gs: seq<Graded>, skill: string)
    requires forall i :: 0 <= i < |gs| && gs[i].skill == skill ==> gs[i].isCorrect && gs[i].efficiency <= StrengthEfficiency
    ensures Tally(gs, skill).correct == Tally(gs, skill).total
    ensures Tally(gs, skill).efficiency <= StrengthEfficiency * Tally(gs, skill).total as real
    decreases |gs|
  {
    if |gs| > 0 {
      var prefix := gs[..|gs| - 1];
      assert forall i :: 0 <= i < |prefix| ==> prefix[i] == gs[i];
      TallyOfFlawless(prefix, skill);
    }
  }

  lemma RateBound(amount: real, total: nat, bound: real)
    requires total > 0 && amount <= bound * total as real
    ensures Rate(amount, total) <= bound
  {
    var n := total as real;
    assert (amount / n) * n == amount;
  }

  lemma RateOfAll(total: nat)
    requires total > 0
    ensures Rate(total as real, total) == 1.0
  {
  }

  lemma FractionBound(e: real, limit: real, bound: real)
    requires limit > 0.0 && e * limit <= bound * limit
    ensures e <= bound
  {
  }

  /** A skill whose every question was answered correctly within 1.2 times
      its time limit is a strength, and not a weakness. */
  lemma FlawlessSkillIsStrength(roleId: string, questions: seq<Question>, answers: seq<int>, timesTaken: seq<real>, skill: string)
    requires WellFormedInput(questions, answers, timesTaken)
    requires Asked(questions, skill)
    requires forall i :: 0 <= i < |questions| && questions[i].skill == skill ==>
      answers[i] == questions[i].correctAnswer && timesTaken[i] <= StrengthEfficiency * questions[i].timeLimit as real
    ensures var r := AnalyzeResults(roleId, questions, answers, timesTaken);
            skill in r.strengths && skill !in r.weaknesses
  {
    var gs := Grade(questions, answers, timesTaken);
    forall i | 0 <= i < |gs| && gs[i].skill == skill
      ensures gs[i].isCorrect && gs[i].efficiency <= StrengthEfficiency
    {
      FractionBound(gs[i].efficiency, questions[i].timeLimit as real, StrengthEfficiency);
    }
    TallyOfFlawless(gs, skill);
    var st := Tally(gs, skill);
    AskedIsFirstIndex(questions, answers, timesTaken, skill);
    TallyCountsAskedSkills(gs, skill);
    RateBound(st.efficiency, st.total, StrengthEfficiency);
    RateOfAll(st.total);
    ClassificationFollowsTally(roleId, questions, answers, timesTaken, skill);
  }

  /** A skill scoring below 60 is a weakness; its gap is high priority
      exactly when the score is below 50, and it carries the three study
      suggestions of its score band. */
  lemma LowScoreIsWeakness(roleId: string, questions: seq<Question>, answers: seq<int>, timesTaken: seq<real>, skill: string)
    requires WellFormedInput(questions, answers, timesTaken)
    requires Asked(questions, skill)
    requires SkillScore(SkillTally(questions, answers, timesTaken, skill)) < WeaknessScore
    ensures var r := AnalyzeResults(roleId, questions, answers, timesTaken);
            var score := SkillScore(SkillTally(questions, answers, timesTaken, skill));
            && skill in r.weaknesses && skill !in r.strengths
            && forall k :: 0 <= k < |r.weaknesses| && r.weaknesses[k] == skill ==>
                 && r.skillGaps[k].current == score
                 && (r.skillGaps[k].priority == High <==> score < HighPriorityBelow)
                 && r.skillGaps[k].recommendations == GenerateRecommendations(skill, score)
                 && |r.skillGaps[k].recommendations| == 3
  {
    ClassificationFollowsTally(roleId, questions, answers, timesTaken, skill);
    GapsFollowTally(roleId, questions, answers, timesTaken);
  }

  /** A weakness scoring at least 60 is time-driven: its answers took on
      average more than twice the time limit.  Above 80 its gap is
      negative. */
  lemma TimeDrivenWeakness(roleId: string, questions: seq<Question>, answers: seq<int>, timesTaken: seq<real>)
    requires WellFormedInput(questions, answers, timesTaken)
    ensures var r := AnalyzeResults(roleId, questions, answers, timesTaken);
            forall k :: 0 <= k < |r.weaknesses| && r.skillGaps[k].current >= WeaknessScore ==>
              && AverageEfficiency(SkillTally(questions, answers, timesTaken, r.weaknesses[k])) > WeaknessEfficiency
              && (r.skillGaps[k].current > RequiredScore ==> r.skillGaps[k].gap < 0.0)
  {
    var r := AnalyzeResults(roleId, questions, answers, timesTaken);
    GapsFollowTally(roleId, questions, answers, timesTaken);
    forall k | 0 <= k < |r.weaknesses|
      ensures Classify(SkillTally(questions, answers, timesTaken, r.weaknesses[k])) == Weakness
    {
      assert r.weaknesses[k] in r.weaknesses;
      ClassificationFollowsTally(roleId, questions, answers, timesTaken, r.weaknesses[k]);
    }
  }

  /** An assessment with no questions has an undefined score and lists
      nothing. */
  lemma EmptyAssessment(roleId: string)
    ensures AnalyzeResults(roleId, [], [], []) == AssessmentResult(None, [], [], [], [], [])
  {
    assert Group([]) == [];
  }

  /** Two answers to one React question, right in half the time limit and
      wrong in 300 of 180 seconds: score 50, React a medium-priority
      weakness with a gap of 30. */
  lemma HalfRightIsMediumGap(q: Question)
    requires q.skill == "React" && q.correctAnswer == 0 && q.timeLimit == 180
    ensures var r := AnalyzeResults("frontend", [q, q], [0, 1], [90.0, 300.0]);
            && r.score == Some(50.0)
            && r.strengths == [] && r.weaknesses == ["React"]
            && |r.skillGaps| == 1 && r.skillGaps[0].current == 50.0 && r.skillGaps[0].gap == 30.0
            && r.skillGaps[0].priority == Medium && |r.skillGaps[0].recommendations| == 3
            && |r.questionAnalysis| == 2
  {
    var gs := Grade([q, q], [0, 1], [90.0, 300.0]);
    var a, b := gs[0], gs[1];
    assert a.isCorrect && !b.isCorrect;
    assert gs[..1] == [a] && gs[..0] == [];
    assert Group([a]) == [Add(EmptyStats("React"), a)];
    var st := Add(Add(EmptyStats("React"), a), b);
    assert Group(gs) == [st];
    assert st.total == 2 && st.correct == 1;
    assert SkillScore(st) == 50.0;
    assert Classify(st) == Weakness;
    assert CountCorrect(gs) == 1;
  }

  /** A correct answer that took three times the limit still makes its
      skill a weakness, with a negative gap and no study suggestions. */
  lemma SlowButRightIsWeakness(roleId: string, q: Question)
    requires q.timeLimit > 0
    ensures var r := AnalyzeResults(roleId, [q], [q.correctAnswer], [3.0 * q.timeLimit as real]);
            && r.score == Some(100.0)
            && r.strengths == [] && r.weaknesses == [q.skill]
            && |r.skillGaps| == 1 && r.skillGaps[0].gap == -20.0
            && r.skillGaps[0].priority == Medium && r.skillGaps[0].recommendations == []
  {
    var gs := Grade([q], [q.correctAnswer], [3.0 * q.timeLimit as real]);
    var g := gs[0];
    assert g.efficiency * (q.timeLimit as real) == 3.0 * q.timeLimit as real;
    assert g.efficiency == 3.0;
    assert gs[..0] == [];
    var st := Add(EmptyStats(q.skill), g);
    assert Group(gs) == [st];
    assert SkillScore(st) == 100.0 && AverageEfficiency(st) == 3.0;
    assert Classify(st) == Weakness;
    assert CountCorrect(gs) == 1;
  }
}
