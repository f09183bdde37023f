/** The records and closed enumerations of the assessment engine
    (types/skills.ts). */
module SkillTypes {
  import opened Wrappers

  /** `QuestionDifficulty`: exactly three levels. */
  datatype Difficulty = Beginner | Intermediate | Advanced

  /** The string value each difficulty carries at run time. */
  function DifficultyLabel(d: Difficulty): string {
    match d
    case Beginner => "Beginner"
    case Intermediate => "Intermediate"
    case Advanced => "Advanced"
  }

  /** Reads a difficulty back from its string value; every other string is
      not a difficulty. */
  function ParseDifficulty(s: string): (r: Option<Difficulty>)
    ensures forall d :: r == Some(d) <==> s == DifficultyLabel(d)
  {
    if s == "Beginner" then Some(Beginner)
    else if s == "Intermediate" then Some(Intermediate)
    else if s == "Advanced" then Some(Advanced)
    else None
  }

  /** `QuestionType`: exactly five kinds. */
  datatype QuestionType = Technical | Behavioral | Scenario | SystemDesign | Coding

  /** The string value each question type carries at run time; only
      `SystemDesign` differs from its member name. */
  function QuestionTypeLabel(t: QuestionType): string {
    match t
    case Technical => "Technical"
    case Behavioral => "Behavioral"
    case Scenario => "Scenario"
    case SystemDesign => "System Design"
    case Coding => "Coding"
  }

  function ParseQuestionType(s: string): (r: Option<QuestionType>)
    ensures forall t :: r == Some(t) <==> s == QuestionTypeLabel(t)
  {
    if s == "Technical" then Some(Technical)
    else if s == "Behavioral" then Some(Behavioral)
    else if s == "Scenario" then Some(Scenario)
    else if s == "System Design" then Some(SystemDesign)
    else if s == "Coding" then Some(Coding)
    else None
  }

  /** `SkillGap.priority`: 'high' | 'medium' | 'low'. */
  datatype Priority = High | Medium | Low

  function PriorityLabel(p: Priority): string {
    match p
    case High => "high"
    case Medium => "medium"
    case Low => "low"
  }

  function ParsePriority(s: string): (r: Option<Priority>)
    ensures forall p :: r == Some(p) <==> s == PriorityLabel(p)
  {
    if s == "high" then Some(High)
    else if s == "medium" then Some(Medium)
    else if s == "low" then Some(Low)
    else None
  }

  /** A learning resource's `type`: 'course' | 'documentation' | 'practice' | 'tutorial'. */
  datatype ResourceType = Course | Documentation | Practice | Tutorial

  function ResourceTypeLabel(t: ResourceType): string {
    match t
    case Course => "course"
    case Documentation => "documentation"
    case Practice => "practice"
    case Tutorial => "tutorial"
  }

  function ParseResourceType(s: string): (r: Option<ResourceType>)
    ensures forall t :: r == Some(t) <==> s == ResourceTypeLabel(t)
  {
    if s == "course" then Some(Course)
    else if s == "documentation" then Some(Documentation)
    else if s == "practice" then Some(Practice)
    else if s == "tutorial" then Some(Tutorial)
    else None
  }

  /** `InterviewQuestion`.  `kind` is the TypeScript field `type`; `code` is the
      optional code excerpt. */
  datatype Question = Question(
    id: string,
    role: string,
    skill: string,
    kind: QuestionType,
    difficulty: Difficulty,
    question: string,
    code: Option<string>,
    options: seq<string>,
    correctAnswer: int,
    explanation: string,
    source: string,
    timeLimit: int,
    relatedSkills: seq<string>)

  /** What a well-authored question guarantees: the correct answer indexes
      an option, and the time limit is positive, so the time-efficiency
      ratio of an answer is defined. */
  ghost predicate ValidQuestion(q: Question) {
    0 <= q.correctAnswer < |q.options| && q.timeLimit > 0
  }

  /** One entry of `SkillGap.questionAnalysis`. */
  datatype QuestionOutcome = QuestionOutcome(
    question: string,
    isCorrect: bool,
    timeTaken: real,
    explanation: string)

  datatype SkillGap = SkillGap(
    skill: string,
    current: real,
    required: real,
    gap: real,
    priority: Priority,
    recommendations: seq<string>,
    questionAnalysis: seq<QuestionOutcome>)

  /** `QuestionAnalysis`: the per-question record of a result. */
  datatype QuestionAnalysis = QuestionAnalysis(
    question: string,
    skill: string,
    difficulty: Difficulty,
    isCorrect: bool,
    timeTaken: real,
    timeLimit: int,
    explanation: string,
    relatedSkills: seq<string>)

  datatype Resource = Resource(title: string, url: string, kind: ResourceType)

  /** One entry of `AssessmentResult.recommendations`. */
  datatype Recommendation = Recommendation(skill: string, resources: seq<Resource>)

  /** `AssessmentResult`.  `score` is None exactly where the TypeScript
      computes 0/0, that is NaN. */
  datatype AssessmentResult = AssessmentResult(
    score: Option<real>,
    skillGaps: seq<SkillGap>,
    strengths: seq<string>,
    weaknesses: seq<string>,
    recommendations: seq<Recommendation>,
    questionAnalysis: seq<QuestionAnalysis>)
}
