/** The question selector of lib/assessment.ts: `generateAssessment` and
    its Fisher–Yates `shuffleArray`.  The random draws are an oracle
    argument. */
module Selection {
  import opened Wrappers
  import opened Seqs
  import opened SkillTypes
  import opened InterviewQuestions

  /** The skills a question list covers (`skillCoverage`). */
  function Coverage(qs: seq<Question>): set<string> {
    set q | q in qs :: q.skill
  }

  /** The baseline: the role's questions at the requested difficulty. */
  function Baseline(bank: Bank, role: string, difficulty: Difficulty): seq<Question> {
    GetQuestionsForRole(bank, role, Some(difficulty))
  }

  /** `missingSkills`: the declared skills the baseline does not cover, in
      declaration order and with repeats kept. */
  function MissingSkills(baseline: seq<Question>, userSkills: seq<string>): seq<string> {
    Filter(userSkills, s => s !in Coverage(baseline))
  }

  /** The questions appended for `skills`, one block per skill in order.
      The selector passes the difficulty as a third argument that
      `getQuestionsBySkill` does not take, so each block holds the skill's
      questions of every difficulty; an empty block appends nothing. */
  function GapFill(bank: Bank, role: string, skills: seq<string>): (r: seq<Question>)
    ensures forall q :: q in r ==> q in RoleQuestions(bank, role) && q.skill in skills
    ensures forall q :: q in RoleQuestions(bank, role) && q.skill in skills ==> q in r
    ensures role !in bank ==> r == []
    decreases |skills|
  {
    if |skills| == 0 then []
    else GetQuestionsBySkill(bank, role, skills[0]) + GapFill(bank, role, skills[1..])
  }

  /** The working set before shuffling (`questions` after the gap-fill
      loop): the baseline followed by the gap-fill for the declared skills
      it does not cover. */
  function Pool(bank: Bank, role: string, userSkills: seq<string>, difficulty: Difficulty): seq<Question> {
    var baseline := Baseline(bank, role, difficulty);
    baseline + GapFill(bank, role, MissingSkills(baseline, userSkills))
  }

  /** Which questions the selector may draw: those of the role that have
      the requested difficulty or an uncovered declared skill. */
  ghost predicate Eligible(q: Question, bank: Bank, role: string, userSkills: seq<string>, difficulty: Difficulty) {
    && q in RoleQuestions(bank, role)
    && (|| q.difficulty == difficulty
        || (q.skill in userSkills && q.skill !in Coverage(Baseline(bank, role, difficulty))))
  }

  /** The working set starts with the baseline and holds exactly the
      eligible questions. */
  lemma PoolIsEligibleQuestions(bank: Bank, role: string, userSkills: seq<string>, difficulty: Difficulty)
    ensures var pool := Pool(bank, role, userSkills, difficulty);
      && pool[..|Baseline(bank, role, difficulty)|] == Baseline(bank, role, difficulty)
      && (forall q :: q in pool ==> Eligible(q, bank, role, userSkills, difficulty))
      && (forall q :: Eligible(q, bank, role, userSkills, difficulty) ==> q in pool)
  {
    var baseline := Baseline(bank, role, difficulty);
    var missing := MissingSkills(baseline, userSkills);
    var fill := GapFill(bank, role, missing);
    var pool := baseline + fill;
    assert pool[..|baseline|] == baseline;
    forall q | q in pool
      ensures Eligible(q, bank, role, userSkills, difficulty)
    {
      if q !in baseline {
        assert q in fill;
      }
    }
    forall q | Eligible(q, bank, role, userSkills, difficulty)
      ensures q in pool
    {
      if q.difficulty != difficulty {
        assert q.skill in missing;
      }
    }
  }

  /** Coverage of declared skills: every declared skill the role has a
      question for is covered by the working set. */
  lemma PoolCoversDeclaredSkills(bank: Bank, role: string, userSkills: seq<string>, difficulty: Difficulty, s: string)
    requires s in userSkills && s in Coverage(RoleQuestions(bank, role))
    ensures s in Coverage(Pool(bank, role, userSkills, difficulty))
  {
    var baseline := Baseline(bank, role, difficulty);
    var pool := Pool(bank, role, userSkills, difficulty);
    var q :| q in RoleQuestions(bank, role) && q.skill == s;
    if s !in Coverage(baseline) {
      PoolIsEligibleQuestions(bank, role, userSkills, difficulty);
      assert Eligible(q, bank, role, userSkills, difficulty);
      assert q in pool;
    } else {
      var b :| b in baseline && b.skill == s;
      assert b in pool;
    }
  }

  /** The oracle for `shuffleArray` on `n` elements: `choice[i]` is the
      index `Math.floor(Math.random() * (i + 1))` drawn when the loop
      counter is `i`, so `choice[i] <= i`; `choice[0]` is never drawn. */
  ghost predicate ValidDraws(choice: seq<nat>, n: nat) {
    |choice| == n && forall i :: 0 <= i < n ==> choice[i] <= i
  }

  /** `shuffleArray`: Fisher–Yates over a copy of `s`.  The result is a
      permutation of `s`, and the draws that never move anything leave the
      order as it was. */
  method Shuffle<T>(s: seq<T>, choice: seq<nat>) returns (r: seq<T>)
    requires ValidDraws(choice, |s|)
    ensures |r| == |s|
    ensures multiset(r) == multiset(s)
    ensures (forall i :: 0 <= i < |s| ==> choice[i] == i) ==> r == s
  {
    r := s;
    var i := |s| - 1;
    while i > 0
      invariant -1 <= i < |s|
      invariant |s| > 0 ==> 0 <= i
      invariant |r| == |s|
      invariant multiset(r) == multiset(s)
      invariant (forall k :: 0 <= k < |s| ==> choice[k] == k) ==> r == s
    {
      var j := choice[i];
      SwapPermutes(r, i, j);
      r := Swap(r, i, j);
      i := i - 1;
    }
  }

  /** `[a[i], a[j]] = [a[j], a[i]]`: exchanges two entries; exchanging an
      entry with itself changes nothing. */
  function Swap<T>(a: seq<T>, i: nat, j: nat): (r: seq<T>)
    requires i < |a| && j < |a|
    ensures |r| == |a| && r[i] == a[j] && r[j] == a[i]
    ensures forall k :: 0 <= k < |a| && k != i && k != j ==> r[k] == a[k]
    ensures i == j ==> r == a
  {
    a[i := a[j]][j := a[i]]
  }

  /** Exchanging two entries keeps every element and its multiplicity. */
  lemma SwapPermutes<T>(a: seq<T>, i: nat, j: nat)
    requires i < |a| && j < |a|
    ensures multiset(Swap(a, i, j)) == multiset(a)
  {
    var b := a[i := a[j]];
    assert multiset(b) == multiset(a) - multiset{a[i]} + multiset{a[j]};
    assert multiset(b[j := a[i]]) == multiset(b) - multiset{b[j]} + multiset{a[i]};
  }

  /** The length of `s.slice(0, count)` for an integer `count` on a
      sequence of length `n`: a non-negative count keeps that many elements,
      or all of them when there are fewer; a negative count drops that many
      from the end, or all of them when there are fewer. */
  function SliceLength(n: nat, count: int): (k: nat)
    ensures k <= n
    ensures 0 <= count <= n ==> k == count
    ensures count >= n ==> k == n
    ensures count < 0 ==> n - k == if -count < n then -count else n
  {
    if count >= 0 then (if count < n then count else n)
    else if n + count > 0 then n + count else 0
  }

  /** `generateAssessment(roleId, userSkills, difficulty, questionCount)`:
      shuffles the working set and keeps its first `questionCount`
      questions.  It never returns more than `questionCount` questions,
      returns all of them when the working set is no larger, and each
      returned question is a baseline question or belongs to an uncovered
      declared skill. */
  method GenerateAssessment(
    bank: Bank, role: string, userSkills: seq<string>, difficulty: Difficulty, questionCount: int,
    choice: seq<nat>)
    returns (r: seq<Question>)
    requires ValidDraws(choice, |Pool(bank, role, userSkills, difficulty)|)
    ensures questionCount >= 0 ==> |r| <= questionCount
    ensures |r| == SliceLength(|Pool(bank, role, userSkills, difficulty)|, questionCount)
    ensures 0 <= questionCount <= |Pool(bank, role, userSkills, difficulty)| ==> |r| == questionCount
    ensures questionCount < 0 ==>
      |Pool(bank, role, userSkills, difficulty)| - |r|
        == if -questionCount < |Pool(bank, role, userSkills, difficulty)| then -questionCount
           else |Pool(bank, role, userSkills, difficulty)|
    ensures multiset(r) <= multiset(Pool(bank, role, userSkills, difficulty))
    ensures questionCount >= |Pool(bank, role, userSkills, difficulty)|
      ==> multiset(r) == multiset(Pool(bank, role, userSkills, difficulty))
    ensures forall q :: q in r ==> Eligible(q, bank, role, userSkills, difficulty)
    ensures role !in bank ==> r == []
  {
    var pool := Pool(bank, role, userSkills, difficulty);
    var shuffled := Shuffle(pool, choice);
    var k := SliceLength(|pool|, questionCount);
    r := shuffled[..k];
    PrefixMultiset(shuffled, k);
    PoolIsEligibleQuestions(bank, role, userSkills, difficulty);
    forall q | q in r
      ensures Eligible(q, bank, role, userSkills, difficulty)
    {
      assert multiset(r)[q] > 0;
      assert q in pool;
    }
    if role !in bank {
      UnknownRoleHasEmptyPool(bank, role, userSkills, difficulty);
    }
  }

  lemma PrefixMultiset<T>(s: seq<T>, k: nat)
    requires k <= |s|
    ensures multiset(s[..k]) <= multiset(s)
    ensures k == |s| ==> multiset(s[..k]) == multiset(s)
  {
    assert s == s[..k] + s[k..];
  }

  /** An unknown role yields an empty working set. */
  lemma UnknownRoleHasEmptyPool(bank: Bank, role: string, userSkills: seq<string>, difficulty: Difficulty)
    requires role !in bank
    ensures Pool(bank, role, userSkills, difficulty) == []
  {
  }

  /** Every question of the role belongs to it once (catalogue invariant),
      so the blocks for distinct skills hold distinct questions. */
  lemma {:induction false} GapFillNoDup(bank: Bank, role: string, skills: seq<string>)
    requires WellFormedBank(bank) && NoDup(skills)
    ensures NoDup(GapFill(bank, role, skills))
    decreases |skills|
  {
    if |skills| > 0 {
      var rest := skills[1..];
      assert NoDup(rest) by {
        forall i, j | 0 <= i < j < |rest|
          ensures rest[i] != rest[j]
        {
          assert rest[i] == skills[i + 1] && rest[j] == skills[j + 1];
        }
      }
      assert skills[0] !in rest by {
        forall k | 0 <= k < |rest|
          ensures rest[k] != skills[0]
        {
          assert rest[k] == skills[k + 1];
        }
      }
      GapFillNoDup(bank, role, rest);
      NoDupConcat(GetQuestionsBySkill(bank, role, skills[0]), GapFill(bank, role, rest));
    }
  }

  /** Duplicates come only from repeated declared skills: when the
      declared skills are distinct, so are the questions of the working
      set, because the baseline and the gap-fill never share a skill. */
  lemma DistinctSkillsGiveDistinctQuestions(bank: Bank, role: string, userSkills: seq<string>, difficulty: Difficulty)
    requires WellFormedBank(bank) && NoDup(userSkills)
    ensures NoDup(Pool(bank, role, userSkills, difficulty))
  {
    var baseline := Baseline(bank, role, difficulty);
    var missing := MissingSkills(baseline, userSkills);
    FilterNoDup(userSkills, s => s !in Coverage(baseline));
    GapFillNoDup(bank, role, missing);
    var fill := GapFill(bank, role, missing);
    forall q | q in baseline
      ensures q !in fill
    {
      assert q.skill in Coverage(baseline);
    }
    NoDupConcat(baseline, fill);
  }

  /** An uncovered skill declared `n` times is fetched `n` times. */
  lemma {:induction false} UncoveredSkillFetchedPerDeclaration(
    bank: Bank, role: string, baseline: seq<Question>, skill: string, n: nat)
    requires skill !in Coverage(baseline)
    ensures MissingSkills(baseline, Repeat([skill], n)) == Repeat([skill], n)
    ensures GapFill(bank, role, Repeat([skill], n)) == Repeat(GetQuestionsBySkill(bank, role, skill), n)
    decreases n
  {
    if n > 0 {
      var declared := Repeat([skill], n);
      UncoveredSkillFetchedPerDeclaration(bank, role, baseline, skill, n - 1);
      assert declared[0] == skill;
      assert declared[1..] == Repeat([skill], n - 1);
    }
  }

  /** `n` copies of `s`, one after another. */
  function Repeat<T>(s: seq<T>, n: nat): (r: seq<T>)
    ensures |r| == n * |s|
  {
    if n == 0 then [] else s + Repeat(s, n - 1)
  }

  /** Gap-fill is not difficulty-filtered: asking for intermediate frontend
      questions while declaring "Performance" brings in the advanced
      performance question. */
  lemma GapFillIgnoresDifficulty()
    ensures Pool(InterviewQuestionBank, "frontend", ["Performance"], Intermediate) == [FeReact1, FePerf1]
    ensures FePerf1.difficulty == Advanced
  {
    var bank := InterviewQuestionBank;
    FrontendIntermediateIsReactHooks();
    SkillLookupIsCaseSensitive();
    var baseline := Baseline(bank, "frontend", Intermediate);
    assert Coverage(baseline) == {"React"};
    UncoveredSkillFetchedPerDeclaration(bank, "frontend", baseline, "Performance", 1);
    assert Repeat(["Performance"], 1) == ["Performance"];
    assert Repeat([FePerf1], 1) == [FePerf1];
  }

  lemma MissingTwice(baseline: seq<Question>, skill: string)
    requires skill !in Coverage(baseline)
    ensures MissingSkills(baseline, [skill, skill]) == [skill, skill]
  {
    var p := s => s !in Coverage(baseline);
    assert [skill, skill][1..] == [skill];
    assert Filter([skill], p) == [skill];
  }

  lemma GapFillTwice(bank: Bank, role: string, skill: string)
    ensures GapFill(bank, role, [skill, skill]) == GetQuestionsBySkill(bank, role, skill) + GetQuestionsBySkill(bank, role, skill)
  {
    var bySkill := GetQuestionsBySkill(bank, role, skill);
    assert [skill, skill][1..] == [skill] && [skill][1..] == [];
    assert GapFill(bank, role, [skill]) == bySkill + [];
  }

  /** A declared skill the baseline misses, listed twice, has its questions
      appended twice. */
  lemma RepeatedSkillFetchedTwice(bank: Bank, role: string, skill: string, difficulty: Difficulty)
    requires skill !in Coverage(Baseline(bank, role, difficulty))
    ensures var bySkill := GetQuestionsBySkill(bank, role, skill);
      Pool(bank, role, [skill, skill], difficulty) == Baseline(bank, role, difficulty) + (bySkill + bySkill)
  {
    MissingTwice(Baseline(bank, role, difficulty), skill);
    GapFillTwice(bank, role, skill);
  }

  /** A declared skill repeated twice fetches its questions twice: the
      working set holds the performance question two times. */
  lemma RepeatedSkillRepeatsQuestions()
    ensures Pool(InterviewQuestionBank, "frontend", ["Performance", "Performance"], Intermediate)
            == [FeReact1, FePerf1, FePerf1]
  {
    var bank := InterviewQuestionBank;
    FrontendIntermediateIsReactHooks();
    SkillLookupIsCaseSensitive();
    var baseline := Baseline(bank, "frontend", Intermediate);
    assert baseline == [FeReact1];
    assert Coverage(baseline) == {"React"};
    RepeatedSkillFetchedTwice(bank, "frontend", "Performance", Intermediate);
    assert GetQuestionsBySkill(bank, "frontend", "Performance") == [FePerf1];
  }
}
