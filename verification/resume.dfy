/** The profile side of the resume page: editing the skill list, the
    required-field check on submit, and the deterministic part of the mock
    resume score (the random draw is a parameter). */
module Resume {
  import opened Seqs
  import opened Text

  datatype UserProfile = UserProfile(
    jobRole: string,
    yearsOfExperience: string,
    skills: seq<string>,
    industry: string,
    careerGoals: string)

  /** The profile being edited and the text in the "new skill" box. */
  datatype ProfileForm = ProfileForm(profile: UserProfile, newSkill: string)

  /** The page's state: the form, whether the profile was accepted, and the
      open tab. */
  datatype ResumePage = ResumePage(form: ProfileForm, profileComplete: bool, activeTab: string)

  const EmptyProfile: UserProfile := UserProfile("", "", [], "", "")

  const InitialPage: ResumePage := ResumePage(ProfileForm(EmptyProfile, ""), false, "profile")

  /** `handleAddSkill`: the trimmed draft is appended when it is non-empty
      and not yet listed, and the draft box is then cleared; otherwise
      nothing changes. */
  function AddSkill(form: ProfileForm): (r: ProfileForm)
    ensures r.profile.(skills := form.profile.skills) == form.profile
    ensures r.profile.skills == form.profile.skills || r.profile.skills == form.profile.skills + [Trim(form.newSkill)]
    ensures Trim(form.newSkill) != "" ==> Trim(form.newSkill) in r.profile.skills
    ensures "" !in form.profile.skills ==> "" !in r.profile.skills
    ensures NoDup(form.profile.skills) ==> NoDup(r.profile.skills)
    ensures r.profile.skills != form.profile.skills ==> r.newSkill == ""
    ensures r.profile.skills == form.profile.skills ==> r == form
    ensures r.profile.skills != form.profile.skills <==>
      Trim(form.newSkill) != "" && Trim(form.newSkill) !in form.profile.skills
  {
    var skill := Trim(form.newSkill);
    if skill != "" && skill !in form.profile.skills then
      var skills := form.profile.skills + [skill];
      assert NoDup(form.profile.skills) ==> NoDup(skills) by {
        if NoDup(form.profile.skills) {
          NoDupConcat(form.profile.skills, [skill]);
        }
      }
      ProfileForm(form.profile.(skills := skills), "")
    else form
  }

  function IsNot(skill: string): string -> bool {
    s => s != skill
  }

  /** `handleRemoveSkill`: every occurrence of the skill goes, the rest
      keep their order. */
  function RemoveSkill(profile: UserProfile, skill: string): (r: UserProfile)
    ensures r.(skills := profile.skills) == profile
    ensures skill !in r.skills
    ensures forall s :: s in r.skills <==> s in profile.skills && s != skill
    ensures IsSubseq(r.skills, profile.skills)
    ensures forall s :: multiset(r.skills)[s] == if s != skill then multiset(profile.skills)[s] else 0
  {
    FilterIsSubseq(profile.skills, IsNot(skill));
    forall s
      ensures multiset(Filter(profile.skills, IsNot(skill)))[s] == if s != skill then multiset(profile.skills)[s] else 0
    {
      FilterCounts(profile.skills, IsNot(skill), s);
    }
    profile.(skills := Filter(profile.skills, IsNot(skill)))
  }

  /** Removing a skill that is not listed changes nothing. */
  lemma RemoveAbsentSkill(profile: UserProfile, skill: string)
    requires skill !in profile.skills
    ensures RemoveSkill(profile, skill) == profile
  {
    FilterKeepsAll(profile.skills, IsNot(skill));
  }

  /** Removing the skill just added restores the profile. */
  lemma RemoveUndoesAdd(form: ProfileForm)
    requires Trim(form.newSkill) != "" && Trim(form.newSkill) !in form.profile.skills
    ensures RemoveSkill(AddSkill(form).profile, Trim(form.newSkill)) == form.profile
  {
    var skill := Trim(form.newSkill);
    FilterSnoc(form.profile.skills, skill, IsNot(skill));
    FilterKeepsAll(form.profile.skills, IsNot(skill));
  }

  /** Adding clears the draft or leaves nothing to add, so a second press
      of the button changes nothing. */
  lemma AddSkillSettles(form: ProfileForm)
    ensures AddSkill(AddSkill(form)) == AddSkill(form)
  {
    assert Trim("") == "";
  }

  /** The four fields the submit handler insists on (an empty string is
      falsy); skills are not required. */
  predicate RequiredFieldsFilled(profile: UserProfile) {
    profile.jobRole != "" && profile.yearsOfExperience != "" && profile.industry != "" && profile.careerGoals != ""
  }

  /** `handleProfileSubmit`: an incomplete profile leaves the page as it is
      (the page's handler shows an error toast); a complete one is marked complete and
      the upload tab opens. */
  function SubmitProfile(page: ResumePage): (r: ResumePage)
    ensures r.form == page.form
    ensures r.profileComplete <==> page.profileComplete || RequiredFieldsFilled(page.form.profile)
    ensures !RequiredFieldsFilled(page.form.profile) ==> r == page
    ensures RequiredFieldsFilled(page.form.profile) ==> r.activeTab == "upload"
  {
    if !RequiredFieldsFilled(page.form.profile) then page
    else page.(profileComplete := true, activeTab := "upload")
  }

  /** Whether a profile can be submitted never depends on its skills, so
      editing the skill list never changes it. */
  lemma SkillsDoNotAffectSubmission(form: ProfileForm, skill: string)
    ensures RequiredFieldsFilled(AddSkill(form).profile) == RequiredFieldsFilled(form.profile)
    ensures RequiredFieldsFilled(RemoveSkill(form.profile, skill)) == RequiredFieldsFilled(form.profile)
  {
  }

  /** The blank profile the page starts with is rejected. */
  lemma BlankProfileRejected()
    ensures SubmitProfile(InitialPage) == InitialPage
  {
  }

  /** The experience choice that earns no bonus. */
  const JuniorExperience: string := "0-1"

  /** The deterministic bonus of `calculateMockScore`: 10 for at least five
      skills, 5 for career goals longer than 100 characters, 5 for
      experience other than "0-1". */
  function ProfileBonus(profile: UserProfile): (bonus: real)
    ensures 0.0 <= bonus <= 20.0
  {
    (if |profile.skills| >= 5 then 10.0 else 0.0)
    + (if |profile.careerGoals| > 100 then 5.0 else 0.0)
    + (if profile.yearsOfExperience != JuniorExperience then 5.0 else 0.0)
  }

  function Clamp(x: real, lo: real, hi: real): real {
    var atLeast := if x > lo then x else lo;
    if atLeast < hi then atLeast else hi
  }

  /** `calculateMockScore`, with `random` standing for `Math.random()`:
      70 plus the profile bonus plus up to 10 random points, clamped to
      [0, 100]. */
  function MockScore(profile: UserProfile, random: real): (score: real)
    requires 0.0 <= random < 1.0
    ensures 70.0 <= score < 100.0
  {
    Clamp(70.0 + ProfileBonus(profile) + random * 10.0, 0.0, 100.0)
  }

  /** The clamp never takes effect: the score is exactly base, bonus and
      random points. */
  lemma ClampNeverBinds(profile: UserProfile, random: real)
    requires 0.0 <= random < 1.0
    ensures MockScore(profile, random) == 70.0 + ProfileBonus(profile) + random * 10.0
  {
  }

  /** Adding a skill never lowers the score. */
  lemma AddingSkillNeverLowersScore(form: ProfileForm, random: real)
    requires 0.0 <= random < 1.0
    ensures MockScore(AddSkill(form).profile, random) >= MockScore(form.profile, random)
  {
    ClampNeverBinds(form.profile, random);
    ClampNeverBinds(AddSkill(form).profile, random);
  }

  /** A profile earning every bonus scores at least 90. */
  lemma FullProfileScoresAtLeast90(profile: UserProfile, random: real)
    requires 0.0 <= random < 1.0
    requires |profile.skills| >= 5 && |profile.careerGoals| > 100 && profile.yearsOfExperience != JuniorExperience
    ensures MockScore(profile, random) >= 90.0
  {
  }
}
