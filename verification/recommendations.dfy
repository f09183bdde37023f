/** The recommendation resolver of lib/assessment.ts:
    `generateRecommendations` and `getResourcesForSkill`. */
module Recommendations {
  import opened SkillTypes
  import opened Text

  /** `generateRecommendations(skill, score)`: three suggestions naming the
      skill when the score is below 80 (one wording below 50, another from
      50 up), and none from 80 up. */
  function GenerateRecommendations(skill: string, score: real): (r: seq<string>)
    ensures |r| == if score < 80.0 then 3 else 0
    ensures forall k :: 0 <= k < |r| ==> Contains(r[k], skill)
  {
    if score < 50.0 then
      ContainsInfix("Focus on ", skill, " fundamentals through structured learning");
      ContainsInfix("Practice ", skill, " exercises daily");
      ContainsInfix("Consider enrolling in a comprehensive ", skill, " course");
      [ "Focus on " + skill + " fundamentals through structured learning",
        "Practice " + skill + " exercises daily",
        "Consider enrolling in a comprehensive " + skill + " course" ]
    else if score < 80.0 then
      ContainsInfix("Review advanced ", skill, " concepts");
      ContainsInfix("Work on real-world ", skill, " projects");
      ContainsInfix("Participate in ", skill, "-focused coding challenges");
      [ "Review advanced " + skill + " concepts",
        "Work on real-world " + skill + " projects",
        "Participate in " + skill + "-focused coding challenges" ]
    else
      []
  }

  /** The suggestions depend on the score only through its band: below
      50, from 50 to below 80, and from 80 up. */
  lemma RecommendationsDependOnBandOnly(skill: string, a: real, b: real)
    requires (a < 50.0) == (b < 50.0) && (a < 80.0) == (b < 80.0)
    ensures GenerateRecommendations(skill, a) == GenerateRecommendations(skill, b)
  {
  }

  /** `getResourcesForSkill(skill)`: a course, its documentation and
      practice problems, in that order (never a tutorial), each titled
      after the skill and addressed by the lower-cased skill on a distinct
      host path. */
  function GetResourcesForSkill(skill: string): (r: seq<Resource>)
    ensures |r| == 3
    ensures r[0].kind == Course && r[1].kind == Documentation && r[2].kind == Practice
    ensures forall k :: 0 <= k < |r| ==> r[k].kind != Tutorial
    ensures forall k :: 0 <= k < |r| ==> IsPrefix(skill, r[k].title) && EndsWith(r[k].url, Lower(skill))
    ensures forall k, l :: 0 <= k < l < |r| ==> r[k].url != r[l].url
  {
    var name := Lower(skill);
    var course := "https://example.com/courses/" + name;
    var docs := "https://docs.example.com/" + name;
    var practice := "https://practice.example.com/" + name;
    CharOfPrefix("https://example.com/courses/", name, 8);
    CharOfPrefix("https://docs.example.com/", name, 8);
    CharOfPrefix("https://practice.example.com/", name, 8);
    [ Resource(skill + " Advanced Course", course, Course),
      Resource(skill + " Documentation", docs, Documentation),
      Resource(skill + " Practice Problems", practice, Practice) ]
  }

  lemma CharOfPrefix(prefix: string, rest: string, i: nat)
    requires i < |prefix|
    ensures (prefix + rest)[i] == prefix[i]
  {
  }

  /** The resource titles name their skill: two skills given the same
      resource list are the same skill. */
  lemma ResourcesIdentifySkill(a: string, b: string)
    requires GetResourcesForSkill(a) == GetResourcesForSkill(b)
    ensures a == b
  {
    var ta, tb := GetResourcesForSkill(a)[0].title, GetResourcesForSkill(b)[0].title;
    assert ta == a + " Advanced Course" && tb == b + " Advanced Course";
    assert |a| == |b|;
    assert a == ta[..|a|] && b == tb[..|b|];
  }
}
