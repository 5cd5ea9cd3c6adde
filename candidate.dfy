/** The candidate profile agent (agents/candidate_agent.py): keyword extraction from a resume and
    the profile fields derived from it. The years of experience come in as a parameter. */
module Candidate {
  import opened Text
  import opened Seqs

  /** `skill_keywords`, in the order they are tried. */
  const SkillKeywords: seq<string> :=
    ["python", "java", "javascript", "react", "node.js", "angular", "vue.js"] +
    ["django", "flask", "fastapi", "spring", "express"] +
    ["aws", "azure", "gcp", "docker", "kubernetes", "terraform"] +
    ["machine learning", "deep learning", "data science", "ai"] +
    ["tensorflow", "pytorch", "scikit-learn"] +
    ["sql", "postgresql", "mysql", "mongodb", "redis"] +
    ["ci/cd", "jenkins", "github actions", "gitlab"] +
    ["agile", "scrum", "leadership", "project management"] +
    ["typescript", "go", "rust", "c++", "c#"] +
    ["html", "css", "sass", "tailwind", "bootstrap"]

  const ResumeLimit: nat := 1000
  const SalaryMin: int := 100000
  const LocationPreference: string := "flexible"

  /** The keywords that occur in the lower-cased resume. */
  ghost function SkillsIn(resume: string): set<string> {
    set k | k in SkillKeywords && Contains(k, Lower(resume))
  }

  /** `extract_skills_from_resume`: try every keyword against the lower-cased text, then drop repeats. */
  method ExtractSkills(resume: string) returns (skills: set<string>)
    ensures skills == SkillsIn(resume)
    ensures forall k :: k in skills <==> k in SkillKeywords && Contains(k, Lower(resume))
  {
    var resumeLower := Lower(resume);
    var found: seq<string> := [];
    for i := 0 to |SkillKeywords|
      invariant forall k :: k in found <==> k in SkillKeywords[..i] && Contains(k, resumeLower)
    {
      assert SkillKeywords[..i + 1] == SkillKeywords[..i] + [SkillKeywords[i]];
      var skill := SkillKeywords[i];
      if Contains(skill, resumeLower) {
        found := found + [skill];
      }
    }
    assert SkillKeywords[..|SkillKeywords|] == SkillKeywords;
    skills := set k | k in found;
  }

  /** Matching ignores the resume's case. */
  lemma SkillsIgnoreCase(resume: string)
    ensures SkillsIn(Lower(resume)) == SkillsIn(resume)
  {
    LowerIdempotent(resume);
  }

  /** Keywords that occur inside other keywords come along with them. */
  lemma JavascriptImpliesJava(resume: string)
    requires "javascript" in SkillsIn(resume)
    ensures "java" in SkillsIn(resume)
  {
    assert OccursAt("java", "javascript", 0);
    ContainsTransitive("java", "javascript", Lower(resume));
    assert SkillKeywords[1] == "java";
  }

  lemma DjangoImpliesGo(resume: string)
    requires "django" in SkillsIn(resume)
    ensures "go" in SkillsIn(resume)
  {
    assert OccursAt("go", "django", 4);
    ContainsTransitive("go", "django", Lower(resume));
    assert SkillKeywords[39] == "go";
  }

  datatype Preferences = Preferences(remote: bool, salaryMin: int, locationPreference: string)

  /** The `CandidateProfile` sent on to the skills mapper. */
  datatype Profile = Profile(
    candidateId: string, resumeText: string, skills: set<string>, experienceYears: int, preferences: Preferences)

  /** The profile built from each text item of a chat message. */
  method BuildProfile(sender: string, resume: string, experienceYears: int) returns (p: Profile)
    ensures p.candidateId == sender
    ensures p.resumeText <= resume && |p.resumeText| == Min(ResumeLimit, |resume|)
    ensures p.skills == SkillsIn(resume)
    ensures p.experienceYears == experienceYears
    ensures p.preferences.remote <==> Contains("remote", Lower(resume))
    ensures p.preferences.salaryMin == SalaryMin && p.preferences.locationPreference == LocationPreference
  {
    var skills := ExtractSkills(resume);
    var remote := Contains("remote", Lower(resume));
    p := Profile(sender, Take(resume, ResumeLimit), skills, experienceYears,
                 Preferences(remote, SalaryMin, LocationPreference));
  }
}
