/** The compatibility scorer agent (agents/scorer_agent.py): `calculate_compatibility_score`
    and the `candidate_profiles` cache that `cache_profile` fills and `score_compatibility` reads. */
module Scorer {
  import opened Wrappers
  import opened Text
  import opened Seqs

  /** The skills assumed when a candidate has none on record. */
  const DefaultSkills: seq<string> := ["python", "django", "aws", "docker", "machine learning"]
  /** `skill_gaps` and `strengths` are cut to their first ten entries. */
  const MaxListed: nat := 10
  const Ceiling: real := 100.0
  const RequirementsWeight: real := 10.0
  const RemoteBonus: real := 5.0
  const SalaryBonus: real := 3.0
  const ExcellentAt: real := 80.0
  const GoodAt: real := 60.0

  /** The `JobListing` message the discovery agent sends. */
  datatype JobListing = JobListing(
    jobId: string, candidateId: string, title: string, company: string, requirements: seq<string>,
    description: string, salaryRange: string, location: string, remote: bool, sourceUrl: string,
    matchScore: real)

  /** The recommendation line of the reasoning text. */
  datatype Label = Excellent | Good | Moderate

  /** The dictionary `calculate_compatibility_score` returns; the reasoning text is reduced to its label. */
  datatype Analysis = Analysis(score: real, verdict: Label, skillGaps: seq<string>, strengths: seq<string>)

  /** The `MatchScore` message sent on to the recommender. */
  datatype MatchScore = MatchScore(
    jobId: string, candidateId: string, title: string, company: string, matchScore: real, verdict: Label,
    skillGaps: seq<string>, strengths: seq<string>, salaryRange: string, location: string, remote: bool,
    sourceUrl: string)

  // ---------------------------------------------------------------- which skills are used

  /** `if not candidate_skills: candidate_skills = [...]`: absent and empty both fall back to the default. */
  function SkillsUsed(candidateSkills: Option<seq<string>>): (r: seq<string>)
    ensures r != []
    ensures candidateSkills.Some? && candidateSkills.value != [] ==> r == candidateSkills.value
    ensures candidateSkills.None? || candidateSkills.value == [] ==> r == DefaultSkills
  {
    if candidateSkills.None? || candidateSkills.value == [] then DefaultSkills else candidateSkills.value
  }

  // ---------------------------------------------------------------- strengths and gaps

  /** `cs.lower() in skill.lower() or skill.lower() in cs.lower()` */
  predicate Overlaps(candidateSkill: string, requirement: string) {
    Contains(Lower(candidateSkill), Lower(requirement)) || Contains(Lower(requirement), Lower(candidateSkill))
  }

  /** Some candidate skill overlaps the requirement. */
  predicate IsStrength(requirement: string, skills: seq<string>) {
    exists i | 0 <= i < |skills| :: Overlaps(skills[i], requirement)
  }

  /** `matching_skills`: the requirements some skill overlaps, in requirement order. */
  function Strengths(requirements: seq<string>, skills: seq<string>): seq<string> {
    Filter(requirements, r => IsStrength(r, skills))
  }

  /** `missing_skills`: the requirements that are not among the matching ones. */
  function Gaps(requirements: seq<string>, skills: seq<string>): seq<string> {
    var matching := Strengths(requirements, skills);
    Filter(requirements, r => r !in matching)
  }

  /** A requirement is a strength iff it is one of the requirements and some skill overlaps it. */
  lemma StrengthsIff(requirements: seq<string>, skills: seq<string>)
    ensures forall r :: r in Strengths(requirements, skills) <==> r in requirements && IsStrength(r, skills)
  {
    FilterMembers(requirements, r => IsStrength(r, skills));
  }

  /** The gaps are exactly the requirements no skill overlaps, in requirement order. */
  lemma GapsAreUnmatched(requirements: seq<string>, skills: seq<string>)
    ensures Gaps(requirements, skills) == Filter(requirements, r => !IsStrength(r, skills))
  {
    StrengthsIff(requirements, skills);
    var matching := Strengths(requirements, skills);
    FilterCongruent(requirements, r => r !in matching, r => !IsStrength(r, skills));
  }

  /** Every occurrence of a requirement lands in exactly one of the two lists. */
  lemma StrengthsGapsPartition(requirements: seq<string>, skills: seq<string>)
    ensures multiset(Strengths(requirements, skills)) + multiset(Gaps(requirements, skills)) == multiset(requirements)
    ensures |Strengths(requirements, skills)| + |Gaps(requirements, skills)| == |requirements|
    ensures forall r :: r in Gaps(requirements, skills) <==> r in requirements && !IsStrength(r, skills)
  {
    GapsAreUnmatched(requirements, skills);
    FilterPartition(requirements, r => IsStrength(r, skills), r => !IsStrength(r, skills));
    FilterMembers(requirements, r => !IsStrength(r, skills));
  }

  /** Both lists keep the requirements' order. */
  lemma StrengthsGapsInOrder(requirements: seq<string>, skills: seq<string>)
    ensures IsSubsequence(Strengths(requirements, skills), requirements)
    ensures IsSubsequence(Gaps(requirements, skills), requirements)
  {
    FilterSubsequence(requirements, r => IsStrength(r, skills));
    var matching := Strengths(requirements, skills);
    FilterSubsequence(requirements, r => r !in matching);
  }

  /** The match ignores the case of the requirement. */
  lemma StrengthIgnoresCase(requirement: string, skills: seq<string>)
    ensures IsStrength(Lower(requirement), skills) == IsStrength(requirement, skills)
  {
    LowerIdempotent(requirement);
    assert forall i :: 0 <= i < |skills| ==> (Overlaps(skills[i], Lower(requirement)) == Overlaps(skills[i], requirement));
  }

  // ---------------------------------------------------------------- the score

  /** `min(x, 100)` */
  function Cap(x: real): (r: real)
    ensures r <= Ceiling && r <= x
    ensures r == x || r == Ceiling
  {
    if x <= Ceiling then x else Ceiling
  }

  /** The discovery score as a percentage. */
  function BaseScore(job: JobListing): real {
    job.matchScore * 100.0
  }

  /** `len(matching_skills) / len(job.requirements) * 10`, or nothing when there are no requirements. */
  function RequirementsBoost(job: JobListing, skills: seq<string>): (r: real)
    ensures 0.0 <= r <= RequirementsWeight
  {
    if job.requirements == [] then 0.0
    else (|Strengths(job.requirements, skills)| as real / |job.requirements| as real) * RequirementsWeight
  }

  /** `job.salary_range and job.salary_range != "Not specified"` */
  predicate HasSalary(job: JobListing) {
    job.salaryRange != [] && job.salaryRange != "Not specified"
  }

  /** The score after the three capped bonus steps. */
  function CompatibilityScore(job: JobListing, skills: seq<string>): (r: real)
    ensures 0.0 <= job.matchScore <= 1.0 ==> 0.0 <= r <= Ceiling
    ensures BaseScore(job) <= Ceiling ==> BaseScore(job) <= r <= Ceiling
    ensures r == BaseScore(job) || r <= Ceiling
  {
    var afterRequirements :=
      if job.requirements == [] then BaseScore(job) else Cap(BaseScore(job) + RequirementsBoost(job, skills));
    var afterRemote := if job.remote then Cap(afterRequirements + RemoteBonus) else afterRequirements;
    if HasSalary(job) then Cap(afterRemote + SalaryBonus) else afterRemote
  }

  /** The uncapped sum of the base and every bonus that applies. */
  function UncappedScore(job: JobListing, skills: seq<string>): real {
    BaseScore(job) + RequirementsBoost(job, skills)
    + (if job.remote then RemoteBonus else 0.0)
    + (if HasSalary(job) then SalaryBonus else 0.0)
  }

  /** Below the ceiling no cap takes effect: each bonus is added in full, and only when its condition holds. */
  lemma ExactBonuses(job: JobListing, skills: seq<string>)
    requires UncappedScore(job, skills) <= Ceiling
    ensures CompatibilityScore(job, skills) == UncappedScore(job, skills)
  {
  }

  /** Each step is capped separately, so from a base within range the score is the capped sum. */
  lemma CappedSum(job: JobListing, skills: seq<string>)
    requires 0.0 <= job.matchScore <= 1.0
    ensures CompatibilityScore(job, skills) == Cap(UncappedScore(job, skills))
  {
  }

  /** A remote listing never scores below the same listing on site. */
  lemma RemoteNeverHurts(job: JobListing, skills: seq<string>)
    requires !job.remote && BaseScore(job) <= Ceiling
    ensures CompatibilityScore(job.(remote := true), skills) >= CompatibilityScore(job, skills)
  {
    assert RequirementsBoost(job.(remote := true), skills) == RequirementsBoost(job, skills);
  }

  /** A listing that meets every requirement and offers everything scores its base plus 18, up to 100. */
  lemma AllRequirementsMet(job: JobListing, skills: seq<string>)
    requires 0.0 <= job.matchScore <= 1.0
    requires job.requirements != [] && job.remote && HasSalary(job)
    requires forall r :: r in job.requirements ==> IsStrength(r, skills)
    ensures CompatibilityScore(job, skills) == Cap(BaseScore(job) + 18.0)
  {
    FilterAll(job.requirements, r => IsStrength(r, skills));
    assert Strengths(job.requirements, skills) == job.requirements;
    FullBoost(|job.requirements|);
    assert RequirementsBoost(job, skills) == RequirementsWeight;
    CapChain(BaseScore(job));
  }

  lemma FullBoost(n: nat)
    requires n > 0
    ensures (n as real / n as real) * RequirementsWeight == RequirementsWeight
  {
  }

  lemma CapChain(b: real)
    requires 0.0 <= b <= Ceiling
    ensures Cap(Cap(Cap(b + RequirementsWeight) + RemoteBonus) + SalaryBonus) == Cap(b + 18.0)
  {
  }

  /** The recommendation line: excellent from 80, good from 60, moderate below. */
  function LabelOf(score: real): (l: Label)
    ensures l == Excellent <==> score >= ExcellentAt
    ensures l == Good <==> GoodAt <= score < ExcellentAt
    ensures l == Moderate <==> score < GoodAt
  {
    if score >= ExcellentAt then Excellent else if score >= GoodAt then Good else Moderate
  }

  function Rank(l: Label): nat {
    match l
    case Moderate => 0
    case Good => 1
    case Excellent => 2
  }

  /** A higher score never gets a lower label. */
  lemma LabelMonotone(s: real, t: real)
    requires s <= t
    ensures Rank(LabelOf(s)) <= Rank(LabelOf(t))
  {
  }

  /** `calculate_compatibility_score(job, candidate_skills)` */
  function Analyze(job: JobListing, candidateSkills: Option<seq<string>>): (a: Analysis)
    ensures a.score == CompatibilityScore(job, SkillsUsed(candidateSkills))
    ensures a.verdict == LabelOf(a.score)
    ensures |a.strengths| <= MaxListed && |a.skillGaps| <= MaxListed
    ensures a.strengths <= Strengths(job.requirements, SkillsUsed(candidateSkills))
    ensures a.skillGaps <= Gaps(job.requirements, SkillsUsed(candidateSkills))
    ensures |a.strengths| == Min(MaxListed, |Strengths(job.requirements, SkillsUsed(candidateSkills))|)
    ensures |a.skillGaps| == Min(MaxListed, |Gaps(job.requirements, SkillsUsed(candidateSkills))|)
    ensures forall r :: r in a.strengths ==> r in job.requirements && IsStrength(r, SkillsUsed(candidateSkills))
    ensures forall r :: r in a.skillGaps ==> r in job.requirements && !IsStrength(r, SkillsUsed(candidateSkills))
    ensures job.requirements == [] ==> a.strengths == [] && a.skillGaps == []
  {
    var skills := SkillsUsed(candidateSkills);
    StrengthsIff(job.requirements, skills);
    StrengthsGapsPartition(job.requirements, skills);
    var score := CompatibilityScore(job, skills);
    Analysis(score, LabelOf(score), Take(Gaps(job.requirements, skills), MaxListed),
             Take(Strengths(job.requirements, skills), MaxListed))
  }

  /** The `MatchScore` built in `score_compatibility`: the listing's fields with the analysis filled in. */
  function ScoreMessage(msg: JobListing, candidateSkills: Option<seq<string>>): (m: MatchScore)
    ensures m.jobId == msg.jobId && m.candidateId == msg.candidateId
    ensures m.title == msg.title && m.company == msg.company
    ensures m.salaryRange == msg.salaryRange && m.location == msg.location
    ensures m.remote == msg.remote && m.sourceUrl == msg.sourceUrl
    ensures m.matchScore == CompatibilityScore(msg, SkillsUsed(candidateSkills))
    ensures m.verdict == LabelOf(m.matchScore)
    ensures m.strengths == Analyze(msg, candidateSkills).strengths
    ensures m.skillGaps == Analyze(msg, candidateSkills).skillGaps
    ensures |m.strengths| <= MaxListed && |m.skillGaps| <= MaxListed
  {
    var a := Analyze(msg, candidateSkills);
    MatchScore(msg.jobId, msg.candidateId, msg.title, msg.company, a.score, a.verdict, a.skillGaps,
               a.strengths, msg.salaryRange, msg.location, msg.remote, msg.sourceUrl)
  }

  /** `dict.get(key, None)` */
  function Lookup(profiles: map<string, seq<string>>, key: string): (r: Option<seq<string>>)
    ensures r.Some? <==> key in profiles
    ensures r.Some? ==> r.value == profiles[key]
  {
    if key in profiles then Some(profiles[key]) else None
  }

  /** The scorer agent's state: the skills cached per candidate. */
  class ScorerAgent {
    var candidateProfiles: map<string, seq<string>>

    constructor()
      ensures candidateProfiles == map[]
    {
      candidateProfiles := map[];
    }

    /** `cache_profile`: remember the candidate's skills, replacing any earlier entry. */
    method CacheProfile(candidateId: string, skills: seq<string>)
      modifies this
      ensures candidateProfiles == old(candidateProfiles)[candidateId := skills]
    {
      candidateProfiles := candidateProfiles[candidateId := skills];
    }

    /** `score_compatibility`: score with the cached skills when there are any, else the default ones. */
    method ScoreCompatibility(msg: JobListing) returns (m: MatchScore)
      ensures m == ScoreMessage(msg, Lookup(candidateProfiles, msg.candidateId))
      ensures msg.candidateId in candidateProfiles && candidateProfiles[msg.candidateId] != [] ==>
        m.matchScore == CompatibilityScore(msg, candidateProfiles[msg.candidateId])
      ensures msg.candidateId !in candidateProfiles ==> m.matchScore == CompatibilityScore(msg, DefaultSkills)
    {
      var cached := Lookup(candidateProfiles, msg.candidateId);
      m := ScoreMessage(msg, cached);
    }
  }

  /** After `cache_profile` with a non-empty list, that candidate's listings are scored against it. */
  lemma CachedSkillsAreUsed(profiles: map<string, seq<string>>, candidateId: string, skills: seq<string>, msg: JobListing)
    requires skills != [] && msg.candidateId == candidateId
    ensures ScoreMessage(msg, Lookup(profiles[candidateId := skills], msg.candidateId)).matchScore
         == CompatibilityScore(msg, skills)
  {
  }
}
