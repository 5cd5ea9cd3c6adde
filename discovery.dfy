/** The job discovery agent: `JobBoardAggregator` and the fallback in `discover_jobs`
    (agents/job_discovery_agent.py). Each source's HTTP response is given as the list of its
    postings, with the index of the posting whose handling raises, if any; the clock is the parameter `now` and
    `datetime.fromisoformat` is the abstract parser `parse`. */
module Discovery {
  import opened Wrappers
  import opened Text
  import opened Seqs
  import Sorting
  import opened Dedup

  const MaxJobsPerSource: nat := 5
  const MaxJobsTotal: nat := 15
  const DaysFilter: nat := 14
  const SecondsPerDay: nat := 86400
  /** Only `skills[:5]` take part in matching. */
  const ScoredSkillCount: nat := 5
  const MinMatchScore: real := 0.15
  const DescriptionLimit: nat := 500
  const FallbackScore: real := 0.5
  /** The default of `job.get(field, 'N/A')` in the job dictionaries. */
  const NotAvailable: string := "N/A"

  datatype Source = Adzuna | FindWork | GoogleJobs | Remotive

  /** One posting of a source's response. The title and the description are read twice with two
      defaults (`''` for the match text, `'N/A'` for the job dictionary), so they are kept as read:
      `None` when the key is missing. Every other field is read with one default, already applied. */
  datatype RawPosting = RawPosting(
    title: Option<string>, company: string, location: string, description: Option<string>, url: string,
    salary: string, remote: bool, keywords: string, category: string, posted: Option<string>)

  /** A decoded response: the postings in order, and the index of the posting whose handling raises
      (a field of the wrong type, say), if one does. The `except` clause around the loop then
      returns the jobs appended before it. */
  datatype Response = Response(postings: seq<RawPosting>, raisesAt: Option<nat>)

  /** The job dictionary an adapter returns. */
  datatype Job = Job(
    title: string, company: string, location: string, description: string, url: string,
    salary: string, remote: bool, source: string, matchScore: real, requirements: seq<string>)

  /** What every filter needs: the candidate's skills, the current time in seconds, and the date parser
      (`None` stands for any exception the parse or the comparison raises). */
  datatype Criteria = Criteria(skills: seq<string>, now: int, parse: string -> Option<int>)

  // ---------------------------------------------------------------- recency

  function Cutoff(now: int): int {
    now - DaysFilter * SecondsPerDay
  }

  /** `_is_recent_job`: fail-open; only a date that parses and lies before the cutoff is stale. */
  function IsRecentJob(posted: Option<string>, now: int, parse: string -> Option<int>): (r: bool)
    ensures !r <==> && posted.Some? && posted.value != []
                    && parse(Before(posted.value, 'T')).Some?
                    && parse(Before(posted.value, 'T')).value < Cutoff(now)
  {
    match posted
    case None => true
    case Some(s) =>
      if s == [] then true
      else
        var datePart := if 'T' in s then Before(s, 'T') else s;
        match parse(datePart)
        case None => true
        case Some(t) => t >= Cutoff(now)
  }

  // ---------------------------------------------------------------- skill matching

  /** `skill.lower() in job_text.lower()` */
  predicate SkillOccurs(skill: string, text: string) {
    Contains(Lower(skill), Lower(text))
  }

  function ScoredCount(skills: seq<string>): nat {
    Min(ScoredSkillCount, |skills|)
  }

  /** One of the first five skills occurs in the text, ignoring case. */
  predicate QuickMatch(text: string, skills: seq<string>) {
    exists i | 0 <= i < ScoredCount(skills) :: SkillOccurs(skills[i], text)
  }

  /** `_quick_skill_match` */
  method QuickSkillMatch(text: string, skills: seq<string>) returns (r: bool)
    ensures r == QuickMatch(text, skills)
  {
    var textLower := Lower(text);
    var n := ScoredCount(skills);
    for i := 0 to n
      invariant forall k :: 0 <= k < i ==> !SkillOccurs(skills[k], text)
    {
      if Contains(Lower(skills[i]), textLower) {
        return true;
      }
    }
    return false;
  }

  /** The first three skills weigh 0.25, the fourth and fifth 0.15. */
  function Weight(i: nat): real {
    if i < 3 then 0.25 else 0.15
  }

  /** The unclamped sum of the weights of the skills among the first `n` that occur in the text. */
  function RawScore(text: string, skills: seq<string>, n: nat): (r: real)
    requires n <= |skills|
    ensures r >= 0.0
  {
    if n == 0 then 0.0
    else RawScore(text, skills, n - 1) + (if SkillOccurs(skills[n - 1], text) then Weight(n - 1) else 0.0)
  }

  /** The match score of `_calculate_match_score`: the weighted sum clamped by `min(matches, 1.0)`. */
  function MatchScore(text: string, skills: seq<string>): (r: real)
    ensures 0.0 <= r <= 1.0
  {
    var raw := RawScore(text, skills, ScoredCount(skills));
    if raw <= 1.0 then raw else 1.0
  }

  /** `_calculate_match_score` */
  method CalculateMatchScore(text: string, skills: seq<string>) returns (score: real)
    ensures score == MatchScore(text, skills)
    ensures 0.0 <= score <= 1.0
  {
    var textLower := Lower(text);
    var matches := 0.0;
    var n := ScoredCount(skills);
    for i := 0 to n
      invariant matches == RawScore(text, skills, i)
    {
      if Contains(Lower(skills[i]), textLower) {
        var weight := if i < 3 then 0.25 else 0.15;
        matches := matches + weight;
      }
    }
    score := if matches <= 1.0 then matches else 1.0;
  }

  lemma {:induction false} RawScorePositive(text: string, skills: seq<string>, n: nat)
    requires n <= |skills|
    ensures (exists i | 0 <= i < n :: SkillOccurs(skills[i], text)) ==> RawScore(text, skills, n) >= MinMatchScore
    ensures !(exists i | 0 <= i < n :: SkillOccurs(skills[i], text)) ==> RawScore(text, skills, n) == 0.0
  {
    if n > 0 {
      RawScorePositive(text, skills, n - 1);
      if !SkillOccurs(skills[n - 1], text) {
        if exists i | 0 <= i < n :: SkillOccurs(skills[i], text) {
          var i :| 0 <= i < n && SkillOccurs(skills[i], text);
          assert i < n - 1;
        }
      }
    }
  }

  /** The quick check holds exactly when the score is positive, and then the score already reaches the
      0.15 threshold: the threshold test in the filter loop never rejects a posting the quick check kept. */
  lemma QuickMatchIffScored(text: string, skills: seq<string>)
    ensures QuickMatch(text, skills) <==> MatchScore(text, skills) > 0.0
    ensures QuickMatch(text, skills) ==> MatchScore(text, skills) >= MinMatchScore
  {
    RawScorePositive(text, skills, ScoredCount(skills));
  }

  lemma {:induction false} RawScoreDependsOnPrefix(text: string, a: seq<string>, b: seq<string>, n: nat)
    requires n <= |a| && n <= |b| && a[..n] == b[..n]
    ensures RawScore(text, a, n) == RawScore(text, b, n)
  {
    if n > 0 {
      assert a[n - 1] == a[..n][n - 1] == b[n - 1];
      assert a[..n - 1] == a[..n][..n - 1];
      assert b[..n - 1] == b[..n][..n - 1];
      RawScoreDependsOnPrefix(text, a, b, n - 1);
    }
  }

  /** Only the first five skills count: the score and the quick check see `skills[:5]` only. */
  lemma OnlyTopFiveCount(text: string, skills: seq<string>)
    ensures MatchScore(text, skills) == MatchScore(text, Take(skills, ScoredSkillCount))
    ensures QuickMatch(text, skills) == QuickMatch(text, Take(skills, ScoredSkillCount))
  {
    var top := Take(skills, ScoredSkillCount);
    var n := ScoredCount(skills);
    assert ScoredCount(top) == n;
    assert top[..n] == skills[..n];
    RawScoreDependsOnPrefix(text, skills, top, n);
    assert forall i :: 0 <= i < n ==> top[i] == skills[i];
  }

  /** When all five scored skills occur the sum is 1.05 and the clamp brings it down to 1.0. */
  lemma AllTopSkillsMatch(text: string, skills: seq<string>)
    requires |skills| >= ScoredSkillCount
    requires forall i :: 0 <= i < ScoredSkillCount ==> SkillOccurs(skills[i], text)
    ensures RawScore(text, skills, ScoredSkillCount) == 1.05
    ensures MatchScore(text, skills) == 1.0
  {
    assert RawScore(text, skills, 1) == 0.25;
    assert RawScore(text, skills, 2) == 0.5;
    assert RawScore(text, skills, 3) == 0.75;
    assert RawScore(text, skills, 4) == 0.9;
  }

  // ---------------------------------------------------------------- per-source filter loop

  /** The text each source matches against. */
  function JobText(src: Source, p: RawPosting): string {
    var title, description := GetOr(p.title, ""), GetOr(p.description, "");
    match src
    case Adzuna => title + " " + description
    case FindWork => title + " " + description + " " + p.keywords
    case GoogleJobs => title + " " + description
    case Remotive => title + " " + description + " " + p.category
  }

  /** FindWork and Remotive apply the recency check; Adzuna asks its API for recent postings instead. */
  predicate ChecksDate(src: Source) {
    src.FindWork? || src.Remotive?
  }

  /** Remotive is free; the other three return nothing without credentials. */
  predicate NeedsCredentials(src: Source) {
    !src.Remotive?
  }

  function SourceName(src: Source): string {
    match src
    case Adzuna => "Adzuna"
    case FindWork => "FindWork"
    case GoogleJobs => "Google Jobs"
    case Remotive => "Remotive"
  }

  /** A posting survives the loop body: recent (where checked), quick match, score at least 0.15. */
  predicate Passes(src: Source, p: RawPosting, c: Criteria) {
    && (ChecksDate(src) ==> IsRecentJob(p.posted, c.now, c.parse))
    && QuickMatch(JobText(src, p), c.skills)
    && MatchScore(JobText(src, p), c.skills) >= MinMatchScore
  }

  /** FindWork takes up to five comma-separated keywords as requirements; the other sources none. */
  function Requirements(src: Source, p: RawPosting): (r: seq<string>)
    ensures |r| <= 5
    ensures forall k :: 0 <= k < |r| ==> ',' !in r[k]
  {
    if src.FindWork? && p.keywords != [] then Take(Split(p.keywords, ','), 5) else []
  }

  /** The job dictionary a source appends for a posting with the given score. */
  function MakeJob(src: Source, p: RawPosting, score: real): (j: Job)
    ensures j.title == GetOr(p.title, NotAvailable) && j.company == p.company && j.matchScore == score
    ensures j.location == p.location && j.url == p.url
    ensures j.description <= GetOr(p.description, NotAvailable)
    ensures |j.description| == Min(DescriptionLimit, |GetOr(p.description, NotAvailable)|)
    ensures j.source == SourceName(src) && j.requirements == Requirements(src, p)
    ensures src.FindWork? ==> j.salary == "Not specified" && j.remote == p.remote
    ensures !src.FindWork? ==> j.salary == p.salary
    ensures src.Remotive? ==> j.remote
    ensures (src.Adzuna? || src.GoogleJobs?) ==> (j.remote <==> Contains("remote", Lower(JobText(src, p))))
  {
    var text := JobText(src, p);
    var remote := match src
      case Adzuna => Contains("remote", Lower(text))
      case GoogleJobs => Contains("remote", Lower(text))
      case FindWork => p.remote
      case Remotive => true;
    Job(GetOr(p.title, NotAvailable), p.company, p.location, Take(GetOr(p.description, NotAvailable), DescriptionLimit), p.url,
        if src.FindWork? then "Not specified" else p.salary,
        remote, SourceName(src), score, Requirements(src, p))
  }

  function ToJob(src: Source, p: RawPosting, skills: seq<string>): Job {
    MakeJob(src, p, MatchScore(JobText(src, p), skills))
  }

  /** A posting without a title is matched on a text that starts with the separating blank, and its
      job is titled "N/A". */
  lemma MissingTitle(src: Source, p: RawPosting, score: real)
    requires p.title.None?
    ensures JobText(src, p)[0] == ' '
    ensures MakeJob(src, p, score).title == NotAvailable
  {
  }

  /** Every posting that passes, turned into a job, in input order (before the per-source cap). */
  function Kept(src: Source, ps: seq<RawPosting>, c: Criteria): seq<Job> {
    FilterMap(ps, p => Passes(src, p, c), p => ToJob(src, p, c.skills))
  }

  lemma KeptSnoc(src: Source, ps: seq<RawPosting>, c: Criteria, i: nat)
    requires i < |ps|
    ensures Kept(src, ps[..i + 1], c) ==
      Kept(src, ps[..i], c) + (if Passes(src, ps[i], c) then [ToJob(src, ps[i], c.skills)] else [])
  {
    assert ps[..i + 1][..i] == ps[..i];
  }

  /** The jobs kept from a prefix of the response are a prefix of the jobs kept from all of it. */
  lemma KeptPrefix(src: Source, ps: seq<RawPosting>, c: Criteria, i: nat)
    requires i <= |ps|
    ensures Kept(src, ps[..i], c) <= Kept(src, ps, c)
  {
    FilterMapPrefix(ps, p => Passes(src, p, c), p => ToJob(src, p, c.skills), i);
  }

  /** The kept jobs are the passing postings in the order the source listed them. */
  lemma KeptInInputOrder(src: Source, ps: seq<RawPosting>, c: Criteria)
    ensures exists idx: seq<nat> ::
      && |idx| == |Kept(src, ps, c)|
      && (forall a :: 0 <= a < |idx| ==>
            idx[a] < |ps| && Passes(src, ps[idx[a]], c) && Kept(src, ps, c)[a] == ToJob(src, ps[idx[a]], c.skills))
      && (forall a, b :: 0 <= a < b < |idx| ==> idx[a] < idx[b])
  {
    var keep, f := p => Passes(src, p, c), p => ToJob(src, p, c.skills);
    var kept := Kept(src, ps, c);
    assert kept == FilterMap(ps, keep, f);
    var idx := FilterMapOrigins(ps, keep, f);
    forall a | 0 <= a < |idx|
      ensures idx[a] < |ps| && Passes(src, ps[idx[a]], c) && kept[a] == ToJob(src, ps[idx[a]], c.skills)
    {
      assert keep(ps[idx[a]]);
    }
  }

  /** Whatever is kept passed the checks: its score is at least 0.15 and it comes from a passing posting. */
  lemma KeptSound(src: Source, ps: seq<RawPosting>, c: Criteria)
    ensures forall j :: j in Kept(src, ps, c) ==>
      j.matchScore >= MinMatchScore && exists k :: 0 <= k < |ps| && Passes(src, ps[k], c) && j == ToJob(src, ps[k], c.skills)
  {
    FilterMapSound(ps, p => Passes(src, p, c), p => ToJob(src, p, c.skills));
    forall j | j in Kept(src, ps, c)
      ensures j.matchScore >= MinMatchScore
    {
      var k :| 0 <= k < |ps| && Passes(src, ps[k], c) && j == ToJob(src, ps[k], c.skills);
    }
  }

  /** The capped list inherits the soundness of what is kept. */
  lemma CappedSound(src: Source, ps: seq<RawPosting>, c: Criteria)
    ensures forall j :: j in Take(Kept(src, ps, c), MaxJobsPerSource) ==>
      j.matchScore >= MinMatchScore && exists k :: 0 <= k < |ps| && Passes(src, ps[k], c) && j == ToJob(src, ps[k], c.skills)
  {
    KeptSound(src, ps, c);
    var kept := Kept(src, ps, c);
    forall j | j in Take(kept, MaxJobsPerSource) ensures j in kept {
    }
  }

  /** One pass of the loop body: `None` where the source's loop continues without appending. */
  method Screen(src: Source, p: RawPosting, c: Criteria) returns (job: Option<Job>)
    ensures job.Some? <==> Passes(src, p, c)
    ensures job.Some? ==> job.value == ToJob(src, p, c.skills)
  {
    if ChecksDate(src) && !IsRecentJob(p.posted, c.now, c.parse) {
      return None;
    }
    var text := JobText(src, p);
    var quick := QuickSkillMatch(text, c.skills);
    if !quick {
      return None;
    }
    var score := CalculateMatchScore(text, c.skills);
    if score >= MinMatchScore {
      job := Some(MakeJob(src, p, score));
    } else {
      job := None;
    }
  }

  /** The loop inside each `fetch_*_jobs`: run the body's checks over the response in order and stop at five. */
  method FilterPostings(src: Source, ps: seq<RawPosting>, c: Criteria) returns (jobs: seq<Job>)
    ensures jobs == Take(Kept(src, ps, c), MaxJobsPerSource)
    ensures |jobs| <= MaxJobsPerSource
  {
    jobs := FilterMapUpTo(ps, p => Passes(src, p, c), p => ToJob(src, p, c.skills), MaxJobsPerSource);
  }

  /** The postings the loop gets through: all of them, or those before the one whose handling raises. */
  function Handled(r: Response): (ps: seq<RawPosting>)
    ensures ps <= r.postings
  {
    match r.raisesAt
    case None => r.postings
    case Some(k) => Take(r.postings, k)
  }

  /** The reference result of one `fetch_*_jobs` call. `None` is a non-200 status or an exception
      raised before the loop. */
  function Fetched(src: Source, hasCredentials: bool, response: Option<Response>, c: Criteria): seq<Job> {
    if (NeedsCredentials(src) && !hasCredentials) || response.None? then []
    else Take(Kept(src, Handled(response.value), c), MaxJobsPerSource)
  }

  /** One `fetch_*_jobs` call: no credentials, or a failed request, gives no jobs; an exception inside
      the loop ends it, and the jobs appended so far are returned. */
  method FetchJobs(src: Source, hasCredentials: bool, response: Option<Response>, c: Criteria)
    returns (jobs: seq<Job>)
    ensures jobs == Fetched(src, hasCredentials, response, c)
    ensures (NeedsCredentials(src) && !hasCredentials) || response.None? ==> jobs == []
    ensures |jobs| <= MaxJobsPerSource
  {
    if NeedsCredentials(src) && !hasCredentials {
      return [];
    }
    if response.None? {
      return [];
    }
    jobs := FilterPostings(src, Handled(response.value), c);
  }

  /** A raise inside the loop returns a prefix of what the loop would have returned without it. */
  lemma RaiseKeepsPrefix(src: Source, hasCredentials: bool, ps: seq<RawPosting>, k: nat, c: Criteria)
    ensures Fetched(src, hasCredentials, Some(Response(ps, Some(k))), c) <=
            Fetched(src, hasCredentials, Some(Response(ps, None)), c)
  {
    if !(NeedsCredentials(src) && !hasCredentials) {
      var i := if k <= |ps| then k else |ps|;
      assert Take(ps, k) == ps[..i];
      KeptPrefix(src, ps, c, i);
      TakeMonotone(Kept(src, ps[..i], c), Kept(src, ps, c), MaxJobsPerSource);
    }
  }

  /** A raise after five jobs are already kept changes nothing: the loop had broken off before it. */
  lemma RaiseAfterCap(src: Source, hasCredentials: bool, ps: seq<RawPosting>, k: nat, c: Criteria)
    requires k <= |ps| && |Kept(src, ps[..k], c)| >= MaxJobsPerSource
    ensures Fetched(src, hasCredentials, Some(Response(ps, Some(k))), c) ==
            Fetched(src, hasCredentials, Some(Response(ps, None)), c)
  {
    assert Take(ps, k) == ps[..k];
    KeptPrefix(src, ps, c, k);
  }

  /** With no skills nothing matches, so every source comes back empty. */
  lemma {:induction false} NoSkillsNoJobs(src: Source, ps: seq<RawPosting>, c: Criteria)
    requires c.skills == []
    ensures Kept(src, ps, c) == []
    decreases |ps|
  {
    if ps != [] {
      NoSkillsNoJobs(src, ps[..|ps| - 1], c);
      KeptSnoc(src, ps, c, |ps| - 1);
      assert ps[..|ps|] == ps;
    }
  }

  // ---------------------------------------------------------------- aggregate_jobs

  /** One element of `asyncio.gather(..., return_exceptions=True)`: a list, or an exception object. */
  datatype TaskResult = Completed(jobs: seq<Job>) | Raised

  /** `all_jobs`: the lists of the tasks that completed, concatenated in task order. */
  function Collected(results: seq<TaskResult>): seq<Job>
    decreases |results|
  {
    if results == [] then []
    else
      var last := results[|results| - 1];
      Collected(results[..|results| - 1]) + (if last.Completed? then last.jobs else [])
  }

  method CollectJobs(results: seq<TaskResult>) returns (all: seq<Job>)
    ensures all == Collected(results)
  {
    all := [];
    for i := 0 to |results|
      invariant all == Collected(results[..i])
    {
      assert results[..i + 1][..i] == results[..i];
      if results[i].Completed? {
        all := all + results[i].jobs;
      }
    }
    assert results[..|results|] == results;
  }

  lemma {:induction false} CollectedFromCompleted(results: seq<TaskResult>)
    ensures forall j :: j in Collected(results) ==>
      exists k :: 0 <= k < |results| && results[k].Completed? && j in results[k].jobs
    decreases |results|
  {
    if results != [] {
      var init := results[..|results| - 1];
      CollectedFromCompleted(init);
      forall j | j in Collected(results)
        ensures exists k :: 0 <= k < |results| && results[k].Completed? && j in results[k].jobs
      {
        if j in Collected(init) {
          var k :| 0 <= k < |init| && init[k].Completed? && j in init[k].jobs;
          assert results[k] == init[k];
        } else {
          assert results[|results| - 1].Completed? && j in results[|results| - 1].jobs;
        }
      }
    }
  }

  /** The deduplication key `f"{title}-{company}".lower()`. */
  function Key(j: Job): string {
    Lower(j.title + "-" + j.company)
  }

  /** The loop of `aggregate_jobs` that grows `seen` and `unique_jobs`. */
  method RemoveDuplicates(s: seq<Job>) returns (unique: seq<Job>)
    ensures unique == Deduplicated(s, Key)
  {
    var seen: set<string> := {};
    unique := [];
    for i := 0 to |s|
      invariant unique == Deduplicated(s[..i], Key)
      invariant seen == KeysOf(unique, Key)
    {
      assert s[..i + 1][..i] == s[..i];
      var key := Key(s[i]);
      if key !in seen {
        KeysOfSnoc(unique, s[i], Key);
        seen := seen + {key};
        unique := unique + [s[i]];
      }
    }
    assert s[..|s|] == s;
  }

  function Score(j: Job): real {
    j.matchScore
  }

  lemma {:induction false} WithKeyTake(s: seq<Job>, n: nat, v: real)
    ensures Sorting.WithKey(Take(s, n), Score, v) <= Sorting.WithKey(s, Score, v)
    decreases |s|
  {
    if |s| > n {
      var init := s[..|s| - 1];
      WithKeyTake(init, n, v);
      assert Take(init, n) == Take(s, n);
    }
  }

  /** The reference result of `aggregate_jobs`. */
  function Aggregated(results: seq<TaskResult>): seq<Job> {
    Take(Sorting.SortDesc(Deduplicated(Collected(results), Key), Score), MaxJobsTotal)
  }

  /** `aggregate_jobs` over the gathered task results: concatenate, deduplicate, sort, cap. */
  method AggregateJobs(results: seq<TaskResult>) returns (jobs: seq<Job>)
    ensures jobs == Aggregated(results)
    ensures |jobs| <= MaxJobsTotal
    ensures Sorting.NonIncreasing(jobs, Score)
    ensures forall v :: Sorting.WithKey(jobs, Score, v) <= Sorting.WithKey(Deduplicated(Collected(results), Key), Score, v)
    ensures DistinctKeys(jobs, Key)
    ensures forall j :: j in jobs ==> exists k :: 0 <= k < |results| && results[k].Completed? && j in results[k].jobs
  {
    var all := CollectJobs(results);
    var unique := RemoveDuplicates(all);
    var a := new Job[|unique|](i requires 0 <= i < |unique| => unique[i]);
    assert a[..] == unique;
    Sorting.SortInPlace(a, Score);
    var sorted := a[..];
    jobs := Take(sorted, MaxJobsTotal);

    Sorting.SortDescNonIncreasing(unique, Score);
    forall v ensures Sorting.WithKey(jobs, Score, v) <= Sorting.WithKey(unique, Score, v) {
      Sorting.SortDescStable(unique, Score, v);
      WithKeyTake(sorted, MaxJobsTotal, v);
    }
    DeduplicatedDistinct(all, Key);
    SortKeepsDistinct(unique, Key, Score);
    Sorting.SortDescElements(unique, Score);
    DeduplicatedOnlyFirst(all, Key);
    CollectedFromCompleted(results);
    forall j | j in jobs ensures j in all {
      assert j in sorted;
      var k :| FirstOfKey(all, k, Key) && all[k] == j;
    }
  }

  // ---------------------------------------------------------------- discover_jobs fallback

  /** The single posting `discover_jobs` substitutes when aggregation finds nothing. */
  function FallbackJob(skills: seq<string>): (j: Job)
    requires skills != []
  {
    Job(TitleCase(skills[0]) + " Developer Position", "Various Companies", "Remote",
        "We're currently aggregating job listings matching your profile. Please check back soon!",
        "https://jobmate.ai", "Competitive", true, "Fallback", FallbackScore, Take(skills, ScoredSkillCount))
  }

  /** The batch `discover_jobs` sends. `None` is the `IndexError` that `msg.skills[0]` raises when the
      aggregation found nothing and the candidate has no skills. */
  function DiscoverJobs(skills: seq<string>, aggregated: seq<Job>): (r: Option<seq<Job>>)
    ensures aggregated != [] ==> r == Some(aggregated)
    ensures aggregated == [] ==> (r.Some? <==> skills != [])
    ensures aggregated == [] && r.Some? ==>
      && |r.value| == 1
      && r.value[0].matchScore == FallbackScore
      && r.value[0].requirements == Take(skills, ScoredSkillCount)
      && r.value[0].source == "Fallback"
      && r.value[0].remote
  {
    if aggregated != [] then Some(aggregated)
    else if skills == [] then None
    else Some([FallbackJob(skills)])
  }

  /** An empty skill list matches nothing, so every source comes back empty. */
  lemma NoSkillsNothingFetched(src: Source, hasCredentials: bool, response: Option<Response>, c: Criteria)
    requires c.skills == []
    ensures Fetched(src, hasCredentials, response, c) == []
  {
    if response.Some? {
      NoSkillsNoJobs(src, Handled(response.value), c);
    }
  }

  /** The four tasks `aggregate_jobs` gathers, in the order it lists them. Each fetch catches its own
      exceptions, so every task completes with a list. */
  function SourceTasks(hasCredentials: Source -> bool, responses: Source -> Option<Response>, c: Criteria)
    : (tasks: seq<TaskResult>)
    ensures |tasks| == 4
    ensures forall i :: 0 <= i < 4 ==> tasks[i].Completed?
  {
    [Completed(Fetched(Adzuna, hasCredentials(Adzuna), responses(Adzuna), c)),
     Completed(Fetched(FindWork, hasCredentials(FindWork), responses(FindWork), c)),
     Completed(Fetched(GoogleJobs, hasCredentials(GoogleJobs), responses(GoogleJobs), c)),
     Completed(Fetched(Remotive, hasCredentials(Remotive), responses(Remotive), c))]
  }

  /** Task results that are all empty or raised collect nothing. */
  lemma {:induction false} NothingCollected(results: seq<TaskResult>)
    requires forall i :: 0 <= i < |results| && results[i].Completed? ==> results[i].jobs == []
    ensures Collected(results) == []
    decreases |results|
  {
    if results != [] {
      NothingCollected(results[..|results| - 1]);
    }
  }

  /** With no skills, whatever the sources answer, `aggregate_jobs` finds nothing and the fallback of
      `discover_jobs` raises on `msg.skills[0]`. */
  lemma NoSkillsFallbackRaises(hasCredentials: Source -> bool, responses: Source -> Option<Response>, c: Criteria)
    requires c.skills == []
    ensures Aggregated(SourceTasks(hasCredentials, responses, c)) == []
    ensures DiscoverJobs(c.skills, Aggregated(SourceTasks(hasCredentials, responses, c))).None?
  {
    var tasks := SourceTasks(hasCredentials, responses, c);
    NoSkillsNothingFetched(Adzuna, hasCredentials(Adzuna), responses(Adzuna), c);
    NoSkillsNothingFetched(FindWork, hasCredentials(FindWork), responses(FindWork), c);
    NoSkillsNothingFetched(GoogleJobs, hasCredentials(GoogleJobs), responses(GoogleJobs), c);
    NoSkillsNothingFetched(Remotive, hasCredentials(Remotive), responses(Remotive), c);
    NothingCollected(tasks);
    assert Deduplicated(Collected(tasks), Key) == [];
  }
}
