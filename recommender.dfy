/** The recommendation agent (agents/recommender_agent.py): the per-candidate table of pending
    match scores, the report built from a candidate's list, and the learning path for skill gaps.
    The report is kept as structured blocks; the text around them is not modelled. */
module Recommender {
  import opened Wrappers
  import opened Text
  import opened Seqs
  import Sorting
  import opened Scorer

  /** A report is produced once a candidate has this many pending scores. */
  const FlushAt: nat := 3
  /** The report renders this many matches. */
  const TopCount: nat := 3
  /** The learning path covers at most this many gaps. */
  const PathLength: nat := 3
  const ExcellentProfileAt: real := 80.0
  const StrongProfileAt: real := 60.0

  /** `learning_resources`, keyed by lower-cased skill name. */
  const Resources: map<string, string> := map[
    "kubernetes" := "Kubernetes.io tutorials, CKAD certification",
    "tensorflow" := "TensorFlow.org courses, Deep Learning Specialization",
    "react" := "React.dev documentation, Full Stack Open course",
    "aws" := "AWS Training, Solutions Architect certification",
    "typescript" := "TypeScript Handbook, Execute Program",
    "docker" := "Docker Documentation, Docker Certified Associate",
    "django" := "Django Documentation, Two Scoops of Django book",
    "node.js" := "Node.js Documentation, You Don't Know Node",
    "mongodb" := "MongoDB University, MongoDB Certified Developer"
  ]

  // ---------------------------------------------------------------- generate_learning_path

  /** One numbered line `i. **Skill**: resource`. */
  datatype PathLine = PathLine(number: nat, skill: string, resource: string)

  /** The fixed "all required skills" message, or the numbered lines. */
  datatype LearningPath = AllSkills | Steps(lines: seq<PathLine>)

  /** The table entry for the lower-cased name, or the generic search suggestion. */
  function ResourceFor(skill: string): (r: string)
    ensures Lower(skill) in Resources ==> r == Resources[Lower(skill)]
    ensures Lower(skill) !in Resources ==> r == "Search for " + skill + " courses on Coursera/Udemy"
  {
    if Lower(skill) in Resources then Resources[Lower(skill)]
    else "Search for " + skill + " courses on Coursera/Udemy"
  }

  function PathLineFor(number: nat, skill: string): PathLine {
    PathLine(number, TitleCase(skill), ResourceFor(skill))
  }

  /** The learning path `generate_learning_path` renders for these gaps. */
  function LearningPathOf(gaps: seq<string>): (p: LearningPath)
    ensures p.AllSkills? <==> gaps == []
    ensures p.Steps? ==> |p.lines| == Min(PathLength, |gaps|)
    ensures p.Steps? ==> forall i :: 0 <= i < |p.lines| ==>
      && p.lines[i].number == i + 1
      && Lower(p.lines[i].skill) == Lower(gaps[i])
      && p.lines[i].resource == ResourceFor(gaps[i])
  {
    if gaps == [] then AllSkills else Steps(PathLines(gaps, Min(PathLength, |gaps|)))
  }

  /** The numbered lines for the first `n` gaps. */
  function PathLines(gaps: seq<string>, n: nat): (lines: seq<PathLine>)
    requires n <= |gaps|
    ensures |lines| == n
    ensures forall i :: 0 <= i < n ==> lines[i] == PathLineFor(i + 1, gaps[i])
  {
    if n == 0 then [] else PathLines(gaps, n - 1) + [PathLineFor(n, gaps[n - 1])]
  }

  /** `generate_learning_path`: one line per gap among the first three. */
  method GenerateLearningPath(gaps: seq<string>) returns (p: LearningPath)
    ensures p == LearningPathOf(gaps)
  {
    if gaps == [] {
      return AllSkills;
    }
    var shown := Take(gaps, PathLength);
    var lines: seq<PathLine> := [];
    for i := 0 to |shown|
      invariant lines == PathLines(gaps, i)
    {
      lines := lines + [PathLineFor(i + 1, shown[i])];
    }
    p := Steps(lines);
  }

  // ---------------------------------------------------------------- create_recommendation_report

  /** One rendered match: rank, score and facts, strengths, gaps and, when there are gaps, their learning path. */
  datatype Block = Block(
    rank: nat, title: string, company: string, score: real, salaryRange: string, location: string,
    remote: bool, strengths: seq<string>, skillGaps: seq<string>, path: Option<LearningPath>)

  /** The closing remark chosen by the average score. */
  datatype Closing = ApplyWithConfidence | ConsiderUpskilling | DevelopHighDemandSkills

  /** The report text: the fixed "no matching jobs" message, or the top blocks, the average and the closing. */
  datatype Report = NoMatches | Ranked(blocks: seq<Block>, average: real, closing: Closing)

  /** The report sent on: `RecommendationReport(candidate_id, report, top_matches)`. */
  datatype RecommendationReport = RecommendationReport(candidateId: string, report: Report, topMatches: seq<string>)

  function ScoreOf(m: MatchScore): real {
    m.matchScore
  }

  function BlockFor(rank: nat, m: MatchScore): (b: Block)
    ensures b.score == m.matchScore && b.strengths == m.strengths && b.skillGaps == m.skillGaps
    ensures b.path.Some? <==> m.skillGaps != []
    ensures b.path.Some? ==> b.path.value == LearningPathOf(m.skillGaps) && b.path.value.Steps?
  {
    Block(rank, m.title, m.company, m.matchScore, m.salaryRange, m.location, m.remote, m.strengths, m.skillGaps,
          if m.skillGaps == [] then None else Some(LearningPathOf(m.skillGaps)))
  }

  /** `sum(m.match_score for m in matches)` */
  function Sum(ms: seq<MatchScore>): real
    decreases |ms|
  {
    if ms == [] then 0.0 else Sum(ms[..|ms| - 1]) + ms[|ms| - 1].matchScore
  }

  function Average(ms: seq<MatchScore>): real
    requires ms != []
  {
    Sum(ms) / |ms| as real
  }

  function ClosingFor(average: real): (c: Closing)
    ensures c == ApplyWithConfidence <==> average >= ExcellentProfileAt
    ensures c == ConsiderUpskilling <==> StrongProfileAt <= average < ExcellentProfileAt
    ensures c == DevelopHighDemandSkills <==> average < StrongProfileAt
  {
    if average >= ExcellentProfileAt then ApplyWithConfidence
    else if average >= StrongProfileAt then ConsiderUpskilling
    else DevelopHighDemandSkills
  }

  /** The list after `matches.sort(key=lambda x: x.match_score, reverse=True)`. */
  function Ranking(ms: seq<MatchScore>): seq<MatchScore> {
    Sorting.SortDesc(ms, ScoreOf)
  }

  /** `matches[:3]` after the sort. */
  function Top(ms: seq<MatchScore>): (r: seq<MatchScore>)
    ensures |r| == Min(TopCount, |ms|)
  {
    Sorting.SortDescPermutation(ms, ScoreOf);
    Take(Ranking(ms), TopCount)
  }

  /** The blocks rendered for `top`, ranked from 1. */
  function Blocks(top: seq<MatchScore>): (bs: seq<Block>)
    ensures |bs| == |top|
    ensures forall i :: 0 <= i < |top| ==> bs[i] == BlockFor(i + 1, top[i])
  {
    seq(|top|, i requires 0 <= i < |top| => BlockFor(i + 1, top[i]))
  }

  /** The report `create_recommendation_report` renders for the list. */
  function ReportOf(ms: seq<MatchScore>): Report {
    if ms == [] then NoMatches
    else Ranked(Blocks(Top(ms)), Average(ms), ClosingFor(Average(ms)))
  }

  /** The `for i, match in enumerate(top_matches, 1)` loop. */
  method BuildBlocks(top: seq<MatchScore>) returns (blocks: seq<Block>)
    ensures blocks == Blocks(top)
  {
    blocks := [];
    for i := 0 to |top|
      invariant |blocks| == i
      invariant forall k :: 0 <= k < i ==> blocks[k] == BlockFor(k + 1, top[k])
    {
      var m := top[i];
      var path: Option<LearningPath> := None;
      if m.skillGaps != [] {
        var p := GenerateLearningPath(m.skillGaps);
        path := Some(p);
      }
      blocks := blocks + [Block(i + 1, m.title, m.company, m.matchScore, m.salaryRange, m.location, m.remote,
                                m.strengths, m.skillGaps, path)];
    }
  }

  /** `create_recommendation_report(matches)`: sorts the caller's list in place, then renders it. */
  method CreateReport(matches: array<MatchScore>) returns (report: Report)
    modifies matches
    ensures matches[..] == Ranking(old(matches[..]))
    ensures report == ReportOf(old(matches[..]))
  {
    ghost var original := matches[..];
    if matches.Length == 0 {
      return NoMatches;
    }
    Sorting.SortInPlace(matches, ScoreOf);
    var ranked := matches[..];
    var top := Take(ranked, TopCount);
    assert top == Top(original);
    var blocks := BuildBlocks(top);
    SumRanking(original);
    var average := Sum(ranked) / |ranked| as real;
    report := Ranked(blocks, average, ClosingFor(average));
  }

  lemma {:induction false} SumInsert(t: seq<MatchScore>, x: MatchScore)
    ensures Sum(Sorting.Insert(t, x, ScoreOf)) == Sum(t) + x.matchScore
    decreases |t|
  {
    if t != [] && ScoreOf(t[|t| - 1]) < ScoreOf(x) {
      var init, last := t[..|t| - 1], t[|t| - 1];
      SumInsert(init, x);
      var r := Sorting.Insert(init, x, ScoreOf);
      assert (r + [last])[..|r + [last]| - 1] == r;
    } else {
      assert (t + [x])[..|t + [x]| - 1] == t;
    }
  }

  /** The sum does not depend on the order, so sorting first leaves the average unchanged. */
  lemma {:induction false} SumRanking(s: seq<MatchScore>)
    ensures Sum(Ranking(s)) == Sum(s)
    decreases |s|
  {
    if s != [] {
      SumRanking(s[..|s| - 1]);
      SumInsert(Ranking(s[..|s| - 1]), s[|s| - 1]);
    }
  }

  /** The rendered blocks are the three best matches, best first, ranked 1, 2, 3. */
  lemma ReportShowsTopThree(ms: seq<MatchScore>)
    requires ms != []
    ensures |ReportOf(ms).blocks| == Min(TopCount, |ms|)
    ensures forall i :: 0 <= i < |ReportOf(ms).blocks| ==> ReportOf(ms).blocks[i].rank == i + 1
    ensures forall i, j :: 0 <= i < j < |ReportOf(ms).blocks| ==>
      ReportOf(ms).blocks[i].score >= ReportOf(ms).blocks[j].score
    ensures forall m, i :: m in ms && multiset(ms)[m] > multiset(Top(ms))[m] && 0 <= i < |ReportOf(ms).blocks| ==>
      m.matchScore <= ReportOf(ms).blocks[i].score
  {
    TopAreHighest(ms);
    var blocks := ReportOf(ms).blocks;
    forall i, j | 0 <= i < j < |blocks| ensures blocks[i].score >= blocks[j].score {
      assert blocks[i].score == Top(ms)[i].matchScore && blocks[j].score == Top(ms)[j].matchScore;
    }
  }

  /** `matches[:3]` after the sort is best first, and no match left out scores above one kept. */
  lemma TopAreHighest(ms: seq<MatchScore>)
    ensures Sorting.NonIncreasing(Top(ms), ScoreOf)
    ensures forall m, b :: m in ms && multiset(ms)[m] > multiset(Top(ms))[m] && b in Top(ms) ==>
      m.matchScore <= b.matchScore
  {
    var sorted := Ranking(ms);
    var top := Top(ms);
    Sorting.SortDescNonIncreasing(ms, ScoreOf);
    Sorting.SortDescPermutation(ms, ScoreOf);
    var rest := sorted[|top|..];
    assert sorted == top + rest;
    PrefixNonIncreasing(sorted, |top|);
    SplitBelow(sorted, |top|);
    forall m | m in ms && multiset(ms)[m] > multiset(top)[m]
      ensures m in rest
    {
      assert multiset(ms) == multiset(top) + multiset(rest);
      assert m in multiset(rest);
    }
  }

  lemma PrefixNonIncreasing(sorted: seq<MatchScore>, k: nat)
    requires k <= |sorted| && Sorting.NonIncreasing(sorted, ScoreOf)
    ensures Sorting.NonIncreasing(sorted[..k], ScoreOf)
  {
    assert forall i :: 0 <= i < k ==> sorted[..k][i] == sorted[i];
  }

  /** In a best-first list nothing after position `k` scores above anything before it. */
  lemma SplitBelow(sorted: seq<MatchScore>, k: nat)
    requires k <= |sorted| && Sorting.NonIncreasing(sorted, ScoreOf)
    ensures forall m, b :: m in sorted[k..] && b in sorted[..k] ==> m.matchScore <= b.matchScore
  {
    forall m, b | m in sorted[k..] && b in sorted[..k] ensures m.matchScore <= b.matchScore {
      var j :| 0 <= j < |sorted| - k && sorted[k..][j] == m;
      var i :| 0 <= i < k && sorted[..k][i] == b;
      assert ScoreOf(sorted[i]) >= ScoreOf(sorted[k + j]);
    }
  }

  /** The average is over every pending match, not only the rendered ones, and stays within their range. */
  lemma AverageWithin(ms: seq<MatchScore>, lo: real, hi: real)
    requires ms != []
    requires forall m :: m in ms ==> lo <= m.matchScore <= hi
    ensures lo <= Average(ms) <= hi
  {
    SumBounds(ms, lo, hi);
    TimesIsProduct(|ms|, lo);
    TimesIsProduct(|ms|, hi);
    QuotientWithin(Sum(ms), |ms| as real, lo, hi);
  }

  /** A quotient by a positive `n` of a value between `lo * n` and `hi * n` lies between `lo` and `hi`. */
  lemma QuotientWithin(sum: real, n: real, lo: real, hi: real)
    requires n > 0.0 && lo * n <= sum <= hi * n
    ensures lo <= sum / n <= hi
  {
    assert sum / n * n == sum;
  }

  /** `n` copies of `x` added up, so that bounds on a sum stay linear. */
  function Times(n: nat, x: real): real {
    if n == 0 then 0.0 else Times(n - 1, x) + x
  }

  lemma {:induction false} TimesIsProduct(n: nat, x: real)
    ensures Times(n, x) == n as real * x
  {
    if n > 0 {
      TimesIsProduct(n - 1, x);
      assert n as real * x == (n - 1) as real * x + x;
    }
  }

  lemma {:induction false} SumBounds(ms: seq<MatchScore>, lo: real, hi: real)
    requires forall m :: m in ms ==> lo <= m.matchScore <= hi
    ensures Times(|ms|, lo) <= Sum(ms) <= Times(|ms|, hi)
    decreases |ms|
  {
    if ms != [] {
      var init, last := ms[..|ms| - 1], ms[|ms| - 1];
      assert forall m :: m in init ==> m in ms;
      SumBounds(init, lo, hi);
      assert last in ms;
    }
  }

  /** `[m.job_id for m in matches[:3]]` */
  function JobIds(ms: seq<MatchScore>): (r: seq<string>)
    ensures |r| == |ms|
    ensures forall i :: 0 <= i < |ms| ==> r[i] == ms[i].jobId
  {
    seq(|ms|, i requires 0 <= i < |ms| => ms[i].jobId)
  }

  /** The report sent for a flushed list: rendered from the list, with the ids read back from the sorted list. */
  function FlushedReport(candidateId: string, ms: seq<MatchScore>): RecommendationReport {
    RecommendationReport(candidateId, ReportOf(ms), JobIds(Top(ms)))
  }

  // ---------------------------------------------------------------- the session table

  /** The agent's `candidate_recommendations`: pending match scores per candidate. */
  class RecommenderAgent {
    var pending: map<string, seq<MatchScore>>

    /** Between messages every pending list holds one or two scores. */
    ghost predicate Valid()
      reads this
    {
      forall id :: id in pending ==> 1 <= |pending[id]| < FlushAt
    }

    constructor()
      ensures Valid() && pending == map[]
    {
      pending := map[];
    }

    /** The candidate's list with `msg` appended, creating it when absent. */
    function Appended(msg: MatchScore): (list: seq<MatchScore>)
      reads this
      ensures |list| >= 1 && list[|list| - 1] == msg
    {
      (if msg.candidateId in pending then pending[msg.candidateId] else []) + [msg]
    }

    /** `aggregate_recommendations`: append; on the third score send the report and delete the entry. */
    method Receive(msg: MatchScore) returns (sent: Option<RecommendationReport>)
      requires Valid()
      modifies this
      ensures Valid()
      ensures sent.Some? <==> |old(Appended(msg))| == FlushAt
      ensures sent.Some? ==>
        && sent.value == FlushedReport(msg.candidateId, old(Appended(msg)))
        && pending == old(pending) - {msg.candidateId}
      ensures sent.None? ==> pending == old(pending)[msg.candidateId := old(Appended(msg))]
    {
      var id := msg.candidateId;
      var list := Appended(msg);
      if |list| >= FlushAt {
        var a := new MatchScore[|list|](i requires 0 <= i < |list| => list[i]);
        assert a[..] == list;
        var report := CreateReport(a);
        var ids := JobIds(Take(a[..], TopCount));
        sent := Some(RecommendationReport(id, report, ids));
        pending := pending - {id};
      } else {
        pending := pending[id := list];
        sent := None;
      }
    }

    /** `handle_chat_message`: a pending list is reported early and deleted; otherwise nothing changes. */
    method HandleChat(sender: string) returns (report: Option<Report>)
      requires Valid()
      modifies this
      ensures Valid()
      ensures old(sender in pending) ==>
        && report == Some(ReportOf(old(pending[sender])))
        && pending == old(pending) - {sender}
      ensures old(sender !in pending) ==> report == None && pending == old(pending)
    {
      if sender in pending {
        var list := pending[sender];
        var a := new MatchScore[|list|](i requires 0 <= i < |list| => list[i]);
        assert a[..] == list;
        var r := CreateReport(a);
        report := Some(r);
        pending := pending - {sender};
      } else {
        report := None;
      }
    }
  }

  /** A flushed list has exactly three scores, so its report renders all of them, best first,
      and `top_matches` lists every one of their ids. */
  lemma FlushRendersAll(candidateId: string, ms: seq<MatchScore>)
    requires |ms| == FlushAt
    ensures multiset(Top(ms)) == multiset(ms)
    ensures Sorting.NonIncreasing(Top(ms), ScoreOf)
    ensures |FlushedReport(candidateId, ms).topMatches| == FlushAt
  {
    Sorting.SortDescPermutation(ms, ScoreOf);
    Sorting.SortDescNonIncreasing(ms, ScoreOf);
  }
}
