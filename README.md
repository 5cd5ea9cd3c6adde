# JobMate matching core in Dafny

JobMate is a chain of message-passing agents that turns a resume into ranked job recommendations:

1. the candidate agent extracts skills from the resume;
2. the skills mapper enriches them from a small knowledge graph;
3. the job discovery agent fetches postings from four job boards, filters, deduplicates, sorts and caps them;
4. the scorer turns each posting into a compatibility score with strengths and gaps;
5. the recommender collects three scores per candidate and sends a report.

This project models the matching logic inside those agents and proves its properties. The transport, HTTP and logging around it are not modelled.

Modules, one file each:

- `Wrappers` holds `Option` and `dict.get(key, default)`.
- `Text` holds the string helpers shared by all agents: ASCII `lower()`, the substring test behind Python's `a in b`, `split(c)[0]`, `split(',')` and `title()`.
- `Seqs` holds slicing `s[:n]`, order-preserving selections, and list comprehensions with a filter.
- `Sorting` is the stable descending sort behind `list.sort(key=..., reverse=True)`. It is given as a reference definition (insertion from the right) and as an in-place sort on an array proved equal to it.
- `Dedup` is the first-occurrence deduplication by key behind the `seen` set of `aggregate_jobs`, stated for any key function.
- `Discovery` models `JobBoardAggregator` and the fallback in `discover_jobs`.
- `Scorer` models `calculate_compatibility_score` and the `candidate_profiles` cache.
- `Recommender` models `generate_learning_path`, `create_recommendation_report`, and the session table of `aggregate_recommendations` and `handle_chat_message`.
- `Candidate` models `extract_skills_from_resume` and the derived profile fields.
- `SkillsMapper` models `query_metta_knowledge_graph`. The loop and its reference functions take the table as a parameter, so the lemmas hold for any table; `QueryKnowledgeGraph` applies them to `SKILLS_KNOWLEDGE_GRAPH`.

Where the code changes state, the model does too:

- `Recommender.RecommenderAgent` and `Scorer.ScorerAgent` are classes whose map field is the module-level dictionary.
- `create_recommendation_report` sorts an `array` in place.
- Every loop of the source is a method with a `for` or `while` loop, proved equal to a reference function. The properties are then proved about that function.

Inputs that the source obtains from its environment are parameters (`Discovery.Criteria`):

- Each source's HTTP response is a `Discovery.Response`: its postings in order, and the index of the posting whose handling raises, if any. A non-200 status, or an exception before the loop, is `None`.
- A posting (`Discovery.RawPosting`) keeps its title and description as read, `None` when the key is missing. The match text reads them with the default `''`, and the job dictionary with `'N/A'`. Every other field is read with a single default, and it is given with that default applied.
- The clock is `now`, in seconds.
- `datetime.fromisoformat` is an arbitrary function `parse` from strings to optional seconds. `None` stands for any exception it raises.
- Whether the API credentials are present is a boolean.
- Each task of `asyncio.gather(..., return_exceptions=True)` is either a completed list or a raised exception (`Discovery.TaskResult`).

Facts about the code that shape the model:

- The scorer's base is the discovery score times 100 (agents/scorer_agent.py:55).
- The requirements bonus is `matched/len*10`, so two of four requirements met add 5 (agents/scorer_agent.py:73-75).
- With no requirements there is no bonus and the base is kept unchanged (agents/scorer_agent.py:73).
- The recommender flushes a candidate's list when it reaches three matches (agents/recommender_agent.py:200).
- Pending matches are only removed by that flush or by a chat message. Nothing expires them (agents/recommender_agent.py:191-250).
- The closing summary of a report gives the average score only (agents/recommender_agent.py:115-123).
- When aggregation finds nothing and the candidate has no skills, `msg.skills[0]` in `discover_jobs` raises `IndexError` (agents/job_discovery_agent.py:355-358). `Discovery.DiscoverJobs` returns `None` there.

## Model

| member | source | states |
|---|---|---|
| Text.Lower | agents/job_discovery_agent.py:48 | `lower()` keeps the length and lower-cases each ASCII letter, position by position |
| Text.LowerIdempotent | agents/candidate_agent.py:79 | lower-casing twice is lower-casing once |
| Text.ContainsTransitive | agents/candidate_agent.py:82-84 | a substring of a substring of `c` is a substring of `c` |
| Text.ContainsLower | agents/scorer_agent.py:64 | a substring stays a substring after both sides are lower-cased |
| Text.Before | agents/job_discovery_agent.py:37-38 | `s.split('T')[0]` is a prefix of `s` without `T`, followed by `T` when it is shorter than `s` |
| Text.Split | agents/job_discovery_agent.py:185 | `split(',')` gives at least one piece, and no piece contains the separator |
| Text.JoinSplit | agents/job_discovery_agent.py:185 | joining the pieces of `split(sep)` with `sep` gives back the string |
| Text.TitleCase | agents/recommender_agent.py:79 | `title()` keeps non-letters, upper-cases every letter that does not follow a letter and lower-cases every letter that does; length and letters up to case are kept |
| Text.TitleLowersTail | agents/recommender_agent.py:79 | in a word made of letters only the first character is upper-cased and the rest lower-cased, so `"KUBERNETES"` becomes `"Kubernetes"` |
| Seqs.Take | agents/job_discovery_agent.py:334 | `s[:n]` is a prefix of `s` of length `min(n, len(s))` |
| Seqs.FilterMapUpTo | agents/job_discovery_agent.py:273-299 | a loop that tests and converts elements in order and stops once `cap` are kept returns the first `cap` of what the whole list keeps |
| Seqs.FilterMapOrigins | agents/job_discovery_agent.py:99-126 | each kept element is the image of a kept input, at strictly increasing positions |
| Seqs.FilterMapPrefix | agents/job_discovery_agent.py:125-126 | what a prefix of the input keeps is a prefix of what the whole input keeps |
| Seqs.FilterMapSound | agents/job_discovery_agent.py:107-123 | every kept element comes from an input that passed the test |
| Seqs.FilterMembers | agents/scorer_agent.py:62-66 | an element is selected iff it is in the list and passes the test |
| Seqs.FilterSubsequence | agents/scorer_agent.py:62-70 | a comprehension with a filter keeps the original order |
| Seqs.FilterPartition | agents/scorer_agent.py:58-70 | a test and its negation split the list occurrence by occurrence (multiset and length) |
| Seqs.FilterCongruent | agents/scorer_agent.py:67-70 | two tests that agree on every element select the same list |
| Sorting.InsertPermutation | agents/job_discovery_agent.py:332 | inserting adds exactly one occurrence of the element |
| Sorting.SortDescNonIncreasing | agents/job_discovery_agent.py:332 | the sorted list is non-increasing by key |
| Sorting.SortDescPermutation | agents/job_discovery_agent.py:332 | the sorted list is a permutation of its input |
| Sorting.SortDescStable | agents/job_discovery_agent.py:332 | for every key value, the elements with that key keep their input order |
| Sorting.SortDescElements | agents/job_discovery_agent.py:332 | the sort neither loses nor invents elements |
| Sorting.InsertAt | agents/recommender_agent.py:89 | one insertion step moves `a[i]` into the sorted prefix exactly as the reference insertion does, leaving the rest of the array alone |
| Sorting.SortInPlace | agents/recommender_agent.py:89 | the in-place insertion sort on an array leaves exactly the stable descending sort of its old contents |
| Discovery.IsRecentJob | agents/job_discovery_agent.py:29-44 | a posting is stale iff its date is present and non-empty, the part before `T` parses, and it lies before now minus 14 days; everything else is recent (fail-open) |
| Discovery.QuickSkillMatch | agents/job_discovery_agent.py:46-53 | the early-return loop is true iff one of the first five skills occurs in the text, ignoring case |
| Discovery.MatchScore | agents/job_discovery_agent.py:55-67 | the match score lies in [0, 1] |
| Discovery.CalculateMatchScore | agents/job_discovery_agent.py:55-67 | the accumulating loop returns the clamped weighted sum, within [0, 1] |
| Discovery.RawScorePositive | agents/job_discovery_agent.py:61-65 | the weighted sum is at least 0.15 when some counted skill occurs and 0 otherwise |
| Discovery.QuickMatchIffScored | agents/job_discovery_agent.py:46-67 | the quick check holds iff the score is positive, and then the score already reaches 0.15 |
| Discovery.OnlyTopFiveCount | agents/job_discovery_agent.py:49-61 | the score and the quick check depend only on `skills[:5]` |
| Discovery.AllTopSkillsMatch | agents/job_discovery_agent.py:64-67 | five matching skills sum to 1.05, which the clamp brings to 1.0 |
| Discovery.Requirements | agents/job_discovery_agent.py:185 | FindWork's requirements are at most five comma-free keywords; other sources have none |
| Discovery.MakeJob | agents/job_discovery_agent.py:112-123 | the job keeps company, location, url and the given score; a missing title or description becomes "N/A"; the description is cut to 500; it names its source; FindWork's salary is "Not specified" and the other sources keep theirs; `remote` is set per source |
| Discovery.MissingTitle | agents/job_discovery_agent.py:100-113 | a posting without a title is matched on a text that starts with a blank, and its job is titled "N/A" |
| Discovery.KeptInInputOrder | agents/job_discovery_agent.py:163-189 | the kept jobs come from passing postings in the order the source listed them |
| Discovery.KeptSound | agents/job_discovery_agent.py:102-107 | every kept job scores at least 0.15 and comes from a posting that passed every check |
| Discovery.Screen | agents/job_discovery_agent.py:274-296 | one pass of the loop body yields a job iff the posting is recent where checked, matches quickly and scores at least 0.15, and then it is that posting's job |
| Discovery.FilterPostings | agents/job_discovery_agent.py:273-299 | the filter loop with `continue` and `break`, run as the capped loop over the body's checks, returns the first five passing postings as jobs, in input order |
| Discovery.CappedSound | agents/job_discovery_agent.py:284-299 | every job of the capped list scores at least 0.15 and comes from a passing posting |
| Discovery.FetchJobs | agents/job_discovery_agent.py:140-142 | missing credentials or a failed request give no jobs; otherwise the filtered, capped list of the postings handled before any raise |
| Discovery.RaiseKeepsPrefix | agents/job_discovery_agent.py:98-131 | an exception inside the loop returns a prefix of the jobs the loop returns without it |
| Discovery.RaiseAfterCap | agents/job_discovery_agent.py:124-131 | an exception at a posting after five jobs were already kept changes nothing, since the loop broke off first |
| Discovery.NoSkillsNoJobs | agents/job_discovery_agent.py:46-53 | with no skills no posting passes |
| Discovery.CollectJobs | agents/job_discovery_agent.py:317-320 | the loop concatenates the lists of the tasks that completed, in task order |
| Discovery.CollectedFromCompleted | agents/job_discovery_agent.py:318-320 | every collected job belongs to some completed task's list |
| Discovery.RemoveDuplicates | agents/job_discovery_agent.py:322-329 | the `seen`-set loop computes the reference deduplication |
| Dedup.DeduplicatedKeys | agents/job_discovery_agent.py:322-329 | deduplication keeps every key that occurs |
| Dedup.DeduplicatedDistinct | agents/job_discovery_agent.py:322-329 | after deduplication no two jobs share the lower-cased `title-company` key |
| Dedup.DeduplicatedKeepsFirst | agents/job_discovery_agent.py:326-329 | the first job with each key is kept |
| Dedup.DeduplicatedOnlyFirst | agents/job_discovery_agent.py:326-329 | only first jobs of their keys are kept |
| Dedup.DeduplicatedSubsequence | agents/job_discovery_agent.py:325-329 | kept jobs keep their relative order |
| Dedup.DistinctUnchanged | agents/job_discovery_agent.py:322-329 | a list with distinct keys is left unchanged |
| Dedup.DeduplicatedIdempotent | agents/job_discovery_agent.py:322-329 | deduplicating twice equals deduplicating once |
| Dedup.SortKeepsDistinct | agents/job_discovery_agent.py:332 | sorting a list with distinct keys keeps them distinct and keeps the key set |
| Discovery.AggregateJobs | agents/job_discovery_agent.py:305-334 | the result has at most 15 jobs and is non-increasing by score; equal scores keep their order; keys are distinct; every job comes from a completed task |
| Discovery.DiscoverJobs | agents/job_discovery_agent.py:355-368 | a non-empty aggregation passes through; an empty one becomes one fallback job (score 0.5, requirements `skills[:5]`, source "Fallback", remote) when there are skills, and an error otherwise |
| Discovery.NoSkillsNothingFetched | agents/job_discovery_agent.py:98-131 | with no skills a source returns no jobs, whatever its credentials and response |
| Discovery.NothingCollected | agents/job_discovery_agent.py:317-320 | tasks that all raised or returned empty lists collect no jobs |
| Discovery.NoSkillsFallbackRaises | agents/job_discovery_agent.py:305-359 | with no skills the four tasks, in the order Adzuna, FindWork, SerpAPI, Remotive, aggregate to nothing, and `discover_jobs` reaches the fallback and raises |
| Scorer.SkillsUsed | agents/scorer_agent.py:50-52 | absent or empty skills fall back to the five default skills; otherwise the given skills are used |
| Scorer.StrengthsIff | agents/scorer_agent.py:61-66 | a requirement is a strength iff some skill is a case-insensitive substring of it or contains it |
| Scorer.GapsAreUnmatched | agents/scorer_agent.py:67-70 | the gaps are exactly the requirements no skill overlaps, in order |
| Scorer.StrengthsGapsPartition | agents/scorer_agent.py:58-70 | strengths and gaps split the requirements occurrence by occurrence |
| Scorer.StrengthsGapsInOrder | agents/scorer_agent.py:62-70 | both lists keep requirement order |
| Scorer.StrengthIgnoresCase | agents/scorer_agent.py:64 | lower-casing a requirement does not change whether it matches |
| Scorer.Cap | agents/scorer_agent.py:75 | `min(x, 100)` is at most 100 and at most `x`, and equals one of them |
| Scorer.RequirementsBoost | agents/scorer_agent.py:72-75 | the requirements boost lies in [0, 10] and is 0 without requirements |
| Scorer.CompatibilityScore | agents/scorer_agent.py:54-83 | from a discovery score in [0, 1] the result lies in [0, 100]; the result never falls below a base of at most 100 |
| Scorer.ExactBonuses | agents/scorer_agent.py:72-83 | below the ceiling the score is the base plus the boost, plus 5 iff remote, plus 3 iff a salary is given |
| Scorer.CappedSum | agents/scorer_agent.py:73-83 | from a base in range the separately capped steps equal one cap of the total |
| Scorer.RemoteNeverHurts | agents/scorer_agent.py:77-79 | from a base of at most 100 a remote listing scores at least as high as the same listing on site |
| Scorer.AllRequirementsMet | agents/scorer_agent.py:72-83 | a remote listing with a salary that meets every requirement scores `min(base + 18, 100)` |
| Scorer.LabelOf | agents/scorer_agent.py:101 | Excellent iff at least 80, Good iff in [60, 80), Moderate iff below 60 |
| Scorer.LabelMonotone | agents/scorer_agent.py:101 | a higher score never gets a lower label |
| Scorer.Analyze | agents/scorer_agent.py:44-109 | the score, its label, and the first `min(10, n)` strengths and gaps of the full lists; both are empty without requirements |
| Scorer.ScoreMessage | agents/scorer_agent.py:126-139 | the outgoing message copies the listing's fields and carries the analysis's score, label, strengths and gaps |
| Scorer.Lookup | agents/scorer_agent.py:117 | `dict.get(key, None)` is present iff the key is cached, with the cached value |
| Scorer.ScorerAgent.CacheProfile | agents/scorer_agent.py:155-159 | caching a profile sets that candidate's skills and changes no other entry |
| Scorer.ScorerAgent.ScoreCompatibility | agents/scorer_agent.py:111-139 | cached non-empty skills are used; a candidate with no entry is scored against the default skills |
| Scorer.CachedSkillsAreUsed | agents/scorer_agent.py:117-159 | after caching non-empty skills for a candidate, that candidate's listings are scored against them |
| Recommender.ResourceFor | agents/recommender_agent.py:75-78 | the table entry for the lower-cased skill, or the generic search suggestion |
| Recommender.LearningPathOf | agents/recommender_agent.py:56-81 | the fixed message iff there are no gaps; otherwise one numbered line for each of the first three gaps |
| Recommender.PathLines | agents/recommender_agent.py:73-80 | the first `n` gaps give `n` lines, line `i` numbered `i + 1` with that gap's resource |
| Recommender.GenerateLearningPath | agents/recommender_agent.py:73-81 | the accumulating loop builds exactly that learning path |
| Recommender.BlockFor | agents/recommender_agent.py:96-112 | a block shows the match's score, strengths and gaps, with a learning path iff there are gaps |
| Recommender.ClosingFor | agents/recommender_agent.py:118-123 | the closing remark is chosen at 80, at 60, and below |
| Recommender.Top | agents/recommender_agent.py:90 | the rendered matches number `min(3, len(matches))` |
| Recommender.BuildBlocks | agents/recommender_agent.py:96-112 | the rendering loop gives one ranked block per top match |
| Recommender.CreateReport | agents/recommender_agent.py:83-127 | the caller's array is left sorted (stable, descending); the report is the no-match message for an empty list, and otherwise the blocks of the top three, the average over all matches, and the closing |
| Recommender.SumRanking | agents/recommender_agent.py:115 | the sum, and hence the average, is the same before and after the sort |
| Recommender.ReportShowsTopThree | agents/recommender_agent.py:88-112 | the blocks are ranked 1..n with non-increasing scores, and no left-out match scores above a rendered one |
| Recommender.TopAreHighest | agents/recommender_agent.py:89-90 | `matches[:3]` after the sort is non-increasing, and every match left out scores at most every one kept |
| Recommender.AverageWithin | agents/recommender_agent.py:115 | the average over all matches lies within the range of their scores |
| Recommender.JobIds | agents/recommender_agent.py:230 | `top_matches` lists the job ids in order |
| Recommender.RecommenderAgent.Receive | agents/recommender_agent.py:191-250 | the message is appended to its candidate's list, creating it when absent; a report goes out exactly when the list reaches three, and the entry is then deleted; other entries are unchanged; every stored list keeps one or two entries |
| Recommender.RecommenderAgent.HandleChat | agents/recommender_agent.py:160-169 | a pending list is reported and deleted; otherwise the table is unchanged |
| Recommender.FlushRendersAll | agents/recommender_agent.py:200-208 | a flushed list of three is rendered in full, best first, and `top_matches` has all three ids |
| Candidate.ExtractSkills | agents/candidate_agent.py:61-86 | a keyword is returned iff it is one of the fixed keywords and a substring of the lower-cased resume; the result is a set |
| Candidate.SkillsIgnoreCase | agents/candidate_agent.py:79 | the resume and its lower-cased form yield the same skills |
| Candidate.JavascriptImpliesJava | agents/candidate_agent.py:66-84 | "javascript" in the result implies "java" in the result |
| Candidate.DjangoImpliesGo | agents/candidate_agent.py:66-84 | "django" in the result implies "go" in the result |
| Candidate.BuildProfile | agents/candidate_agent.py:162-172 | the profile keeps the first 1000 characters, the extracted skills, `remote` iff "remote" occurs case-insensitively, `salary_min` 100000 and location "flexible" |
| SkillsMapper.QueryGraph | agents/archives/skills_mapper_agent.py:78-103 | for any table, the loop builds the reference related set, category lists and demand map |
| SkillsMapper.QueryKnowledgeGraph | agents/archives/skills_mapper_agent.py:78-103 | over `SKILLS_KNOWLEDGE_GRAPH`, the loop builds the reference related set, category lists and demand map |
| SkillsMapper.PythonDemand | agents/archives/skills_mapper_agent.py:27-33 | for the single skill "python" the demand map of the fixed table is `python: very high, 120000` |
| SkillsMapper.UnknownSkillIgnored | agents/archives/skills_mapper_agent.py:83-86 | a skill not in the table changes none of the three results |
| SkillsMapper.RelatedIsUnion | agents/archives/skills_mapper_agent.py:79-87 | the related skills are the union of the related lists of the known input skills |
| SkillsMapper.CategoriesFaithful | agents/archives/skills_mapper_agent.py:89-92 | a category is a key iff some known input skill has it; its list holds exactly its skills as spelled, in input order |
| SkillsMapper.DemandKeys | agents/archives/skills_mapper_agent.py:94-97 | demand has a key for exactly the known input skills as spelled, each with its table demand and salary |
| SkillsMapper.NothingKnownNothingFound | agents/archives/skills_mapper_agent.py:78-103 | with no known skill, including no skills at all, all three results are empty |

## Left out

- HTTP requests, response status handling, `os.getenv` and JSON field extraction in agents/job_discovery_agent.py. Each source's response is given as a `Discovery.Response` of postings, and credentials as a boolean.
- Why handling a posting raises (a field of an unexpected type, a JSON `null` read as `None`). The index of the posting that raises is part of the response; the jobs appended before it are returned.
- Per-source formatting of salary strings (Adzuna's `${salary_min:,.0f}` range, Google's `detected_extensions`). The extracted salary string is an input.
- Concurrency of `asyncio.gather`. Each task is modelled as a completed list or a raised exception, in task order.
- Agent messaging: `ctx.send`, chat acknowledgements, welcome messages, startup logging and `Agent(...)` setup. The `try/except/else` around the report sends (agents/recommender_agent.py:214-247) decides only which messages go out. The else branch belongs to `try`, so a successful send to the test agent is followed by a direct send.
- Recommender.RecommenderAgent.Receive: returns the single report value instead of performing those sends.
- The chat front end of the candidate agent (message iteration, sessions). Only the profile built from one text item is modelled.
- `extract_experience_years` (agents/candidate_agent.py:88-101). It depends on Python regular-expression search; the years are a parameter of Candidate.BuildProfile.
- The clock and `datetime.fromisoformat`. They are parameters; a timestamp comparison is a comparison of seconds.
- Text rendering: the reasoning string of the scorer and the report string of the recommender, including `:.1f` formatting, emoji and decoration. These are structured values (`Scorer.Label`, `Recommender.Report`). The learning-resource texts drop their leading emoji.
- `lower()` and `title()` act on ASCII letters only. Python also maps non-ASCII letters.
- Floating point. Scores are exact reals, so rounding in `matches += weight` and in the percentage arithmetic is not modelled.
- The location preference used to build the Google Jobs query (agents/job_discovery_agent.py:343-345). It only affects the HTTP request.
- agents/steps.py. Its agent code sits inside string literals and is never executed.
- agents/test.py, agents/test_serp.py and agents/archives/test_serp.py. These are test drivers built on file I/O and external services.
- The order of `related_skills` and of the extracted skills. Both pass through a Python `set`, so they are modelled as sets.
- SkillsMapper.UnknownSkillIgnored: states that a skill appended at the end has no effect. For other positions the same fact follows from RelatedIsUnion, CategoriesFaithful and DemandKeys, which mention known skills only.
