/** The skills mapper agent (agents/archives/skills_mapper_agent.py): `query_metta_knowledge_graph`
    folds the candidate's skills over a fixed table, collecting related skills, the skills of each
    category and the market demand of each known skill. */
module SkillsMapper {
  import opened Text
  import opened Seqs

  /** One entry of `SKILLS_KNOWLEDGE_GRAPH`. */
  datatype SkillInfo = SkillInfo(related: seq<string>, category: string, demand: string, avgSalary: int)

  /** The value stored under a skill in `market_demand`. */
  datatype Demand = Demand(demand: string, avgSalary: int)

  /** The three results: `related_skills` (a set before it is listed), `skill_categories`, `market_demand`. */
  datatype Enrichment = Enrichment(related: set<string>, categories: map<string, seq<string>>, demand: map<string, Demand>)

  const KnowledgeGraph: map<string, SkillInfo> := map[
    "python" := SkillInfo(["django", "flask", "pandas", "data science", "machine learning"], "Programming", "very high", 120000),
    "javascript" := SkillInfo(["react", "node.js", "vue.js", "typescript"], "Programming", "very high", 115000),
    "react" := SkillInfo(["javascript", "redux", "next.js", "typescript"], "Frontend", "very high", 110000),
    "machine learning" := SkillInfo(["tensorflow", "pytorch", "python", "data science", "ai"], "AI/ML", "very high", 145000),
    "aws" := SkillInfo(["docker", "kubernetes", "terraform", "devops"], "Cloud", "very high", 135000),
    "docker" := SkillInfo(["kubernetes", "aws", "devops", "ci/cd"], "DevOps", "very high", 125000),
    "sql" := SkillInfo(["postgresql", "mysql", "database", "data analysis"], "Database", "high", 105000),
    "leadership" := SkillInfo(["project management", "agile", "team building"], "Soft Skills", "very high", 155000)
  ]

  /** `skill.lower() in SKILLS_KNOWLEDGE_GRAPH` */
  predicate Known(graph: map<string, SkillInfo>, skill: string) {
    Lower(skill) in graph
  }

  function InfoOf(graph: map<string, SkillInfo>, skill: string): SkillInfo
    requires Known(graph, skill)
  {
    graph[Lower(skill)]
  }

  function DemandFor(graph: map<string, SkillInfo>, skill: string): Demand
    requires Known(graph, skill)
  {
    Demand(InfoOf(graph, skill).demand, InfoOf(graph, skill).avgSalary)
  }

  /** The skills filed under `category`: the known input skills of that category, as spelled, in input order. */
  predicate InCategory(graph: map<string, SkillInfo>, skill: string, category: string) {
    Known(graph, skill) && InfoOf(graph, skill).category == category
  }

  // ---------------------------------------------------------------- the reference fold, from the end

  function RelatedOf(graph: map<string, SkillInfo>, skills: seq<string>): set<string>
    decreases |skills|
  {
    if skills == [] then {}
    else
      var last := skills[|skills| - 1];
      RelatedOf(graph, skills[..|skills| - 1]) + (if Known(graph, last) then set r | r in InfoOf(graph, last).related else {})
  }

  function CategoryKeys(graph: map<string, SkillInfo>, skills: seq<string>): set<string> {
    set s | s in skills && Known(graph, s) :: InfoOf(graph, s).category
  }

  function CategoryList(graph: map<string, SkillInfo>, skills: seq<string>, category: string): seq<string> {
    Filter(skills, s => InCategory(graph, s, category))
  }

  function DemandOf(graph: map<string, SkillInfo>, skills: seq<string>): map<string, Demand>
    decreases |skills|
  {
    if skills == [] then map[]
    else
      var last := skills[|skills| - 1];
      var before := DemandOf(graph, skills[..|skills| - 1]);
      if Known(graph, last) then before[last := DemandFor(graph, last)] else before
  }

  // ---------------------------------------------------------------- the loop

  /** The loop of `query_metta_knowledge_graph`, over a given table. */
  method QueryGraph(graph: map<string, SkillInfo>, skills: seq<string>) returns (e: Enrichment)
    ensures e.related == RelatedOf(graph, skills)
    ensures e.categories.Keys == CategoryKeys(graph, skills)
    ensures forall c :: c in e.categories ==> e.categories[c] == CategoryList(graph, skills, c)
    ensures e.demand == DemandOf(graph, skills)
  {
    var related: set<string> := {};
    var categories: map<string, seq<string>> := map[];
    var demand: map<string, Demand> := map[];
    for i := 0 to |skills|
      invariant related == RelatedOf(graph, skills[..i])
      invariant categories.Keys == CategoryKeys(graph, skills[..i])
      invariant forall c :: c in categories ==> categories[c] == CategoryList(graph, skills[..i], c)
      invariant demand == DemandOf(graph, skills[..i])
    {
      var skill := skills[i];
      assert skills[..i + 1][..i] == skills[..i];
      assert skills[..i + 1] == skills[..i] + [skill];
      CategoriesStep(graph, skills[..i], skill, categories);
      var skillLower := Lower(skill);
      if skillLower in graph {
        var info := graph[skillLower];
        related := related + set r | r in info.related;
        var category := info.category;
        if category !in categories {
          categories := categories[category := []];
        }
        categories := categories[category := categories[category] + [skill]];
        demand := demand[skill := Demand(info.demand, info.avgSalary)];
      }
    }
    assert skills[..|skills|] == skills;
    e := Enrichment(related, categories, demand);
  }

  /** `query_metta_knowledge_graph(skills)`: the loop over `SKILLS_KNOWLEDGE_GRAPH`. */
  method QueryKnowledgeGraph(skills: seq<string>) returns (e: Enrichment)
    ensures e.related == RelatedOf(KnowledgeGraph, skills)
    ensures e.categories.Keys == CategoryKeys(KnowledgeGraph, skills)
    ensures forall c :: c in e.categories ==> e.categories[c] == CategoryList(KnowledgeGraph, skills, c)
    ensures e.demand == DemandOf(KnowledgeGraph, skills)
  {
    e := QueryGraph(KnowledgeGraph, skills);
  }

  /** One more skill extends only its own category's list, and only when it is known. */
  lemma CategoriesSnoc(graph: map<string, SkillInfo>, skills: seq<string>, skill: string)
    ensures CategoryKeys(graph, skills + [skill]) == CategoryKeys(graph, skills) + (if Known(graph, skill) then {InfoOf(graph, skill).category} else {})
    ensures forall c ::
      CategoryList(graph, skills + [skill], c) == CategoryList(graph, skills, c) + (if InCategory(graph, skill, c) then [skill] else [])
  {
    assert (skills + [skill])[..|skills|] == skills;
  }

  /** A category no skill has yet has an empty list. */
  lemma EmptyCategory(graph: map<string, SkillInfo>, skills: seq<string>, c: string)
    requires c !in CategoryKeys(graph, skills)
    ensures CategoryList(graph, skills, c) == []
  {
    FilterNone(skills, s => InCategory(graph, s, c));
  }

  /** `skill_categories[category].append(skill)`, after creating the list when it is missing. */
  function FileUnder(categories: map<string, seq<string>>, category: string, skill: string): map<string, seq<string>> {
    categories[category := (if category in categories then categories[category] else []) + [skill]]
  }

  /** One step of the loop keeps `skill_categories` equal to the reference lists. */
  lemma CategoriesStep(graph: map<string, SkillInfo>, prefix: seq<string>, skill: string, categories: map<string, seq<string>>)
    requires categories.Keys == CategoryKeys(graph, prefix)
    requires forall c :: c in categories ==> categories[c] == CategoryList(graph, prefix, c)
    ensures var next := if Known(graph, skill) then FileUnder(categories, InfoOf(graph, skill).category, skill) else categories;
      && next.Keys == CategoryKeys(graph, prefix + [skill])
      && forall c :: c in next ==> next[c] == CategoryList(graph, prefix + [skill], c)
  {
    CategoriesSnoc(graph, prefix, skill);
    if Known(graph, skill) {
      var category := InfoOf(graph, skill).category;
      if category !in categories {
        EmptyCategory(graph, prefix, category);
      }
    }
  }

  // ---------------------------------------------------------------- properties

  /** A skill the table does not know changes none of the three results. */
  lemma UnknownSkillIgnored(graph: map<string, SkillInfo>, skills: seq<string>, skill: string)
    requires !Known(graph, skill)
    ensures RelatedOf(graph, skills + [skill]) == RelatedOf(graph, skills)
    ensures CategoryKeys(graph, skills + [skill]) == CategoryKeys(graph, skills)
    ensures forall c :: CategoryList(graph, skills + [skill], c) == CategoryList(graph, skills, c)
    ensures DemandOf(graph, skills + [skill]) == DemandOf(graph, skills)
  {
    assert (skills + [skill])[..|skills|] == skills;
    CategoriesSnoc(graph, skills, skill);
  }

  /** One more skill adds its related list when it is known, and nothing otherwise. */
  lemma RelatedSnoc(graph: map<string, SkillInfo>, skills: seq<string>, r: string)
    requires skills != []
    ensures var last := skills[|skills| - 1];
      r in RelatedOf(graph, skills) <==> r in RelatedOf(graph, skills[..|skills| - 1]) || (Known(graph, last) && r in InfoOf(graph, last).related)
  {
  }

  /** `related_skills` is the union of the related lists of the known input skills. */
  lemma {:induction false} RelatedIsUnion(graph: map<string, SkillInfo>, skills: seq<string>)
    ensures forall r :: r in RelatedOf(graph, skills) <==>
      exists i :: 0 <= i < |skills| && Known(graph, skills[i]) && r in InfoOf(graph, skills[i]).related
    decreases |skills|
  {
    if skills != [] {
      var init, last := skills[..|skills| - 1], skills[|skills| - 1];
      RelatedIsUnion(graph, init);
      forall r ensures r in RelatedOf(graph, skills) <==>
        exists i :: 0 <= i < |skills| && Known(graph, skills[i]) && r in InfoOf(graph, skills[i]).related
      {
        RelatedSnoc(graph, skills, r);
        if r in RelatedOf(graph, init) {
          var i :| 0 <= i < |init| && Known(graph, init[i]) && r in InfoOf(graph, init[i]).related;
          assert skills[i] == init[i];
        } else if Known(graph, last) && r in InfoOf(graph, last).related {
          assert skills[|skills| - 1] == last;
        }
        if exists i :: 0 <= i < |skills| && Known(graph, skills[i]) && r in InfoOf(graph, skills[i]).related {
          var i :| 0 <= i < |skills| && Known(graph, skills[i]) && r in InfoOf(graph, skills[i]).related;
          if i < |init| {
            assert init[i] == skills[i];
          }
        }
      }
    }
  }

  /** `market_demand` has a key for exactly the known input skills, spelled as given, with the table's values. */
  lemma {:induction false} DemandKeys(graph: map<string, SkillInfo>, skills: seq<string>)
    ensures forall s :: s in DemandOf(graph, skills) <==> s in skills && Known(graph, s)
    ensures forall s :: s in DemandOf(graph, skills) ==> Known(graph, s) && DemandOf(graph, skills)[s] == DemandFor(graph, s)
    decreases |skills|
  {
    if skills != [] {
      var init := skills[..|skills| - 1];
      DemandKeys(graph, init);
      assert skills == init + [skills[|skills| - 1]];
    }
  }

  /** Each category lists its known skills in input order, repeats kept, and every category comes from one of them. */
  lemma CategoriesFaithful(graph: map<string, SkillInfo>, skills: seq<string>, c: string)
    ensures c in CategoryKeys(graph, skills) <==> exists i :: 0 <= i < |skills| && InCategory(graph, skills[i], c)
    ensures forall s :: s in CategoryList(graph, skills, c) <==> s in skills && InCategory(graph, s, c)
    ensures IsSubsequence(CategoryList(graph, skills, c), skills)
  {
    FilterMembers(skills, s => InCategory(graph, s, c));
    FilterSubsequence(skills, s => InCategory(graph, s, c));
    if c in CategoryKeys(graph, skills) {
      var s :| s in skills && Known(graph, s) && InfoOf(graph, s).category == c;
      var i :| 0 <= i < |skills| && skills[i] == s;
    }
  }

  /** On the agent's table, a python resume is filed under its demand and salary. */
  lemma PythonDemand()
    ensures DemandOf(KnowledgeGraph, ["python"]) == map["python" := Demand("very high", 120000)]
  {
    var python := "python";
    assert Lower(python) == python by {
      forall i | 0 <= i < |python| ensures Lower(python)[i] == python[i] { }
    }
    assert ["python"][..0] == [];
  }

  /** With no known skill, and in particular with no skills at all, all three results are empty. */
  lemma {:induction false} NothingKnownNothingFound(graph: map<string, SkillInfo>, skills: seq<string>)
    requires forall s :: s in skills ==> !Known(graph, s)
    ensures RelatedOf(graph, skills) == {} && CategoryKeys(graph, skills) == {} && DemandOf(graph, skills) == map[]
    decreases |skills|
  {
    if skills != [] {
      var init := skills[..|skills| - 1];
      assert forall s :: s in init ==> s in skills;
      NothingKnownNothingFound(graph, init);
    }
  }
}
