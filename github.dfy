/**
 * backend/services/github.py: turning GitHub search results into projects.
 * The HTTP client is a parameter: `search(query, perPage)` stands for one
 * `GET /search/repositories` and yields a status code with the decoded items,
 * or `Failed` when the request or the decoding raised.
 */
module GitHub {
  import opened Base
  import opened Strings
  import opened Sequences
  import opened Schemas
  import opened Classify

  /** One element of the search response's `items`, key by key. */
  datatype RawRepo = RawRepo(
    full_name: Json<string>,
    name: Json<string>,
    html_url: Json<string>,
    description: Json<string>,
    language: Json<string>,
    stargazers_count: Json<int>,
    forks_count: Json<int>,
    open_issues_count: Json<int>,
    stargazers_since_last_analytic: Json<int>,
    topics: Json<seq<string>>)

  /** `(repo.get(key, "") or fallback)` for a text field. */
  function TextOr(field: Json<string>, fallback: string): string
  {
    if field.Value? && field.v != "" then field.v else fallback
  }

  /** `repo.get(key, [])  or []` for the topic list. */
  function TopicsOf(field: Json<seq<string>>): seq<string>
  {
    if field.Value? then field.v else []
  }

  /** `repo.get(key, 0)` for a count, as an `int` field accepts it: `None` when the value is `null` or not a number. */
  function CountOf(field: Json<int>): Option<int>
  {
    match field
    case Missing => Some(0)
    case Value(n) => Some(n)
    case _ => None
  }

  // ---------------------------------------------------------------------------
  // _categorize

  const AI_WORDS := ["ai", "ml", "deep-learning", "neural", "llm", "gpt", "transformer"]
  const DATA_WORDS := ["data-science", "data-analysis", "analytics", "statistics", "pandas"]
  const WEB_WORDS := ["web", "frontend", "backend", "http", "api", "server"]
  const MOBILE_WORDS := ["mobile", "android", "ios", "app"]
  const DEVOPS_WORDS := ["devops", "docker", "kubernetes", "ci-cd", "deployment"]

  const AI_CATEGORY := "AI/机器学习"
  const DATA_CATEGORY := "数据分析"
  const WEB_CATEGORY := "Web开发"
  const MOBILE_CATEGORY := "移动开发"
  const DEVOPS_CATEGORY := "DevOps"
  const PYTHON_CATEGORY := "Python生态"
  const JAVA_CATEGORY := "Java生态"
  const FRONTEND_CATEGORY := "前端技术"
  const GO_CATEGORY := "Go生态"
  const GENERAL_CATEGORY := "通用工具"

  /** What `_categorize` reads from a repository. */
  function CategoryFeatures(repo: RawRepo): Features
  {
    Features(
      TopicsOf(repo.topics),
      ToLower(TextOr(repo.description, "")),
      ToLower(TextOr(repo.name, "")),
      TextOr(repo.language, ""))
  }

  /** `_categorize`: the `if` chain, keyword groups first, then the language. */
  function Categorize(f: Features): string
  {
    if AnyListed(AI_WORDS, f.topics) || AnyContained(AI_WORDS, f.text) then AI_CATEGORY
    else if AnyListed(DATA_WORDS, f.topics) || AnyContained(DATA_WORDS, f.text)
      || AnyContained(DATA_WORDS, f.name) then DATA_CATEGORY
    else if AnyListed(WEB_WORDS, f.topics) || AnyContained(WEB_WORDS, f.text) then WEB_CATEGORY
    else if AnyListed(MOBILE_WORDS, f.topics) || AnyContained(MOBILE_WORDS, f.text) then MOBILE_CATEGORY
    else if AnyListed(DEVOPS_WORDS, f.topics) || AnyContained(DEVOPS_WORDS, f.text) then DEVOPS_CATEGORY
    else if f.language == "Python" then PYTHON_CATEGORY
    else if f.language == "Java" then JAVA_CATEGORY
    else if f.language == "JavaScript" || f.language == "TypeScript" then FRONTEND_CATEGORY
    else if f.language == "Go" then GO_CATEGORY
    else GENERAL_CATEGORY
  }

  /** The same classifier written as a table: the only group that reads the name is data analysis. */
  const CATEGORY_RULES := [
    KeywordRule(AI_WORDS, AI_WORDS, [], AI_CATEGORY),
    KeywordRule(DATA_WORDS, DATA_WORDS, DATA_WORDS, DATA_CATEGORY),
    KeywordRule(WEB_WORDS, WEB_WORDS, [], WEB_CATEGORY),
    KeywordRule(MOBILE_WORDS, MOBILE_WORDS, [], MOBILE_CATEGORY),
    KeywordRule(DEVOPS_WORDS, DEVOPS_WORDS, [], DEVOPS_CATEGORY),
    LanguageRule(["Python"], PYTHON_CATEGORY),
    LanguageRule(["Java"], JAVA_CATEGORY),
    LanguageRule(["JavaScript", "TypeScript"], FRONTEND_CATEGORY),
    LanguageRule(["Go"], GO_CATEGORY)
  ]

  /** Each rule of the table tests exactly one condition of the `if` chain. */
  lemma CategoryRuleConditions(f: Features)
    ensures |CATEGORY_RULES| == 9
    ensures Matches(CATEGORY_RULES[0], f) <==> AnyListed(AI_WORDS, f.topics) || AnyContained(AI_WORDS, f.text)
    ensures Matches(CATEGORY_RULES[1], f) <==>
      AnyListed(DATA_WORDS, f.topics) || AnyContained(DATA_WORDS, f.text) || AnyContained(DATA_WORDS, f.name)
    ensures Matches(CATEGORY_RULES[2], f) <==> AnyListed(WEB_WORDS, f.topics) || AnyContained(WEB_WORDS, f.text)
    ensures Matches(CATEGORY_RULES[3], f) <==> AnyListed(MOBILE_WORDS, f.topics) || AnyContained(MOBILE_WORDS, f.text)
    ensures Matches(CATEGORY_RULES[4], f) <==> AnyListed(DEVOPS_WORDS, f.topics) || AnyContained(DEVOPS_WORDS, f.text)
    ensures Matches(CATEGORY_RULES[5], f) <==> f.language == "Python"
    ensures Matches(CATEGORY_RULES[6], f) <==> f.language == "Java"
    ensures Matches(CATEGORY_RULES[7], f) <==> f.language == "JavaScript" || f.language == "TypeScript"
    ensures Matches(CATEGORY_RULES[8], f) <==> f.language == "Go"
  {
    assert !AnyContained([], f.name);
  }

  /** `_categorize` is the first-match decision table: AI, data, web, mobile, DevOps, then language. */
  lemma CategorizeIsTable(f: Features)
    ensures Categorize(f) == FirstMatch(CATEGORY_RULES, f, GENERAL_CATEGORY)
  {
    var rules, g := CATEGORY_RULES, GENERAL_CATEGORY;
    CategoryRuleConditions(f);
    if Matches(rules[0], f) {
      FirstMatchIsFirst(rules, f, g, 0);
    } else if Matches(rules[1], f) {
      FirstMatchIsFirst(rules, f, g, 1);
    } else if Matches(rules[2], f) {
      FirstMatchIsFirst(rules, f, g, 2);
    } else if Matches(rules[3], f) {
      FirstMatchIsFirst(rules, f, g, 3);
    } else if Matches(rules[4], f) {
      FirstMatchIsFirst(rules, f, g, 4);
    } else if Matches(rules[5], f) {
      FirstMatchIsFirst(rules, f, g, 5);
    } else if Matches(rules[6], f) {
      FirstMatchIsFirst(rules, f, g, 6);
    } else if Matches(rules[7], f) {
      FirstMatchIsFirst(rules, f, g, 7);
    } else if Matches(rules[8], f) {
      FirstMatchIsFirst(rules, f, g, 8);
    } else {
      FirstMatchFallback(rules, f, g);
    }
  }

  /** The repository name matters only through the data-analysis keywords. */
  lemma NameOnlyForData(f: Features, name: string)
    requires AnyContained(DATA_WORDS, name) == AnyContained(DATA_WORDS, f.name)
    ensures Categorize(f.(name := name)) == Categorize(f)
  {
  }

  // ---------------------------------------------------------------------------
  // _calculate_trend

  const RISING := "rising"
  const FALLING := "falling"
  const STABLE := "stable"

  /** `_calculate_trend` on the star velocity `stargazers_since_last_analytic` (absent: 0). */
  function CalculateTrend(velocity: int): (trend: string)
    ensures trend == RISING <==> velocity > 1000
    ensures trend == FALLING <==> velocity < 100
    ensures trend == STABLE <==> 100 <= velocity <= 1000
  {
    if velocity > 1000 then RISING
    else if velocity < 100 then FALLING
    else STABLE
  }

  // ---------------------------------------------------------------------------
  // _generate_usage_steps

  const CLONE_PREFIX := "克隆项目: git clone https://github.com/"
  const ENTER_STEP := "进入项目目录"
  const PYTHON_STEPS := ["创建虚拟环境: python -m venv venv", "安装依赖: pip install -r requirements.txt", "运行项目: python main.py"]
  const JAVA_STEPS := ["使用 Maven 构建: mvn clean install", "运行项目: java -jar target/*.jar"]
  const NODE_STEPS := ["安装依赖: npm install", "运行开发服务器: npm run dev"]
  const GO_STEPS := ["下载依赖: go mod download", "运行项目: go run main.go"]
  const GENERIC_STEPS := ["按照 README.md 说明安装依赖", "启动项目"]

  /** The build steps per language, as a lookup table. */
  const BUILD_STEPS: map<string, seq<string>> := map[
    "Python" := PYTHON_STEPS,
    "Java" := JAVA_STEPS,
    "JavaScript" := NODE_STEPS,
    "TypeScript" := NODE_STEPS,
    "Go" := GO_STEPS
  ]

  /** `_generate_usage_steps(full_name, repo)`, with `language` the repository's language or "". */
  function UsageSteps(fullName: string, language: string): (steps: seq<string>)
    ensures |steps| == if language == "Python" then 5 else 4
    ensures steps[0] == CLONE_PREFIX + fullName && steps[1] == ENTER_STEP
    ensures steps[2..] == if language in BUILD_STEPS then BUILD_STEPS[language] else GENERIC_STEPS
  {
    var steps := [CLONE_PREFIX + fullName, ENTER_STEP];
    if language == "Python" then steps + PYTHON_STEPS
    else if language == "Java" then steps + JAVA_STEPS
    else if language == "JavaScript" || language == "TypeScript" then steps + NODE_STEPS
    else if language == "Go" then steps + GO_STEPS
    else steps + GENERIC_STEPS
  }

  // ---------------------------------------------------------------------------
  // _parse_repository

  const NO_DESCRIPTION := "暂无描述"
  const OTHER_LANGUAGE := "Other"

  /**
   * The items `_parse_repository` turns into a project. The others make it
   * return `None`: an absent, `null` or empty `full_name`; a `null` URL or count
   * (the model rejects it); a `null` velocity (`None > 1000` raises); or a
   * value of the wrong JSON type.
   */
  predicate Parseable(repo: RawRepo)
  {
    && repo.full_name.Value? && repo.full_name.v != ""
    && (repo.html_url.Missing? || repo.html_url.Value?)
    && !repo.name.Mistyped? && !repo.description.Mistyped? && !repo.language.Mistyped?
    && !repo.topics.Mistyped?
    && CountOf(repo.stargazers_count).Some?
    && CountOf(repo.forks_count).Some?
    && CountOf(repo.open_issues_count).Some?
    && CountOf(repo.stargazers_since_last_analytic).Some?
  }

  /** `_parse_repository`: a project exactly for the parseable items. */
  function ParseRepository(repo: RawRepo): (r: Option<ProjectCreate>)
    ensures r.None? <==> !Parseable(repo)
  {
    if !Parseable(repo) then None
    else
      var fullName := repo.full_name.v;
      var url := if repo.html_url.Value? then repo.html_url.v else "";
      Some(ProjectCreate(
        name := LastSegment(fullName),
        full_name := fullName,
        url := url,
        description := Some(TextOr(repo.description, NO_DESCRIPTION)),
        language := Some(TextOr(repo.language, OTHER_LANGUAGE)),
        stars := CountOf(repo.stargazers_count).value,
        forks := CountOf(repo.forks_count).value,
        issues := CountOf(repo.open_issues_count).value,
        fork_url := Some(url + "/fork"),
        issues_url := Some(url + "/issues"),
        category := Some(Categorize(CategoryFeatures(repo))),
        trend := CalculateTrend(CountOf(repo.stargazers_since_last_analytic).value),
        usage_steps := UsageSteps(fullName, TextOr(repo.language, ""))))
  }

  /**
   * The name is the last `/`-segment of the non-empty `full_name` (a suffix
   * of it with no `/`, that is the whole name or follows a `/`), and the fork and issues links extend `html_url`.
   */
  lemma ParsedIdentity(repo: RawRepo)
    requires Parseable(repo)
    ensures var p := ParseRepository(repo).value;
      && p.full_name == repo.full_name.v && p.full_name != ""
      && '/' !in p.name && |p.name| <= |p.full_name|
      && p.full_name[|p.full_name| - |p.name|..] == p.name
      && ('/' !in p.full_name ==> p.name == p.full_name)
      && (p.name == p.full_name || p.full_name[|p.full_name| - |p.name| - 1] == '/')
      && p.url == (if repo.html_url.Value? then repo.html_url.v else "")
      && p.fork_url == Some(p.url + "/fork") && p.issues_url == Some(p.url + "/issues")
  {
    var p := ParseRepository(repo).value;
    assert p.name == LastSegment(repo.full_name.v);
  }

  /**
   * Fallbacks: an absent, `null` or empty description becomes "暂无描述" and
   * language "Other"; otherwise they are kept. An absent count becomes 0.
   */
  lemma ParsedFallbacks(repo: RawRepo)
    requires Parseable(repo)
    ensures var p := ParseRepository(repo).value;
      && p.description.Some? && p.description.value != ""
      && (repo.description.Value? && repo.description.v != "" ==> p.description.value == repo.description.v)
      && (!repo.description.Value? || repo.description.v == "" ==> p.description.value == NO_DESCRIPTION)
      && p.language.Some? && p.language.value != ""
      && (repo.language.Value? && repo.language.v != "" ==> p.language.value == repo.language.v)
      && (!repo.language.Value? || repo.language.v == "" ==> p.language.value == OTHER_LANGUAGE)
      && (repo.stargazers_count.Missing? ==> p.stars == 0)
      && (repo.stargazers_count.Value? ==> p.stars == repo.stargazers_count.v)
      && (repo.forks_count.Missing? ==> p.forks == 0)
      && (repo.forks_count.Value? ==> p.forks == repo.forks_count.v)
      && (repo.open_issues_count.Missing? ==> p.issues == 0)
      && (repo.open_issues_count.Value? ==> p.issues == repo.open_issues_count.v)
  {
  }

  /**
   * The derived fields: the category from the raw fields, the trend from the
   * velocity (absent: 0, so "falling"), and the steps from the raw language,
   * so an item without a language gets the generic steps.
   */
  lemma ParsedDerived(repo: RawRepo)
    requires Parseable(repo)
    ensures var p := ParseRepository(repo).value;
      && p.category == Some(Categorize(CategoryFeatures(repo)))
      && (repo.stargazers_since_last_analytic.Missing? ==> p.trend == FALLING)
      && (repo.stargazers_since_last_analytic.Value? ==> p.trend == CalculateTrend(repo.stargazers_since_last_analytic.v))
      && p.usage_steps == UsageSteps(p.full_name, TextOr(repo.language, ""))
  {
  }

  /**
   * A search item with only a full name, a description and topics: it is
   * classified by its "ai" topic and, with no velocity field, its trend is
   * "falling".
   */
  lemma MinimalItemExample()
    ensures var repo := RawRepo(Value("acme/widget"), Missing, Missing, Value("deep-learning toolkit"),
        Missing, Value(5000), Missing, Missing, Missing, Value(["ai"]));
      var r := ParseRepository(repo);
      && r.Some? && r.value.name == "widget" && r.value.stars == 5000
      && r.value.category == Some(AI_CATEGORY) && r.value.trend == FALLING
      && r.value.language == Some(OTHER_LANGUAGE) && |r.value.usage_steps| == 4
  {
    var repo := RawRepo(Value("acme/widget"), Missing, Missing, Value("deep-learning toolkit"),
      Missing, Value(5000), Missing, Missing, Missing, Value(["ai"]));
    assert Parseable(repo);
    assert LastSegment("acme/widget") == "widget" by {
      assert "acme/widget" == "acme" + "/" + "widget";
      LastSegmentOfPair("acme", "widget");
    }
    assert Categorize(CategoryFeatures(repo)) == AI_CATEGORY by {
      assert "ai" in AI_WORDS && "ai" in TopicsOf(repo.topics);
    }
    assert |UsageSteps("acme/widget", "")| == 4;
  }

  // ---------------------------------------------------------------------------
  // _deduplicate

  function FullName(p: ProjectCreate): string
  {
    p.full_name
  }

  /** `_deduplicate`: the `seen`-set loop keeps the first project per `full_name`. */
  method Deduplicate(projects: seq<ProjectCreate>) returns (unique: seq<ProjectCreate>)
    ensures unique == DedupBy(projects, FullName)
  {
    var seen: set<string> := {};
    unique := [];
    for i := 0 to |projects|
      invariant seen == KeySet(projects[..i], FullName)
      invariant unique == DedupBy(projects[..i], FullName)
    {
      var p := projects[i];
      assert projects[..i + 1] == projects[..i] + [p];
      KeySetAppend(projects[..i], p, FullName);
      if p.full_name !in seen {
        seen := seen + {p.full_name};
        unique := unique + [p];
      }
    }
    assert projects[..|projects|] == projects;
  }

  // ---------------------------------------------------------------------------
  // sorted(unique, key=stars, reverse=True)[:20]

  predicate StarsNonIncreasing(s: seq<ProjectCreate>)
  {
    forall i, j :: 0 <= i < j < |s| ==> s[i].stars >= s[j].stars
  }

  /** Inserts `x` in front of the first element with no more stars than it has. */
  function Insert(x: ProjectCreate, t: seq<ProjectCreate>): (r: seq<ProjectCreate>)
    ensures multiset(r) == multiset(t) + multiset{x}
    ensures forall y :: y in r <==> y == x || y in t
  {
    if t == [] || t[0].stars <= x.stars then [x] + t
    else
      assert t == [t[0]] + t[1..];
      [t[0]] + Insert(x, t[1..])
  }

  lemma {:induction false} InsertSorted(x: ProjectCreate, t: seq<ProjectCreate>)
    requires StarsNonIncreasing(t)
    ensures StarsNonIncreasing(Insert(x, t))
  {
    if t != [] && t[0].stars > x.stars {
      InsertSorted(x, t[1..]);
      var r := Insert(x, t[1..]);
      forall y | y in r ensures t[0].stars >= y.stars {
        if y != x {
          var j :| 0 <= j < |t[1..]| && t[1..][j] == y;
          assert t[j + 1] == y;
        }
      }
      assert forall j :: 0 <= j < |r| ==> r[j] in r;
    }
  }

  /**
   * The stable descending sort: `s[0]` goes in front of every later element
   * with as many stars, so equal-star elements keep their input order.
   */
  function SortByStars(s: seq<ProjectCreate>): (r: seq<ProjectCreate>)
    ensures multiset(r) == multiset(s)
    ensures StarsNonIncreasing(r)
  {
    if s == [] then []
    else
      var rest := SortByStars(s[1..]);
      InsertSorted(s[0], rest);
      assert s == [s[0]] + s[1..];
      Insert(s[0], rest)
  }

  /** The elements with exactly `k` stars, in order. */
  function WithStars(s: seq<ProjectCreate>, k: int): seq<ProjectCreate>
  {
    if s == [] then [] else (if s[0].stars == k then [s[0]] else []) + WithStars(s[1..], k)
  }

  lemma {:induction false} InsertStable(x: ProjectCreate, t: seq<ProjectCreate>, k: int)
    ensures WithStars(Insert(x, t), k) == (if x.stars == k then [x] else []) + WithStars(t, k)
  {
    if t == [] || t[0].stars <= x.stars {
      assert ([x] + t)[1..] == t;
    } else {
      InsertStable(x, t[1..], k);
      assert ([t[0]] + Insert(x, t[1..]))[1..] == Insert(x, t[1..]);
    }
  }

  /** Sorting is stable: the elements of each star count keep their input order. */
  lemma {:induction false} SortStable(s: seq<ProjectCreate>, k: int)
    ensures WithStars(SortByStars(s), k) == WithStars(s, k)
  {
    if s != [] {
      SortStable(s[1..], k);
      InsertStable(s[0], SortByStars(s[1..]), k);
    }
  }

  lemma {:induction false} InsertKeys(x: ProjectCreate, t: seq<ProjectCreate>)
    ensures KeySet(Insert(x, t), FullName) == KeySet(t, FullName) + {x.full_name}
    ensures UniqueBy(t, FullName) && x.full_name !in KeySet(t, FullName) ==> UniqueBy(Insert(x, t), FullName)
  {
    if t == [] || t[0].stars <= x.stars {
      KeySetCons(x, t, FullName);
      UniqueByCons(x, t, FullName);
    } else {
      var rest := t[1..];
      assert t == [t[0]] + rest;
      InsertKeys(x, rest);
      KeySetCons(t[0], rest, FullName);
      KeySetCons(t[0], Insert(x, rest), FullName);
      UniqueByCons(t[0], rest, FullName);
      UniqueByCons(t[0], Insert(x, rest), FullName);
    }
  }

  /** Sorting keeps the set of names, and so keeps names unique. */
  lemma {:induction false} SortKeys(s: seq<ProjectCreate>)
    ensures KeySet(SortByStars(s), FullName) == KeySet(s, FullName)
    ensures UniqueBy(s, FullName) ==> UniqueBy(SortByStars(s), FullName)
  {
    if s != [] {
      var rest := s[1..];
      assert s == [s[0]] + rest;
      SortKeys(rest);
      InsertKeys(s[0], SortByStars(rest));
      KeySetCons(s[0], rest, FullName);
      UniqueByCons(s[0], rest, FullName);
    }
  }

  lemma {:induction false} WithStarsPrefix(s: seq<ProjectCreate>, n: nat, k: int)
    requires n <= |s|
    ensures var w := WithStars(s[..n], k); |w| <= |WithStars(s, k)| && w == WithStars(s, k)[..|w|]
  {
    if n > 0 {
      assert s[..n][1..] == s[1..][..n - 1];
      WithStarsPrefix(s[1..], n - 1, k);
    }
  }

  const TOP_COUNT := 20

  /** The tail of `fetch_trending_projects`: de-duplicate, sort by stars descending, keep 20. */
  function Rank(projects: seq<ProjectCreate>): seq<ProjectCreate>
  {
    Take(SortByStars(DedupBy(projects, FullName)), TOP_COUNT)
  }

  /** The ranking holds at most 20 projects, all from the input, and exactly 20 when there are enough. */
  lemma RankSize(projects: seq<ProjectCreate>)
    ensures |Rank(projects)| <= TOP_COUNT
    ensures |DedupBy(projects, FullName)| >= TOP_COUNT ==> |Rank(projects)| == TOP_COUNT
    ensures forall p :: p in Rank(projects) ==> p in projects
  {
    var sorted := SortByStars(DedupBy(projects, FullName));
    assert forall p :: p in sorted ==> p in multiset(sorted);
  }

  /** No two ranked projects share a `full_name`, and stars never increase along the ranking. */
  lemma RankOrdered(projects: seq<ProjectCreate>)
    ensures UniqueBy(Rank(projects), FullName)
    ensures StarsNonIncreasing(Rank(projects))
  {
    SortKeys(DedupBy(projects, FullName));
  }

  /** Projects with equal stars appear in the ranking in their order after de-duplication. */
  lemma RankStable(projects: seq<ProjectCreate>, k: int)
    ensures var w := WithStars(Rank(projects), k); var u := WithStars(DedupBy(projects, FullName), k);
      |w| <= |u| && w == u[..|w|]
  {
    var unique := DedupBy(projects, FullName);
    var sorted := SortByStars(unique);
    SortStable(unique, k);
    WithStarsPrefix(sorted, |Rank(projects)|, k);
  }

  /** No project left out of the ranking has more stars than a ranked one. */
  lemma RankIsTop(projects: seq<ProjectCreate>, i: nat, y: ProjectCreate)
    requires i < |Rank(projects)|
    requires y in DedupBy(projects, FullName) && y !in Rank(projects)
    ensures Rank(projects)[i].stars >= y.stars
  {
    var unique := DedupBy(projects, FullName);
    var sorted := SortByStars(unique);
    var r := Rank(projects);
    assert y in multiset(unique);
    assert y in sorted;
    var j :| 0 <= j < |sorted| && sorted[j] == y;
    assert forall m :: 0 <= m < |r| ==> r[m] == sorted[m];
    assert j >= |r|;
  }

  // ---------------------------------------------------------------------------
  // fetch_trending_projects: the query loop

  /** What one search request gives: a status with the decoded items, or an exception. */
  datatype SearchResponse = Response(status_code: int, items: seq<RawRepo>) | Failed

  /**
   * The four queries for repositories created after `since` (a `YYYY-MM-DD`
   * date): the most-starred overall, then one per topic.
   */
  function SearchQueries(since: string): (queries: seq<string>)
    ensures |queries| == 4
    ensures forall q :: q in queries ==> Contains(q, "created:>" + since)
    ensures var created := "created:>" + since;
      queries == [created + " sort:stars", "topic:data-science " + created,
                  "topic:machine-learning " + created, "topic:artificial-intelligence " + created]
  {
    var created := "created:>" + since;
    ContainsMiddle("", created, " sort:stars");
    ContainsMiddle("topic:data-science ", created, "");
    ContainsMiddle("topic:machine-learning ", created, "");
    ContainsMiddle("topic:artificial-intelligence ", created, "");
    assert "" + created + " sort:stars" == created + " sort:stars";
    assert "topic:data-science " + created + "" == "topic:data-science " + created;
    assert "topic:machine-learning " + created + "" == "topic:machine-learning " + created;
    assert "topic:artificial-intelligence " + created + "" == "topic:artificial-intelligence " + created;
    [created + " sort:stars",
     "topic:data-science " + created,
     "topic:machine-learning " + created,
     "topic:artificial-intelligence " + created]
  }

  /** The responses to the queries, in query order. */
  function Responses(queries: seq<string>, perPage: int, search: (string, int) -> SearchResponse): (rs: seq<SearchResponse>)
    ensures |rs| == |queries|
  {
    seq(|queries|, i requires 0 <= i < |queries| => search(queries[i], perPage))
  }

  /** The projects parsed from a list of items, skipping the items that do not parse. */
  function ParseItems(items: seq<RawRepo>): (ps: seq<ProjectCreate>)
    ensures |ps| <= |items|
  {
    if items == [] then []
    else
      var init := ParseItems(items[..|items| - 1]);
      match ParseRepository(items[|items| - 1])
      case Some(p) => init + [p]
      case None => init
  }

  /** A project is collected exactly when some item parses to it. */
  lemma {:induction false} ParseItemsSpec(items: seq<RawRepo>)
    ensures forall p :: p in ParseItems(items) <==> exists it :: it in items && ParseRepository(it) == Some(p)
  {
    if items != [] {
      var init, last := items[..|items| - 1], items[|items| - 1];
      ParseItemsSpec(init);
      assert items == init + [last];
      forall p | exists it :: it in items && ParseRepository(it) == Some(p)
        ensures p in ParseItems(items)
      {
        var it :| it in items && ParseRepository(it) == Some(p);
        if it != last {
          assert it in init;
        }
      }
    }
  }

  /** What one query adds to `all_projects`: its parsed items on a 200, nothing otherwise. */
  function Contribution(r: SearchResponse): seq<ProjectCreate>
  {
    if r.Response? && r.status_code == 200 then ParseItems(r.items) else []
  }

  /** `all_projects` after the query loop, as a fold over the responses. */
  function Collect(rs: seq<SearchResponse>): seq<ProjectCreate>
  {
    FlatMap(rs, Contribution)
  }

  /**
   * A 403, any other non-200 status or an exception skips that query only:
   * the queries before and after it contribute as if it had not been made.
   */
  lemma SkippedQuery(before: seq<SearchResponse>, r: SearchResponse, after: seq<SearchResponse>)
    requires r.Failed? || r.status_code != 200
    ensures Collect(before + [r] + after) == Collect(before) + Collect(after)
  {
    FlatMapConcat(before + [r], after, Contribution);
    FlatMapConcat(before, [r], Contribution);
    assert [r][..0] == [];
  }

  /** The inner loop of a 200 reply: each item that parses is appended, in order. */
  method AppendParsed(before: seq<ProjectCreate>, items: seq<RawRepo>) returns (after: seq<ProjectCreate>)
    ensures after == before + ParseItems(items)
  {
    after := before;
    for j := 0 to |items|
      invariant after == before + ParseItems(items[..j])
    {
      assert items[..j + 1][..j] == items[..j];
      var project := ParseRepository(items[j]);
      if project.Some? {
        after := after + [project.value];
      }
    }
    assert items[..|items|] == items;
  }

  /**
   * `fetch_trending_projects(days, per_page)` with the date `since` computed
   * by the caller and `search` standing for the HTTP client.
   */
  method FetchTrendingProjects(since: string, perPage: int, search: (string, int) -> SearchResponse)
    returns (top: seq<ProjectCreate>)
    ensures top == Rank(Collect(Responses(SearchQueries(since), perPage, search)))
  {
    var queries := SearchQueries(since);
    var allProjects: seq<ProjectCreate> := [];
    for q := 0 to |queries|
      invariant allProjects == Collect(Responses(queries[..q], perPage, search))
    {
      var response := search(queries[q], perPage);
      assert Responses(queries[..q + 1], perPage, search) == Responses(queries[..q], perPage, search) + [response];
      match response {
        case Response(status, items) =>
          if status == 200 {
            allProjects := AppendParsed(allProjects, items);
          } else if status == 403 {
            // rate limited: the remaining queries still run
          } else {
            // any other status: the query is skipped
          }
        case Failed =>
          // the request raised: the query is skipped
      }
      FlatMapConcat(Responses(queries[..q], perPage, search), [response], Contribution);
    }
    assert queries[..|queries|] == queries;
    var unique := Deduplicate(allProjects);
    var sorted := SortByStars(unique);
    top := Take(sorted, TOP_COUNT);
  }
}
