/**
 * web/dashboard.js: the dashboard page's own GitHub mapping and classifier,
 * its language statistics and filter, and the badge and colour lookups.
 * The page state (`projects`, `currentFilter` and the document kept in
 * `localStorage`) is the class `Dashboard`; the fetch reply and the clock
 * are parameters.
 */
module Dashboard {
  import opened Base
  import opened Strings
  import opened Sequences
  import opened Classify
  import GitHub

  /** The fields of a GitHub search item the page reads; `null` and absent are both `None`. */
  datatype JsRepo = JsRepo(
    full_name: string,
    html_url: string,
    description: Option<string>,
    language: Option<string>,
    stargazers_count: int,
    forks_count: int,
    open_issues_count: Option<int>,
    topics: Option<seq<string>>)

  /** A project as the page holds it. Data read back from a file may have a `null` language. */
  datatype DashProject = DashProject(
    name: string,
    fullName: string,
    url: string,
    forkUrl: string,
    issuesUrl: string,
    description: string,
    language: Option<string>,
    stars: int,
    forks: int,
    issues: int,
    category: string,
    trend: string,
    usageSteps: seq<string>)

  // ---------------------------------------------------------------------------
  // getCategoryFromRepo

  const AI_LABEL := "AI"
  const WEB_LABEL := "Web开发"
  const MOBILE_LABEL := "移动开发"
  const DEVOPS_LABEL := "DevOps"
  const JAVA_LABEL := "Java生态"
  const PYTHON_LABEL := "Python生态"
  const FRONTEND_LABEL := "前端技术"
  const GENERAL_LABEL := "通用工具"

  /** What `getCategoryFromRepo` reads: topics (or none), the lower-cased description (or ""), the language. */
  function RepoFeatures(repo: JsRepo): Features
  {
    Features(repo.topics.GetOr([]), ToLower(OrText(repo.description, "")), "", repo.language.GetOr(""))
  }

  /** `getCategoryFromRepo`: the page's own `if` chain. */
  function CategoryFromRepo(f: Features): string
  {
    if AnyListed(["ai", "ml", "deep-learning"], f.topics)
      || AnyContained(["ai", "machine learning", "neural network"], f.text) then AI_LABEL
    else if AnyListed(["web", "frontend"], f.topics) || AnyContained(["web", "frontend"], f.text) then WEB_LABEL
    else if AnyListed(["mobile"], f.topics) || AnyContained(["mobile"], f.text) then MOBILE_LABEL
    else if AnyListed(["devops", "docker"], f.topics) || AnyContained(["devops", "ci/cd"], f.text) then DEVOPS_LABEL
    else if f.language == "Java" then JAVA_LABEL
    else if f.language == "Python" then PYTHON_LABEL
    else if f.language == "JavaScript" || f.language == "TypeScript" then FRONTEND_LABEL
    else GENERAL_LABEL
  }

  /** The same classifier as a table: keyword groups AI, web, mobile, DevOps, then Java, Python, JS/TS. */
  const DASHBOARD_RULES := [
    KeywordRule(["ai", "ml", "deep-learning"], ["ai", "machine learning", "neural network"], [], AI_LABEL),
    KeywordRule(["web", "frontend"], ["web", "frontend"], [], WEB_LABEL),
    KeywordRule(["mobile"], ["mobile"], [], MOBILE_LABEL),
    KeywordRule(["devops", "docker"], ["devops", "ci/cd"], [], DEVOPS_LABEL),
    LanguageRule(["Java"], JAVA_LABEL),
    LanguageRule(["Python"], PYTHON_LABEL),
    LanguageRule(["JavaScript", "TypeScript"], FRONTEND_LABEL)
  ]

  /** `getCategoryFromRepo` is the first-match decision table, with `'通用工具'` when nothing matches. */
  lemma CategoryFromRepoIsTable(f: Features)
    ensures CategoryFromRepo(f) == FirstMatch(DASHBOARD_RULES, f, GENERAL_LABEL)
  {
    var rules, g := DASHBOARD_RULES, GENERAL_LABEL;
    assert !AnyContained([], f.name);
    if Matches(rules[0], f) {
      FirstMatchIsFirst(rules, f, g, 0);
    } else if Matches(rules[1], f) {
      FirstMatchIsFirst(rules, f, g, 1);
    } else if Matches(rules[2], f) {
      FirstMatchIsFirst(rules, f, g, 2);
    } else if Matches(rules[3], f) {
      FirstMatchIsFirst(rules, f, g, 3);
    } else if Matches(rules[4], f) {
      FirstMatchIsFirst(rules, f, g, 4);
    } else if Matches(rules[5], f) {
      FirstMatchIsFirst(rules, f, g, 5);
    } else if Matches(rules[6], f) {
      FirstMatchIsFirst(rules, f, g, 6);
    } else {
      FirstMatchFallback(rules, f, g);
    }
  }

  /** The repository name never influences the page's classifier. */
  lemma CategoryIgnoresName(f: Features, name: string)
    ensures CategoryFromRepo(f.(name := name)) == CategoryFromRepo(f)
  {
  }

  // ---------------------------------------------------------------------------
  // fetchTrendingProjects

  const PAGE_SIZE := 10
  const CLONE_STEP_PREFIX := "克隆项目: git clone "
  const INSTALL_STEP := "按照README.md中的说明进行安装"
  const CONFIGURE_STEP := "根据需要进行配置和自定义"
  const START_STEP := "启动项目并开始使用"

  /** The reply of the search request: a JSON body with `items`, or a status that is not OK. */
  datatype SearchReply = Items(items: seq<JsRepo>) | NotOk(status: int)

  /** The project the page derives from one search item. */
  function ToDashProject(repo: JsRepo): (p: DashProject)
    ensures p.name == repo.full_name && p.fullName == repo.full_name && p.url == repo.html_url
    ensures p.forkUrl == repo.html_url + "/fork" && p.issuesUrl == repo.html_url + "/issues"
    ensures p.description == OrText(repo.description, "暂无描述")
    ensures p.language == Some(OrText(repo.language, "Other"))
    ensures p.issues == (if repo.open_issues_count.Some? then repo.open_issues_count.value else 0)
    ensures p.category == FirstMatch(DASHBOARD_RULES, RepoFeatures(repo), GENERAL_LABEL)
    ensures p.trend == "rising"
    ensures p.stars == repo.stargazers_count && p.forks == repo.forks_count
    ensures |p.usageSteps| == 4 && p.usageSteps[0] == CLONE_STEP_PREFIX + repo.html_url
    ensures p.usageSteps[1..] == [INSTALL_STEP, CONFIGURE_STEP, START_STEP]
  {
    CategoryFromRepoIsTable(RepoFeatures(repo));
    DashProject(
      repo.full_name,
      repo.full_name,
      repo.html_url,
      repo.html_url + "/fork",
      repo.html_url + "/issues",
      OrText(repo.description, "暂无描述"),
      Some(OrText(repo.language, "Other")),
      repo.stargazers_count,
      repo.forks_count,
      if repo.open_issues_count.Some? then repo.open_issues_count.value else 0,
      CategoryFromRepo(RepoFeatures(repo)),
      "rising",
      [CLONE_STEP_PREFIX + repo.html_url, INSTALL_STEP, CONFIGURE_STEP, START_STEP])
  }

  /**
   * `fetchTrendingProjects`: a status that is not OK raises; otherwise the
   * first ten items, mapped one by one in order.
   */
  function FetchTrendingProjects(reply: SearchReply): (r: Result<seq<DashProject>, string>)
    ensures reply.NotOk? ==> r == Err("GitHub API 请求失败: " + IntToString(reply.status))
    ensures reply.Items? ==> r.Ok? && |r.value| == (if |reply.items| < PAGE_SIZE then |reply.items| else PAGE_SIZE)
    ensures reply.Items? ==> forall i :: 0 <= i < |r.value| ==> r.value[i] == ToDashProject(reply.items[i])
  {
    match reply
    case NotOk(status) => Err("GitHub API 请求失败: " + IntToString(status))
    case Items(items) => Ok(MapSeq(Take(items, PAGE_SIZE), ToDashProject))
  }

  // ---------------------------------------------------------------------------
  // calculateLanguageDistribution, getLanguageClass, getTrendIndicator

  /** `project.language || 'Other'`. */
  function LanguageName(p: DashProject): string
  {
    OrText(p.language, "Other")
  }

  /**
   * `calculateLanguageDistribution`: per language (a missing one counted as
   * `'Other'`) the number of projects; the counts add up to the number of projects.
   */
  method CalculateLanguageDistribution(projects: seq<DashProject>) returns (distribution: map<string, nat>)
    ensures distribution == CountMap(MapSeq(projects, LanguageName))
    ensures forall lang :: lang in distribution ==> lang != "" && distribution[lang] >= 1
    ensures var langs := MapSeq(projects, LanguageName);
      && (forall k :: k in Distinct(langs) ==> k in distribution)
      && SumValues(Distinct(langs), distribution) == |projects|
  {
    distribution := map[];
    for i := 0 to |projects|
      invariant distribution == CountMap(MapSeq(projects[..i], LanguageName))
    {
      var lang := LanguageName(projects[i]);
      assert MapSeq(projects[..i + 1], LanguageName) == MapSeq(projects[..i], LanguageName) + [lang];
      BumpCounts(MapSeq(projects[..i], LanguageName), lang);
      distribution := Bump(distribution, lang);
    }
    assert projects[..|projects|] == projects;
    CountsSumToLength(MapSeq(projects, LanguageName));
  }

  /** The colour class table of the project cards. */
  const CARD_LANGUAGE_CLASSES: map<string, string> := map[
    "Java" := "java",
    "Python" := "python",
    "Jupyter Notebook" := "python",
    "AI" := "ai",
    "TypeScript" := "other",
    "JavaScript" := "other",
    "Go" := "other",
    "Rust" := "other"
  ]

  /** `getLanguageClass`: Java is `java`, Python and notebooks are `python`, `AI` is `ai`, all else `other`. */
  function LanguageClass(language: string): (c: string)
    ensures c == "java" <==> language == "Java"
    ensures c == "python" <==> language == "Python" || language == "Jupyter Notebook"
    ensures c == "ai" <==> language == "AI"
    ensures c in {"java", "python", "ai", "other"}
  {
    if language in CARD_LANGUAGE_CLASSES then CARD_LANGUAGE_CLASSES[language] else "other"
  }

  const RISING_BADGE := "<span class=\"trend rising\">↗️ 上升中</span>"
  const FALLING_BADGE := "<span class=\"trend falling\">↘️ 下降中</span>"
  const STEADY_BADGE := "<span class=\"trend steady\">➡️ 稳定</span>"
  const HOT_BADGE := "<span class=\"trend stable\">✅ 热门</span>"

  /** `getTrendIndicator`: three named trends get their badge; every other value, `'stable'` included, the default one. */
  function TrendIndicator(trend: string): (badge: string)
    ensures badge == RISING_BADGE <==> trend == "rising"
    ensures badge == FALLING_BADGE <==> trend == "falling"
    ensures badge == STEADY_BADGE <==> trend == "steady"
    ensures badge == HOT_BADGE <==> trend !in {"rising", "falling", "steady"}
  {
    match trend
    case "rising" => RISING_BADGE
    case "falling" => FALLING_BADGE
    case "steady" => STEADY_BADGE
    case _ => HOT_BADGE
  }

  /**
   * The backend says `"stable"` where the page expects `'steady'`: a
   * backend trend is never shown with the steady badge, and a stable one
   * gets the default badge.
   */
  lemma BackendTrendBadges(velocity: int)
    ensures TrendIndicator(GitHub.CalculateTrend(velocity)) != STEADY_BADGE
    ensures 100 <= velocity <= 1000 ==> TrendIndicator(GitHub.CalculateTrend(velocity)) == HOT_BADGE
  {
  }

  // ---------------------------------------------------------------------------
  // The page state

  const UPDATE_SCHEDULE := "每周五上午10:00自动更新"

  /** The document `saveProjectsData` keeps under `latestTrendingData`. */
  datatype SavedData = SavedData(
    lastUpdated: string,
    projects: seq<DashProject>,
    totalProjects: int,
    updateSchedule: string,
    languageDistribution: map<string, nat>,
    categories: seq<string>)

  function CategoryOf(p: DashProject): string
  {
    p.category
  }

  function LanguageIs(filter: string): DashProject -> bool
  {
    (p: DashProject) => p.language == Some(filter)
  }

  class Dashboard {
    var projects: seq<DashProject>
    var currentFilter: string
    /** The `latestTrendingData` entry of `localStorage`, if one was written. */
    var savedData: Option<SavedData>

    /** A fresh page: no projects, the `'all'` filter. */
    constructor()
      ensures projects == [] && currentFilter == "all" && savedData == None
    {
      projects := [];
      currentFilter := "all";
      savedData := None;
    }

    /** A language filter button was clicked. */
    method SetFilter(language: string)
      modifies this
      ensures currentFilter == language && projects == old(projects) && savedData == old(savedData)
    {
      currentFilter := language;
    }

    /**
     * `getFilteredProjects`: every project for `'all'`; otherwise exactly the
     * projects whose language equals the filter, each as often as it occurs,
     * in their order.
     */
    function GetFilteredProjects(): (r: seq<DashProject>)
      reads this
      ensures currentFilter == "all" ==> r == projects
      ensures currentFilter != "all" ==> r == Filter(projects, LanguageIs(currentFilter))
      ensures currentFilter != "all" ==> forall p ::
        multiset(r)[p] == if p.language == Some(currentFilter) then multiset(projects)[p] else 0
    {
      if currentFilter == "all" then projects
      else
        FilterCountAll(projects, LanguageIs(currentFilter));
        Filter(projects, LanguageIs(currentFilter))
    }

    /**
     * `saveProjectsData`: the stored document counts the projects, holds
     * their language distribution and lists each of their categories once,
     * in order of first appearance.
     */
    method SaveProjectsData(newProjects: seq<DashProject>, now: string)
      modifies this
      ensures projects == old(projects) && currentFilter == old(currentFilter)
      ensures savedData.Some?
      ensures var d := savedData.value;
        && d.lastUpdated == now && d.projects == newProjects && d.totalProjects == |newProjects|
        && d.updateSchedule == UPDATE_SCHEDULE
        && d.languageDistribution == CountMap(MapSeq(newProjects, LanguageName))
        && d.categories == Distinct(MapSeq(newProjects, CategoryOf))
    {
      var distribution := CalculateLanguageDistribution(newProjects);
      var categories := Distinct(MapSeq(newProjects, CategoryOf));
      savedData := Some(SavedData(now, newProjects, |newProjects|, UPDATE_SCHEDULE, distribution, categories));
    }
  }

  /** The saved category list has no repeats and names exactly the categories of the projects. */
  lemma SavedCategories(projects: seq<DashProject>)
    ensures Unique(Distinct(MapSeq(projects, CategoryOf)))
    ensures forall c :: c in Distinct(MapSeq(projects, CategoryOf)) <==> exists i :: 0 <= i < |projects| && projects[i].category == c
  {
    var cats := MapSeq(projects, CategoryOf);
    DistinctSpec(cats);
    forall c | c in Distinct(cats)
      ensures exists i :: 0 <= i < |projects| && projects[i].category == c
    {
      var i :| 0 <= i < |cats| && cats[i] == c;
      assert projects[i].category == c;
    }
    forall c | exists i :: 0 <= i < |projects| && projects[i].category == c
      ensures c in Distinct(cats)
    {
      var i :| 0 <= i < |projects| && projects[i].category == c;
      assert cats[i] == c;
    }
  }
}
