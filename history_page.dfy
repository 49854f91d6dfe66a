/**
 * web/history.js: what the history page derives from each ledger record it
 * receives from `/api/history/` — the project total, the sum of stars, the
 * most common language, and a preview of the first five projects — and its
 * emoji and colour lookups. Rendering into the DOM is not modelled.
 */
module HistoryPage {
  import opened Base
  import opened Strings
  import opened Sequences
  import opened Schemas
  import GitHub
  import opened ProjectsRouter

  /**
   * A project entry as the page reads it: every field may be absent, since a
   * ledger entry is either a bare name (a JSON string, whose fields are all
   * `undefined`) or a full detail object.
   */
  datatype PageProject = PageProject(
    full_name: Option<string>,
    name: Option<string>,
    stars: Option<int>,
    language: Option<string>,
    trend: Option<string>,
    description: Option<string>,
    category: Option<string>)

  /** The page's view of one item of `HistoryRecord.projects`. */
  function ItemView(item: HistoryItem): PageProject
  {
    match item
    case ProjectName(_) => PageProject(None, None, None, None, None, None, None)
    case ProjectDetail(d) => PageProject(Some(d.full_name), Some(d.name), Some(d.stars), d.language,
      Some(d.trend), d.description, d.category)
  }

  // ---------------------------------------------------------------------------
  // Totals

  /**
   * `record.total_projects || record.totalProjects || projects.length`: the
   * first of the two counts that is present and not 0, else the list length.
   */
  function TotalShown(total_projects: Option<int>, totalProjects: Option<int>, count: nat): (total: int)
    ensures total_projects.Some? && total_projects.value != 0 ==> total == total_projects.value
    ensures !(total_projects.Some? && total_projects.value != 0) && totalProjects.Some? && totalProjects.value != 0
      ==> total == totalProjects.value
    ensures !(total_projects.Some? && total_projects.value != 0) && !(totalProjects.Some? && totalProjects.value != 0)
      ==> total == count
  {
    if total_projects.Some? && total_projects.value != 0 then total_projects.value
    else if totalProjects.Some? && totalProjects.value != 0 then totalProjects.value
    else count
  }

  /** For a record whose `total_projects` is its list length, as the backend writes it, the page shows that length. */
  lemma TotalShownIsLength(record: HistoryRecord)
    requires record.total_projects == |record.projects|
    ensures TotalShown(Some(record.total_projects), None, |record.projects|) == |record.projects|
  {
  }

  /** `p.stars || 0`. */
  function StarsOrZero(p: PageProject): int
  {
    if p.stars.Some? then p.stars.value else 0
  }

  /** `projects.reduce((sum, p) => sum + (p.stars || 0), 0)`. */
  function StarsTotal(projects: seq<PageProject>): int
  {
    SumBy(projects, StarsOrZero)
  }

  /**
   * The star total the page shows for a weekly record written by
   * `refresh_projects` equals the sum of the stars of the fetched projects,
   * the `total_stars` the statistics route reports for the same list.
   */
  lemma WeeklyStarsTotal(projects: seq<ProjectCreate>, year: int, week: int, date: string)
    ensures StarsTotal(MapSeq(WeeklyRecord(projects, year, week, date).projects, ItemView)) == SumBy(projects, StarsOf)
  {
    DetailStars(projects);
  }

  lemma {:induction false} DetailStars(projects: seq<ProjectCreate>)
    ensures SumBy(MapSeq(MapSeq(projects, DetailOf), ItemView), StarsOrZero) == SumBy(projects, StarsOf)
  {
    if projects != [] {
      var init := projects[..|projects| - 1];
      var views := MapSeq(MapSeq(projects, DetailOf), ItemView);
      assert views[..|views| - 1] == MapSeq(MapSeq(init, DetailOf), ItemView);
      DetailStars(init);
    }
  }

  /** A ledger entry that is a bare name. */
  function NameItem(name: string): HistoryItem
  {
    ProjectName(name)
  }

  /** Bare names add nothing to the star total: `undefined || 0`. */
  lemma {:induction false} BareNamesAddNoStars(names: seq<string>)
    ensures StarsTotal(MapSeq(MapSeq(names, NameItem), ItemView)) == 0
  {
    if names != [] {
      var init := names[..|names| - 1];
      var views := MapSeq(MapSeq(names, NameItem), ItemView);
      assert views[..|views| - 1] == MapSeq(MapSeq(init, NameItem), ItemView);
      BareNamesAddNoStars(init);
    }
  }

  // ---------------------------------------------------------------------------
  // getTopLanguage

  /** `p.language || 'Other'`. */
  function LanguageOf(p: PageProject): string
  {
    OrText(p.language, "Other")
  }

  /**
   * What `getTopLanguage` answers: `'-'` for no projects; otherwise, among the
   * languages in order of first appearance (the key order of the counter
   * object), the first whose count is maximal.
   */
  predicate IsTopLanguage(projects: seq<PageProject>, top: string)
  {
    var langs := MapSeq(projects, LanguageOf);
    var order := Distinct(langs);
    if projects == [] then top == "-"
    else exists t :: (0 <= t < |order| && order[t] == top
      && (forall m :: 0 <= m < |order| ==> multiset(langs)[order[m]] <= multiset(langs)[top])
      && (forall m :: 0 <= m < t ==> multiset(langs)[order[m]] < multiset(langs)[top]))
  }

  /** The counting loop of `getTopLanguage`: the counter object and its keys in insertion order. */
  method CountLanguages(projects: seq<PageProject>) returns (langs: map<string, nat>, order: seq<string>)
    ensures langs == CountMap(MapSeq(projects, LanguageOf))
    ensures order == Distinct(MapSeq(projects, LanguageOf))
  {
    langs := map[];
    order := [];
    for i := 0 to |projects|
      invariant langs == CountMap(MapSeq(projects[..i], LanguageOf))
      invariant order == Distinct(MapSeq(projects[..i], LanguageOf))
    {
      var lang := LanguageOf(projects[i]);
      var seen := MapSeq(projects[..i], LanguageOf);
      assert MapSeq(projects[..i + 1], LanguageOf) == seen + [lang];
      BumpCounts(seen, lang);
      DistinctAppend(seen, lang);
      if lang !in langs {
        order := order + [lang];
      }
      langs := Bump(langs, lang);
    }
    assert projects[..|projects|] == projects;
  }

  /** The stable descending sort followed by `[0]`: the position of the first key with the largest count. */
  method FirstMaximal(order: seq<string>, counts: map<string, nat>) returns (t: nat)
    requires |order| > 0
    requires forall m :: 0 <= m < |order| ==> order[m] in counts
    ensures t < |order|
    ensures forall m :: 0 <= m < |order| ==> counts[order[m]] <= counts[order[t]]
    ensures forall m :: 0 <= m < t ==> counts[order[m]] < counts[order[t]]
  {
    t := 0;
    for j := 1 to |order|
      invariant 0 <= t < j
      invariant forall m :: 0 <= m < j ==> counts[order[m]] <= counts[order[t]]
      invariant forall m :: 0 <= m < t ==> counts[order[m]] < counts[order[t]]
    {
      if counts[order[j]] > counts[order[t]] {
        t := j;
      }
    }
  }

  /**
   * `getTopLanguage`: count per language in a counter object, sort its keys by
   * count, descending and stably, and take the first key, or `'-'`.
   */
  method TopLanguage(projects: seq<PageProject>) returns (top: string)
    ensures IsTopLanguage(projects, top)
    ensures projects != [] ==> forall i :: 0 <= i < |projects| ==>
      multiset(MapSeq(projects, LanguageOf))[LanguageOf(projects[i])] <= multiset(MapSeq(projects, LanguageOf))[top]
  {
    var langs, order := CountLanguages(projects);
    var all := MapSeq(projects, LanguageOf);
    DistinctSpec(all);
    if projects == [] {
      return "-";
    }
    assert all[0] in order;
    var t := FirstMaximal(order, langs);
    top := order[t];
    assert forall m :: 0 <= m < |order| ==> langs[order[m]] == multiset(all)[order[m]];
    forall i | 0 <= i < |projects|
      ensures multiset(all)[LanguageOf(projects[i])] <= multiset(all)[top]
    {
      assert all[i] in order;
    }
  }

  // ---------------------------------------------------------------------------
  // The preview of the first five projects

  const PREVIEW_SIZE := 5
  const UNKNOWN_PROJECT := "未知项目"
  const DESCRIPTION_PREVIEW := 50

  /** `projects.slice(0, 5)`: the first `Math.min(projects.length, 5)` projects. */
  function Preview(projects: seq<PageProject>): (shown: seq<PageProject>)
    ensures |shown| == if |projects| < PREVIEW_SIZE then |projects| else PREVIEW_SIZE
    ensures shown == projects[..|shown|]
  {
    Take(projects, PREVIEW_SIZE)
  }

  /** `project.full_name || project.name || '未知项目'`. */
  function DisplayName(p: PageProject): string
  {
    OrText(p.full_name, OrText(p.name, UNKNOWN_PROJECT))
  }

  /** `name.split('/')[1] || name`: the second `/`-segment when there is a non-empty one, else the whole name. */
  function ShortName(name: string): (short: string)
    ensures '/' !in name ==> short == name
    ensures short == name || (short != "" && '/' !in short)
    ensures short == name || SecondPart(name, '/', short)
  {
    var parts := Split(name, '/');
    if |parts| >= 2 && parts[1] != "" then SplitSecondPart(name, '/'); parts[1] else name
  }

  /**
   * For `owner/repo`, possibly followed by further `/`-parts, the short name
   * is `repo`, never the whole name.
   */
  lemma ShortNameOfFullName(owner: string, repo: string, rest: string)
    requires '/' !in owner && '/' !in repo && repo != "" && (rest == [] || rest[0] == '/')
    ensures ShortName(owner + "/" + repo + rest) == repo
    ensures ShortName(owner + "/" + repo + rest) != owner + "/" + repo + rest
  {
    SplitSecond(owner, repo, rest, '/');
  }

  /** `description.substring(0, 50) + (description.length > 50 ? '...' : '')`. */
  function DescriptionPreview(description: string): (shown: string)
    ensures |description| <= DESCRIPTION_PREVIEW ==> shown == description
    ensures |description| > DESCRIPTION_PREVIEW ==>
      |shown| == DESCRIPTION_PREVIEW + 3 && shown[..DESCRIPTION_PREVIEW] == description[..DESCRIPTION_PREVIEW]
      && shown[DESCRIPTION_PREVIEW..] == "..."
  {
    if |description| > DESCRIPTION_PREVIEW then description[..DESCRIPTION_PREVIEW] + "..." else description
  }

  /** The emoji table of `getTrendEmoji`. */
  const TREND_ICONS: map<string, string> := map[
    "rising" := "↗️",
    "falling" := "↘️",
    "steady" := "➡️",
    "stable" := "✅"
  ]
  const DEFAULT_ICON := "•"

  /** `getTrendEmoji`: the four known trends have their emoji, anything else gets `'•'`. */
  function TrendEmoji(trend: string): (icon: string)
    ensures trend in TREND_ICONS ==> icon == TREND_ICONS[trend]
    ensures trend !in TREND_ICONS ==> icon == DEFAULT_ICON
    ensures icon == DEFAULT_ICON <==> trend !in TREND_ICONS
  {
    if trend in TREND_ICONS then TREND_ICONS[trend] else DEFAULT_ICON
  }

  /** Every trend the backend assigns has its own emoji on this page. */
  lemma BackendTrendsHaveIcons(velocity: int)
    ensures TrendEmoji(GitHub.CalculateTrend(velocity)) != DEFAULT_ICON
  {
  }

  /** The colour class table of the history page. */
  const HISTORY_LANGUAGE_CLASSES: map<string, string> := map[
    "Java" := "java",
    "Python" := "python",
    "TypeScript" := "typescript",
    "JavaScript" := "javascript",
    "Go" := "go",
    "Rust" := "rust",
    "C++" := "cpp",
    "C" := "c",
    "Shell" := "other"
  ]

  /** `getLanguageClass`: the table's class for a listed language, `'other'` for any other. */
  function LanguageClass(language: string): (c: string)
    ensures language !in HISTORY_LANGUAGE_CLASSES ==> c == "other"
    ensures c != "other" ==> language in HISTORY_LANGUAGE_CLASSES && HISTORY_LANGUAGE_CLASSES[language] == c
  {
    if language in HISTORY_LANGUAGE_CLASSES then HISTORY_LANGUAGE_CLASSES[language] else "other"
  }

  /** One line of the preview as the page renders it. */
  datatype PreviewItem = PreviewItem(
    name: string,
    shortName: string,
    stars: int,
    icon: string,
    /** The shortened description, when the project has a non-empty one. */
    descriptionLine: Option<string>,
    /** The colour class and the category, when the project has a non-empty category. */
    categoryTag: Option<(string, string)>)

  /** The preview line of one project. */
  function PreviewOf(p: PageProject): (item: PreviewItem)
    ensures item.name == DisplayName(p) && item.shortName == ShortName(DisplayName(p))
    ensures item.stars == StarsOrZero(p) && item.icon == TrendEmoji(OrText(p.trend, "stable"))
    ensures item.descriptionLine.Some? <==> p.description.Some? && p.description.value != ""
    ensures item.categoryTag.Some? <==> p.category.Some? && p.category.value != ""
    ensures item.descriptionLine.Some? ==> item.descriptionLine.value == DescriptionPreview(p.description.value)
    ensures item.categoryTag.Some? ==>
      item.categoryTag.value == (LanguageClass(OrText(p.language, "Other")), p.category.value)
  {
    var name := DisplayName(p);
    var description := OrText(p.description, "");
    var category := OrText(p.category, "");
    PreviewItem(
      name,
      ShortName(name),
      StarsOrZero(p),
      TrendEmoji(OrText(p.trend, "stable")),
      if description != "" then Some(DescriptionPreview(description)) else None,
      if category != "" then Some((LanguageClass(OrText(p.language, "Other")), category)) else None)
  }

  // ---------------------------------------------------------------------------
  // The page state

  /** What the page computes for one record of the ledger. */
  datatype RecordSummary = RecordSummary(
    id: string,
    /** `record.week || record.date || record.displayDate`; ledger records carry no `displayDate`. */
    displayDate: Option<string>,
    total: int,
    stars: int,
    topLanguage: string,
    previewCount: nat,
    preview: seq<PreviewItem>)

  /** The reply of `fetch('/api/history/')`: a body, whose `history` may be missing, or a failure. */
  datatype HistoryReply = Body(history: Option<seq<HistoryRecord>>) | Failure

  class HistoryManager {
    var historyData: seq<HistoryRecord>

    constructor()
      ensures historyData == []
    {
      historyData := [];
    }

    /** `loadHistory`: the ledger from the body, none when the key is missing or the request fails. */
    method LoadHistory(reply: HistoryReply)
      modifies this
      ensures historyData == if reply.Body? && reply.history.Some? then reply.history.value else []
    {
      match reply {
        case Body(history) => historyData := if history.Some? then history.value else [];
        case Failure => historyData := [];
      }
    }

    /** The per-record part of `renderHistory`, for each record in ledger order. */
    method Summaries() returns (summaries: seq<RecordSummary>)
      ensures |summaries| == |historyData|
      ensures forall i :: 0 <= i < |historyData| ==> SummaryOf(historyData[i], summaries[i])
    {
      summaries := [];
      for i := 0 to |historyData|
        invariant |summaries| == i
        invariant forall j :: 0 <= j < i ==> SummaryOf(historyData[j], summaries[j])
      {
        var s := Summarize(historyData[i]);
        summaries := summaries + [s];
      }
    }
  }

  /** `s` is what the page shows for `record`. */
  predicate SummaryOf(record: HistoryRecord, s: RecordSummary)
  {
    var projects := MapSeq(record.projects, ItemView);
    && s.id == record.id
    && s.displayDate == (if record.week != "" then Some(record.week) else if record.date != "" then Some(record.date) else None)
    && s.total == TotalShown(Some(record.total_projects), None, |projects|)
    && s.stars == StarsTotal(projects)
    && IsTopLanguage(projects, s.topLanguage)
    && s.previewCount == |Preview(projects)|
    && s.preview == MapSeq(Preview(projects), PreviewOf)
  }

  /** The derivations of one record: total, stars, top language and the preview of at most five. */
  method Summarize(record: HistoryRecord) returns (s: RecordSummary)
    ensures SummaryOf(record, s)
    ensures s.previewCount <= PREVIEW_SIZE && |s.preview| == s.previewCount
  {
    var projects := MapSeq(record.projects, ItemView);
    var top := TopLanguage(projects);
    var shown := Preview(projects);
    s := RecordSummary(
      record.id,
      if record.week != "" then Some(record.week) else if record.date != "" then Some(record.date) else None,
      TotalShown(Some(record.total_projects), None, |projects|),
      StarsTotal(projects),
      top,
      |shown|,
      MapSeq(shown, PreviewOf));
  }
}
