/**
 * backend/routers/projects.py: the `/api/projects` routes over a
 * `StorageService`. The GitHub search is the parameter `search`, the README
 * download the parameter `fetchReadme`, and the clock readings (the search
 * window's start date, the calendar year and the ISO week number, the date
 * and the timestamp) are parameters too.
 */
module ProjectsRouter {
  import opened Base
  import opened Strings
  import opened Sequences
  import opened Schemas
  import opened Storage
  import opened GitHub

  // ---------------------------------------------------------------------------
  // get_projects

  /** `get_projects`: every stored project as a `ProjectResponse`, in stored order, with their count. */
  method GetProjects(store: StorageService, now: string) returns (response: ProjectsResponse)
    ensures var data := LoadedProjects(store.projectsFile, now);
      && response.last_updated == Some(data.last_updated)
      && response.total_count == |data.projects|
      && |response.projects| == |data.projects|
      && forall i :: 0 <= i < |data.projects| ==> ToCreate(response.projects[i]) == data.projects[i]
  {
    var data := store.LoadProjects(now);
    var projects: seq<ProjectResponse> := [];
    for i := 0 to |data.projects|
      invariant |projects| == i
      invariant forall j :: 0 <= j < i ==> ToCreate(projects[j]) == data.projects[j]
    {
      // ProjectResponse(**item): the stored item carries every field of a response
      ConversionsRoundTrip(data.projects[i], ToResponse(data.projects[i]));
      projects := projects + [ToResponse(data.projects[i])];
    }
    response := ProjectsResponse(Some(data.last_updated), projects, |projects|);
  }

  // ---------------------------------------------------------------------------
  // get_project and the lookup of get_project_readme

  /** The test both routes apply: the project's short name or full name equals the argument. */
  predicate Named(p: ProjectCreate, name: string)
  {
    p.name == name || p.full_name == name
  }

  /** `k` is the position of the first project answering to `name`. */
  predicate FirstNamed(projects: seq<ProjectCreate>, name: string, k: int)
  {
    && 0 <= k < |projects|
    && Named(projects[k], name)
    && forall j :: 0 <= j < k ==> !Named(projects[j], name)
  }

  /** The search loop: the first project answering to `name`, if any. */
  method FindProject(projects: seq<ProjectCreate>, name: string) returns (found: Option<ProjectCreate>)
    ensures found.None? <==> forall k :: 0 <= k < |projects| ==> !Named(projects[k], name)
    ensures found.Some? ==> exists k :: FirstNamed(projects, name, k) && projects[k] == found.value
  {
    found := None;
    var i := 0;
    while i < |projects|
      invariant 0 <= i <= |projects|
      invariant forall j :: 0 <= j < i ==> !Named(projects[j], name)
    {
      if Named(projects[i], name) {
        assert FirstNamed(projects, name, i);
        found := Some(projects[i]);
        break;
      }
      i := i + 1;
    }
  }

  /** `get_project`: the first project answering to the name, or 404. */
  method GetProject(store: StorageService, now: string, name: string) returns (r: Result<ProjectResponse, HttpException>)
    ensures var ps := LoadedProjects(store.projectsFile, now).projects;
      r.Err? <==> forall k :: 0 <= k < |ps| ==> !Named(ps[k], name)
    ensures r.Err? ==> r.error == HttpException(404, "Project " + name + " not found")
    ensures var ps := LoadedProjects(store.projectsFile, now).projects;
      r.Ok? ==> exists k :: FirstNamed(ps, name, k) && ToCreate(r.value) == ps[k]
  {
    var projects := store.GetProjects(now);
    var found := FindProject(projects, name);
    if found.None? {
      return Err(HttpException(404, "Project " + name + " not found"));
    }
    ConversionsRoundTrip(found.value, ToResponse(found.value));
    return Ok(ToResponse(found.value));
  }

  /** The body of a successful `get_project_readme`. */
  datatype ReadmeReply = ReadmeReply(project: string, full_name: string, readme: Option<string>, has_readme: bool)

  /**
   * `get_project_readme`: an unknown project is a 404 before any download;
   * otherwise the README of the first project answering to the name is
   * fetched once. `fetched` lists the full names whose README was requested.
   */
  method GetProjectReadme(store: StorageService, now: string, name: string, fetchReadme: string -> Option<string>)
    returns (r: Result<ReadmeReply, HttpException>, fetched: seq<string>)
    ensures var ps := LoadedProjects(store.projectsFile, now).projects;
      r.Err? <==> forall k :: 0 <= k < |ps| ==> !Named(ps[k], name)
    ensures r.Err? ==> r.error == HttpException(404, "Project " + name + " not found") && fetched == []
    ensures var ps := LoadedProjects(store.projectsFile, now).projects;
      r.Ok? ==> exists k :: (FirstNamed(ps, name, k) && fetched == [ps[k].full_name]
        && r.value == ReadmeReply(name, ps[k].full_name, fetchReadme(ps[k].full_name), fetchReadme(ps[k].full_name).Some?))
  {
    fetched := [];
    var projects := store.GetProjects(now);
    var project := FindProject(projects, name);
    if project.None? {
      return Err(HttpException(404, "Project " + name + " not found")), fetched;
    }
    var fullName := project.value.full_name;
    var content := fetchReadme(fullName);
    fetched := fetched + [fullName];
    r := Ok(ReadmeReply(name, fullName, content, content.Some?));
  }

  // ---------------------------------------------------------------------------
  // refresh_projects

  const SEARCH_PER_PAGE := 10

  /** `f"{year}-W{week_num}"`: the ledger id, from the calendar year and the ISO week number. */
  function WeekId(year: int, week: int): string
  {
    IntToString(year) + "-W" + IntToString(week)
  }

  /** `f"{year}年{week_num}月第{week_num}周"`: the display label, which repeats the week number. */
  function WeekLabel(year: int, week: int): string
  {
    IntToString(year) + "年" + IntToString(week) + "月第" + IntToString(week) + "周"
  }

  /**
   * Distinct (year, week number) pairs get distinct ledger ids. Around New
   * Year the calendar year and the ISO week can name different weeks, so
   * this does not separate every pair of ISO weeks.
   */
  lemma WeekIdInjective(y1: nat, w1: nat, y2: nat, w2: nat)
    requires WeekId(y1, w1) == WeekId(y2, w2)
    ensures y1 == y2 && w1 == w2
  {
    var a1, b1 := NatToString(y1) + "-", NatToString(w1);
    var a2, b2 := NatToString(y2) + "-", NatToString(w2);
    assert 'W' !in a1 && 'W' !in a2;
    assert WeekId(y1, w1) == a1 + ['W'] + b1;
    assert WeekId(y2, w2) == a2 + ['W'] + b2;
    IndexOfJoin(a1, 'W', b1);
    IndexOfJoin(a2, 'W', b2);
    assert |a1| == |a2|;
    assert (a1 + ['W'] + b1)[..|a1| - 1] == NatToString(y1);
    assert (a2 + ['W'] + b2)[..|a2| - 1] == NatToString(y2);
    assert (a1 + ['W'] + b1)[|a1| + 1..] == b1;
    assert (a2 + ['W'] + b2)[|a2| + 1..] == b2;
    NatToStringInjective(y1, y2);
    NatToStringInjective(w1, w2);
  }

  /** The detail object stored for one project: the same thirteen field values. */
  function DetailOf(p: ProjectCreate): HistoryItem
  {
    ProjectDetail(p)
  }

  /** The projects a record's item list describes in full, in order. */
  function StoredProjects(items: seq<HistoryItem>): seq<ProjectCreate>
  {
    if items == [] then []
    else
      var last := items[|items| - 1];
      StoredProjects(items[..|items| - 1]) + (if last.ProjectDetail? then [last.detail] else [])
  }

  /** The loop of `refresh_projects` that builds `projects_detail`: one detail object per project. */
  method BuildDetails(projects: seq<ProjectCreate>) returns (details: seq<HistoryItem>)
    ensures details == MapSeq(projects, DetailOf)
  {
    details := [];
    for i := 0 to |projects|
      invariant details == MapSeq(projects[..i], DetailOf)
    {
      details := details + [DetailOf(projects[i])];
    }
    assert projects[..|projects|] == projects;
  }

  /** The weekly record `refresh_projects` adds to the ledger. */
  function WeeklyRecord(projects: seq<ProjectCreate>, year: int, week: int, date: string): (record: HistoryRecord)
    ensures record.id == WeekId(year, week) && record.date == date
    ensures record.total_projects == |projects| == |record.projects|
  {
    HistoryRecord(WeekId(year, week), WeekLabel(year, week), date, |projects|, MapSeq(projects, DetailOf))
  }

  /** The record embeds the fetched projects themselves: reading its details back gives the list. */
  lemma {:induction false} DetailsRoundTrip(projects: seq<ProjectCreate>)
    ensures StoredProjects(MapSeq(projects, DetailOf)) == projects
  {
    if projects != [] {
      var init := projects[..|projects| - 1];
      DetailsRoundTrip(init);
      assert MapSeq(projects, DetailOf)[..|projects| - 1] == MapSeq(init, DetailOf);
      assert projects == init + [projects[|projects| - 1]];
    }
  }

  /**
   * `refresh_projects`: fetch the top projects of the window, save the
   * snapshot, add this week's record to the ledger and report the count. A
   * failing ledger update is a 500, after the snapshot was already saved.
   */
  method RefreshProjects(store: StorageService, since: string, search: (string, int) -> SearchResponse,
                         year: int, week: int, date: string, now: string)
    returns (r: Result<RefreshResponse, HttpException>)
    modifies store
    ensures var top := Rank(Collect(Responses(SearchQueries(since), SEARCH_PER_PAGE, search)));
      store.projectsFile == Written(ProjectsDocument(now, top, |top|))
    ensures var top := Rank(Collect(Responses(SearchQueries(since), SEARCH_PER_PAGE, search)));
      var h := LoadedHistory(old(store.historyFile));
      var updated := Upsert(h, WeeklyRecord(top, year, week, date));
      && (r.Ok? <==> updated.Some?)
      && (r.Ok? ==> (store.historyFile == Written(updated.value)
            && r.value == RefreshResponse(true, "成功获取 " + IntToString(|top|) + " 个项目", Some(now), |top|)))
      && (r.Err? ==> r.error == HttpException(500, POP_OUT_OF_RANGE) && store.historyFile == old(store.historyFile))
    ensures var top := Rank(Collect(Responses(SearchQueries(since), SEARCH_PER_PAGE, search)));
      var h := LoadedHistory(old(store.historyFile));
      UniqueIds(h) ==> r.Ok? && store.historyFile == Written(UpsertIntended(h, WeeklyRecord(top, year, week, date)))
  {
    var projects := FetchTrendingProjects(since, SEARCH_PER_PAGE, search);
    var saved := store.SaveProjects(projects, now);
    var details := BuildDetails(projects);
    var record := HistoryRecord(WeekId(year, week), WeekLabel(year, week), date, |projects|, details);
    assert record == WeeklyRecord(projects, year, week, date);
    var outcome := store.AddHistoryRecord(record);
    if outcome.Raised? {
      return Err(HttpException(500, outcome.reason));
    }
    r := Ok(RefreshResponse(true, "成功获取 " + IntToString(|projects|) + " 个项目", Some(saved.last_updated), |projects|));
  }

  // ---------------------------------------------------------------------------
  // get_stats

  /** The body of `get_stats`. A stored project always carries its keys, so a null language or category is counted under `None`. */
  datatype Stats = Stats(
    total_projects: int,
    total_stars: int,
    total_forks: int,
    language_distribution: map<Option<string>, nat>,
    category_distribution: map<Option<string>, nat>)

  function LanguageKey(p: ProjectCreate): Option<string> { p.language }
  function CategoryKey(p: ProjectCreate): Option<string> { p.category }
  function StarsOf(p: ProjectCreate): int { p.stars }
  function ForksOf(p: ProjectCreate): int { p.forks }

  /**
   * `get_stats`: the number of stored projects, the sums of their stars and
   * forks, and per language and per category the number of projects; each
   * distribution's counts add up to the number of projects.
   */
  method GetStats(store: StorageService, now: string) returns (stats: Stats)
    ensures var ps := LoadedProjects(store.projectsFile, now).projects;
      && stats.total_projects == |ps|
      && stats.total_stars == SumBy(ps, StarsOf)
      && stats.total_forks == SumBy(ps, ForksOf)
      && stats.language_distribution == CountMap(MapSeq(ps, LanguageKey))
      && stats.category_distribution == CountMap(MapSeq(ps, CategoryKey))
    ensures var ps := LoadedProjects(store.projectsFile, now).projects;
      var langs := MapSeq(ps, LanguageKey);
      var cats := MapSeq(ps, CategoryKey);
      && (forall k :: k in Distinct(langs) ==> k in stats.language_distribution)
      && SumValues(Distinct(langs), stats.language_distribution) == stats.total_projects
      && (forall k :: k in Distinct(cats) ==> k in stats.category_distribution)
      && SumValues(Distinct(cats), stats.category_distribution) == stats.total_projects
  {
    var data := store.LoadProjects(now);
    var projects := data.projects;
    var languages: map<Option<string>, nat> := map[];
    var categories: map<Option<string>, nat> := map[];
    var totalStars := 0;
    var totalForks := 0;
    for i := 0 to |projects|
      invariant languages == CountMap(MapSeq(projects[..i], LanguageKey))
      invariant categories == CountMap(MapSeq(projects[..i], CategoryKey))
      invariant totalStars == SumBy(projects[..i], StarsOf)
      invariant totalForks == SumBy(projects[..i], ForksOf)
    {
      var p := projects[i];
      assert projects[..i + 1] == projects[..i] + [p];
      assert MapSeq(projects[..i + 1], LanguageKey) == MapSeq(projects[..i], LanguageKey) + [p.language];
      assert MapSeq(projects[..i + 1], CategoryKey) == MapSeq(projects[..i], CategoryKey) + [p.category];
      BumpCounts(MapSeq(projects[..i], LanguageKey), p.language);
      BumpCounts(MapSeq(projects[..i], CategoryKey), p.category);
      languages := Bump(languages, p.language);
      categories := Bump(categories, p.category);
      totalStars := totalStars + p.stars;
      totalForks := totalForks + p.forks;
    }
    assert projects[..|projects|] == projects;
    CountsSumToLength(MapSeq(projects, LanguageKey));
    CountsSumToLength(MapSeq(projects, CategoryKey));
    stats := Stats(|projects|, totalStars, totalForks, languages, categories);
  }
}
