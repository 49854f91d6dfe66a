# GitHub trending dashboard: a verified model of the aggregation pipeline

This Dafny project models the core of the GitHub trending dashboard:

- the backend pipeline:
  - search GitHub with four queries;
  - parse each repository item into a project, classifying it, assigning a star trend and generating usage steps;
  - de-duplicate by full name, rank by stars and keep the top 20;
  - save the snapshot;
  - keep a twelve-week history ledger;
  - optionally enrich a project through a chat-completion API.
- the routes that serve and refresh this data;
- the pure helpers of the two web pages (dashboard and history).

Every file of the model follows one source file:

| Dafny file | module | source |
|---|---|---|
| schemas.dfy | `Schemas` | backend/models/schemas.py |
| github.dfy | `GitHub` | backend/services/github.py |
| storage.dfy | `Storage` | backend/services/storage.py |
| ai.dfy | `AI` | backend/services/ai.py |
| history_router.dfy | `HistoryRouter` | backend/routers/history.py |
| projects_router.dfy | `ProjectsRouter` | backend/routers/projects.py |
| dashboard.dfy | `Dashboard` | web/dashboard.js |
| history_page.dfy | `HistoryPage` | web/history.js |

Four helper modules support them:

- `Base`: `Option`, `Result`, the raising `Outcome`, and the `Json` value a decoded key can hold.
- `Sequences`: filter, de-duplication, counters and sums.
- `Strings`: substring, split/join, number rendering.
- `Classify`: the ordered keyword decision table that both classifiers are shown to be.

Pure code stays functions and lemmas, as in the source:

- the parser, the classifiers, the trend rule, the prompt and response handling;
- the page lookups.

Code that mutates state stays imperative:

- `StorageService` is a class. Its two JSON files are fields, and every save replaces a whole document.
- The dashboard and the history manager are classes over their page state.
- The source's loops are `for`/`while` loops, each proved against a specification function or property:
  - the query loop;
  - the `seen`-set de-duplication;
  - the pops of `add_history_record`;
  - the route searches;
  - the statistics counters;
  - the language counters and the top-language pick.

The following become parameters:

- the clock readings (`now`, the search window's `since` date, the calendar year and the ISO week number, the date);
- the GitHub search (`search`);
- the README download;
- the chat-completion call;
- `json.loads` (`decode`).

Where the code's behaviour may surprise a reader, the model follows the code:

- A repository without the `stargazers_since_last_analytic` field gets the trend `"falling"`, not `"stable"`. The absent value counts as 0, which is below 100 (`GitHub.ParsedDerived`).
- A 403 reply skips that one query, and the remaining queries still run (`GitHub.SkippedQuery`).
- The statistics route counts a project with a `null` language or category under `None`, not under `"Unknown"`/`"Other"`. The store always writes both keys, so the route's defaults never apply.
- The backend's stable trend is `"stable"`, but the dashboard's badge switch knows `'steady'`. A stable project therefore gets the default "热门" badge (`Dashboard.BackendTrendBadges`).

## Model

| member | source | states |
|---|---|---|
| Schemas.NewProjectBase | backend/models/schemas.py:10-19 | only name, full name and url are required; description and language default to None; stars, forks and issues default to 0 and carry no sign constraint |
| Schemas.NewProjectCreate | backend/models/schemas.py:22-28 | a ProjectCreate adds no links, no category, trend "stable" and no usage steps to the base defaults |
| Schemas.NewProjectResponse | backend/models/schemas.py:31-37 | a ProjectResponse has the same extra fields and defaults as a ProjectCreate |
| Schemas.ConversionsRoundTrip | backend/models/schemas.py:22-37 | converting a ProjectCreate to a ProjectResponse and back (and the reverse) gives back the same value, with the same base part |
| Schemas.DefaultsAgree | backend/models/schemas.py:22-37 | the two project models apply identical defaults |
| Schemas.NewProjectsResponse | backend/models/schemas.py:43-47 | `last_updated` is an optional string that defaults to None |
| Schemas.NewRefreshResponse | backend/models/schemas.py:64-69 | `last_updated` of a refresh response defaults to None; the other fields are as given |
| Classify.FirstMatchIsFirst | backend/services/github.py:113-154 | in an ordered rule table the earliest matching rule decides, whatever later rules say |
| Classify.FirstMatchFallback | backend/services/github.py:154 | when no rule matches, the table answers its fallback label |
| GitHub.CategorizeIsTable | backend/services/github.py:106-154 | `_categorize` equals the first-match table AI, data analysis, web, mobile, DevOps, Python, Java, JS/TS, Go, else "通用工具"; topics are tested by list membership and the lower-cased description and name by substring |
| GitHub.NameOnlyForData | backend/services/github.py:110-124 | the repository name influences the category only through the data-analysis keywords |
| GitHub.CalculateTrend | backend/services/github.py:156-166 | "rising" iff the velocity exceeds 1000, "falling" iff it is below 100, "stable" iff it lies in 100..1000 |
| GitHub.UsageSteps | backend/services/github.py:168-205 | the steps start with the clone step for `https://github.com/{full_name}` and the enter-directory step, then the build steps for the language (generic otherwise): 5 steps for Python, 4 otherwise |
| GitHub.ParseRepository | backend/services/github.py:80-104 | an item yields a project exactly when it is parseable: non-empty `full_name`, usable url, counts and velocity |
| GitHub.ParsedIdentity | backend/services/github.py:83-92 | the name is the last `/`-segment of the full name: a `/`-free suffix of it that is either the whole full name or directly preceded by a `/`; fork and issues links are the url plus "/fork" and "/issues" |
| GitHub.ParsedFallbacks | backend/services/github.py:93-97 | a missing, null or empty description becomes "暂无描述" and language "Other", else they are kept; absent counts become 0 |
| GitHub.ParsedDerived | backend/services/github.py:98-100 | category from the raw item, trend from the velocity with an absent velocity giving "falling", steps from the raw language |
| GitHub.MinimalItemExample | backend/services/github.py:80-104 | an item with only a full name, a description, stars and an "ai" topic parses to name "widget", category AI, trend falling, language Other and 4 steps |
| GitHub.Deduplicate | backend/services/github.py:207-215 | the `seen`-set loop returns exactly the first project per full name, in order |
| GitHub.SortByStars | backend/services/github.py:76 | the sort is a permutation of its input with stars non-increasing |
| GitHub.InsertSorted | backend/services/github.py:76 | inserting one project into a star-ordered list keeps it ordered by stars, non-increasing |
| GitHub.SortStable | backend/services/github.py:76 | projects with equal stars keep their input order through the sort |
| GitHub.RankSize | backend/services/github.py:75-78 | the result has at most 20 projects, all from the input, and exactly 20 when at least 20 distinct full names were collected |
| GitHub.RankOrdered | backend/services/github.py:75-78 | full names in the result are unique and stars never increase along it |
| GitHub.RankStable | backend/services/github.py:75-78 | among equal-star projects the result keeps their order after de-duplication |
| GitHub.RankIsTop | backend/services/github.py:75-78 | no de-duplicated project left out of the result has more stars than one kept |
| GitHub.SearchQueries | backend/services/github.py:33-45 | four queries in order: the most-starred overall (`sort:stars`), then the topics data-science, machine-learning and artificial-intelligence; each restricted to repositories created after the window's start date |
| GitHub.Responses | backend/services/github.py:47-72 | the loop issues one search per query and gets one reply for each |
| GitHub.ParseItems | backend/services/github.py:59-62 | a 200 reply yields at most one project per item |
| GitHub.AppendParsed | backend/services/github.py:59-62 | the per-item loop of a 200 reply appends exactly the items that parse, in item order |
| GitHub.ParseItemsSpec | backend/services/github.py:59-62 | a project is collected from a 200 reply exactly when some item parses to it |
| GitHub.SkippedQuery | backend/services/github.py:63-72 | a 403, any other non-200 status or an exception contributes nothing, and the queries before and after still contribute |
| GitHub.FetchTrendingProjects | backend/services/github.py:28-78 | the query loop's result is the ranking of everything the 200 replies yield, in query order |
| Storage.DefaultDocument | backend/services/storage.py:105-111 | the default snapshot has no projects, a count of 0 and the current timestamp |
| Storage.StorageService.constructor | backend/services/storage.py:15-19 | a service over the two data files in their given states |
| Storage.StorageService.SaveProjects | backend/services/storage.py:26-37 | the snapshot file is replaced by a document holding the given projects in order, their count and the timestamp, which is also returned; the ledger is untouched |
| Storage.StorageService.LoadProjects | backend/services/storage.py:39-50 | the stored snapshot, or the default one (no projects, count 0) when the file is missing or unreadable |
| Storage.StorageService.GetProjects | backend/services/storage.py:52-58 | the stored projects, in stored order |
| Storage.StorageService.SaveHistory | backend/services/storage.py:60-65 | the ledger file is replaced by the given records; the snapshot is untouched |
| Storage.StorageService.LoadHistory | backend/services/storage.py:67-78 | the stored ledger, or no records when the file is missing or corrupt |
| Storage.MatchingIndices | backend/services/storage.py:85 | the positions of the records with the id: all of them, in range, ascending |
| Storage.StorageService.PopAll | backend/services/storage.py:86-87 | the pop loop pops each listed position in turn from the shrinking list, raising when a position is past its end |
| Storage.StorageService.AddHistoryRecord | backend/services/storage.py:80-95 | the saved ledger is the update as written, or the call raises "pop index out of range" and nothing is saved; with unique stored ids it saves the intended update |
| Storage.UpsertIntendedShape | backend/services/storage.py:85-93 | after the update the new record is first and is the only record with its id; the ledger holds one more record than the survivors, capped at 12; the rest is a prefix of the old records without that id, in their old order |
| Storage.UpsertIntendedUnique | backend/services/storage.py:85-93 | the update keeps record ids unique |
| Storage.UpsertIntendedDropsOldest | backend/services/storage.py:90-93 | adding a new id to a full ledger of 12 drops the oldest (last) record |
| Storage.UpsertIntendedSameWeek | backend/services/storage.py:85-93 | recording the same week twice is the same as recording only the later record |
| Storage.UpsertAgrees | backend/services/storage.py:85-93 | with at most one stored record of the id, the pops as written give exactly the intended update |
| Storage.UniqueMatchesOnce | backend/services/storage.py:85 | unique ids mean at most one matching position |
| Storage.WithoutOnlyMatch | backend/services/storage.py:86-87 | popping the only record with an id equals filtering that id out |
| Storage.NoMatchUnchanged | backend/services/storage.py:85-87 | with no record of the id there is nothing to pop and the ledger is unchanged |
| Storage.OneMatchPopped | backend/services/storage.py:85-87 | with exactly one record of the id, filtering it out equals popping its position |
| Storage.UpsertRaisesOnDuplicates | backend/services/storage.py:85-87 | as written, two stored records of the new id make the second pop raise IndexError |
| Storage.UpsertDropsWrongRecord | backend/services/storage.py:85-87 | as written, with two records of the id followed by another week, the other week is popped and an old record of the id survives |
| Storage.UpsertIntendedKeepsOtherWeek | backend/services/storage.py:85-93 | on the same ledger the intended update keeps the other week and drops both old records |
| AI.AIService.constructor | backend/services/ai.py:14-34 | each known provider fixes a default endpoint and model, an unknown one gets `https://api.example.com/v1` and "default"; an explicit endpoint overrides only the endpoint |
| AI.BuildPrompt | backend/services/ai.py:55-72 | the prompt contains the full name, the description or "暂无描述", the language, "Stars: n" and "Forks: n" |
| AI.ExtractJsonSpan | backend/services/ai.py:109-110 | a span exists iff some `{` precedes some `}`; it runs from the first `{` to the last `}` of the text |
| AI.ParseResponse | backend/services/ai.py:104-131 | only description, category and usage steps can change; each takes the decoded key's value (null clears an optional one) or keeps the original when the key is absent; no span, a failed decode or unusable values return the original |
| AI.EchoChangesNothing | backend/services/ai.py:113-127 | a reply that repeats the project's own description, category and steps changes nothing |
| AI.AIService.EnhanceProject | backend/services/ai.py:36-53 | a missing, empty or failed reply returns the project unchanged; otherwise the reply is parsed over it, which changes at most its three enrichable fields |
| HistoryRouter.FindRecord | backend/routers/history.py:34-36 | the search finds the first record with the id, or reports that no record has it |
| HistoryRouter.GetHistory | backend/routers/history.py:15-22 | the response holds the stored ledger |
| HistoryRouter.GetHistoryRecord | backend/routers/history.py:27-41 | the first record with the id, or 404 "History record {id} not found" exactly when no record has it |
| HistoryRouter.DeleteHistoryRecord | backend/routers/history.py:44-61 | 404 exactly when no record had the id, and then nothing is saved; otherwise the ledger without that id is saved |
| HistoryRouter.NotFoundIffUnchanged | backend/routers/history.py:51-54 | the length comparison detects exactly the absence of the id |
| HistoryRouter.DeleteRemovesExactly | backend/routers/history.py:51 | no record with the id survives, and every other record keeps its number of occurrences |
| HistoryRouter.DeleteKeepsOrder | backend/routers/history.py:51 | the filter distributes over concatenation, so survivors keep their relative order |
| HistoryRouter.DeleteAbsentIsIdentity | backend/routers/history.py:51-54 | filtering an absent id leaves the ledger unchanged |
| ProjectsRouter.GetProjects | backend/routers/projects.py:18-34 | every stored project as a response in stored order, their count as `total_count`, and the stored timestamp |
| ProjectsRouter.FindProject | backend/routers/projects.py:157-160 | the search finds the first project whose name or full name equals the argument, or reports that none does |
| ProjectsRouter.GetProject | backend/routers/projects.py:39-53 | the first project whose name or full name equals the argument, or 404 exactly when none does |
| ProjectsRouter.GetProjectReadme | backend/routers/projects.py:147-177 | an unknown project is a 404 and nothing is fetched; otherwise the README of the first matching project is fetched once and reported with `has_readme` |
| ProjectsRouter.WeekIdInjective | backend/routers/projects.py:95 | distinct (year, week) pairs give distinct ids "{year}-W{week}" |
| ProjectsRouter.BuildDetails | backend/routers/projects.py:76-92 | one detail object per project, in order |
| ProjectsRouter.WeeklyRecord | backend/routers/projects.py:94-100 | the record's id is "{year}-W{week}", its date the given date, and `total_projects` the number of projects and of detail entries |
| ProjectsRouter.DetailsRoundTrip | backend/routers/projects.py:76-99 | reading the record's detail objects back gives exactly the fetched projects |
| ProjectsRouter.RefreshProjects | backend/routers/projects.py:56-110 | the snapshot becomes the fetched ranking; the week's record goes through the ledger update; the reply reports success with "成功获取 N 个项目" and `projects_count` N, or is a 500 with detail "pop index out of range" when the ledger update raises (the snapshot is already saved, the ledger is not) |
| ProjectsRouter.GetStats | backend/routers/projects.py:113-142 | project count, star and fork sums, and per language and category the number of projects; each distribution's counts add up to the project count |
| Dashboard.CategoryFromRepoIsTable | web/dashboard.js:235-260 | `getCategoryFromRepo` is the first-match table AI, Web, mobile, DevOps, Java, Python, JS/TS, else '通用工具' |
| Dashboard.CategoryIgnoresName | web/dashboard.js:235-260 | the page's classifier never reads the repository name |
| Dashboard.ToDashProject | web/dashboard.js:212-231 | each item maps to a project with its name, url, stars and forks, fork and issues links derived from its url, description, language and issue-count fallbacks, the table's category, trend 'rising', and the clone step followed by the install, configure and start steps |
| Dashboard.FetchTrendingProjects | web/dashboard.js:207-231 | a non-OK status raises; otherwise at most 10 projects, the first items mapped in order |
| Dashboard.CalculateLanguageDistribution | web/dashboard.js:292-299 | the counter counts each language (missing as 'Other'), has no empty or zero entries, and its counts add up to the number of projects |
| Dashboard.LanguageClass | web/dashboard.js:308-320 | Java maps to java, Python and Jupyter Notebook to python, AI to ai, everything else to other |
| Dashboard.TrendIndicator | web/dashboard.js:600-611 | 'rising', 'falling' and 'steady' get their own badge; every other value, 'stable' included, gets the default one |
| Dashboard.BackendTrendBadges | web/dashboard.js:600-611 | no trend the backend assigns is shown with the steady badge, and a stable one gets the default badge |
| Dashboard.Dashboard.constructor | web/dashboard.js:3-5 | the page starts with no projects and the 'all' filter |
| Dashboard.Dashboard.SetFilter | web/dashboard.js:41 | a filter click changes only the current filter |
| Dashboard.Dashboard.GetFilteredProjects | web/dashboard.js:301-306 | all projects for 'all'; otherwise exactly the projects whose language equals the filter, each as often as it occurs, in order |
| Dashboard.Dashboard.SaveProjectsData | web/dashboard.js:277-289 | the saved document holds the projects, their count, the language distribution and their categories without repeats in first-appearance order |
| Dashboard.SavedCategories | web/dashboard.js:284 | the saved category list has no duplicates and names exactly the projects' categories |
| HistoryPage.TotalShown | web/history.js:66 | the shown total is `total_projects` unless absent or 0, then `totalProjects` likewise, then the list length |
| HistoryPage.TotalShownIsLength | web/history.js:66 | for a ledger record written by the backend the shown total is its number of projects |
| HistoryPage.WeeklyStarsTotal | web/history.js:89 | the star total shown for a weekly record equals the sum of the stars of its projects, as the statistics route sums them |
| HistoryPage.DetailStars | web/history.js:89 | summing stars over the stored detail objects gives the stars of the projects they were built from |
| HistoryPage.BareNamesAddNoStars | web/history.js:89 | entries that are bare names add 0 to the star total |
| HistoryPage.CountLanguages | web/history.js:136-140 | the counter holds each language's number of projects, with its keys in first-insertion order |
| HistoryPage.FirstMaximal | web/history.js:141 | the stable descending sort's first key is the first key with the largest count |
| HistoryPage.TopLanguage | web/history.js:135-142 | '-' for no projects; otherwise a language whose count is maximal, the earliest inserted on ties |
| HistoryPage.Preview | web/history.js:99-101 | the preview shows the first min(n, 5) projects |
| HistoryPage.ShortName | web/history.js:103 | a name without '/' is kept; otherwise the result is the whole name or the non-empty text between the first '/' and the next '/' or the end |
| HistoryPage.ShortNameOfFullName | web/history.js:103 | for `owner/repo`, alone or followed by more '/'-parts, the short name is `repo` and never the whole name |
| HistoryPage.DescriptionPreview | web/history.js:119 | up to 50 characters are shown as is; a longer text shows its first 50 characters followed by '...' |
| HistoryPage.TrendEmoji | web/history.js:38-41 | the four known trends have their emoji, any other value gets '•' |
| HistoryPage.BackendTrendsHaveIcons | web/history.js:38-41 | every trend the backend assigns has its own emoji on this page |
| HistoryPage.LanguageClass | web/history.js:144-151 | a listed language gets its table class, any other language 'other' |
| HistoryPage.PreviewOf | web/history.js:102-124 | the preview line uses the display name and its short name, stars or 0, and the trend emoji (default 'stable'); a non-empty description is shown cut by the description preview, and a non-empty category is shown with the colour class of the language or 'Other'; each shows exactly when non-empty |
| HistoryPage.HistoryManager.constructor | web/history.js:3-5 | the page starts with no history |
| HistoryPage.HistoryManager.LoadHistory | web/history.js:13-30 | the history is the body's `history`, or none when the key is missing or the request fails |
| HistoryPage.HistoryManager.Summaries | web/history.js:59-132 | one summary per record, in ledger order |
| HistoryPage.Summarize | web/history.js:64-101 | the summary of one record: the shown total, the star total, the top language and a preview of at most five projects |

## Left out

- HTTP is left out: GitHub search, README download, chat completion, `fetch` in the pages. Each becomes a parameter. The README's base64 decoding is left out with it.
- File and JSON I/O are left out: `json.dump`/`json.load`, `localStorage`, `_ensure_data_dir`. The files are in-memory fields.
- `json.loads` of the AI reply is left out. It is the `decode` parameter.
- The regular expression is left out. Only the span it selects is modelled.
- The clock is left out: `datetime.now`/`utcnow`, `isocalendar`, `strftime`, `new Date()`. Readings are parameters.
- The calendar is left out, so the model does not exhibit the year-boundary behaviour of the week id. The id pairs the calendar year (backend/routers/projects.py:73) with the ISO week number (backend/routers/projects.py:72), which goes wrong around New Year:
  - Monday 2025-12-29 lies in ISO week 1 of 2026 but gets the id "2025-W1". That is the id of the refresh of 2025-01-01..05, which it replaces while that record is among the 12 kept.
  - 2025-12-29 and 2026-01-01 lie in the same ISO week but get two ids, "2025-W1" and "2026-W1".
  - `ProjectsRouter.WeekIdInjective` only says that distinct (year, week) pairs give distinct ids.
- `get_last_updated` is not part of this model. It only parses a timestamp with `datetime.fromisoformat`.
- backend/routers/config.py is not part of this model. It is whole-dict CRUD over a JSON file, and it calls `AIService` with a `model` argument the constructor does not accept.
- backend/main.py is not part of this model: app wiring and static file serving.
- The scripts are not part of this model. They are demos with hard-coded data.
- backend/test_api.py is not part of this model.
- DOM rendering, event wiring, modals, timers and `alert` are left out.
- `formatNumber` is left out: it is floating-point formatting.
- The dashboard's `loadProjects`, `useDefaultData`, the API-config storage, `generateDataWithApi` and `enhanceProjectsWithAI` are left out. They are fetch/DOM/`localStorage` plumbing. The last of them only fills an empty description with a fixed text.
- `GitHubService.__init__` is left out: it only builds request headers from a token.
- Concurrency is left out. Refreshes and saves are modelled as a single sequential caller, and each save is last-writer-wins.
- Exceptions other than the modelled ones are left out, such as a failed disk write. The 500 path of the routes is modelled only for the `IndexError` of the ledger update, the one exception the modelled code can raise.
- GitHub.ParseRepository: a field holding a value of another JSON type makes the item unparseable. Pydantic would coerce some such values, such as a numeric string for a count. A string `topics` would be tested by substring rather than by membership.
- ProjectsRouter.GetStats: the stored documents always carry `language` and `category`, so a `null` value is counted under `None`. The route's `"Unknown"`/`"Other"` defaults for a missing key are not modelled. Neither is a hand-edited file with missing keys.
- ProjectsRouter.GetProjects: the stored document always has its three keys and well-formed items. The route's `.get` defaults for a hand-edited file are not modelled.
- Strings.ToLower: lower-casing is ASCII only. Python's `str.lower` and JavaScript's `toLowerCase` also fold non-ASCII letters. The keywords are ASCII, so this can only matter through such letters.
- HistoryPage.DescriptionPreview: lengths count Unicode scalar values. JavaScript counts UTF-16 code units, so text outside the Basic Multilingual Plane is cut at a different place.
- HistoryPage.TopLanguage: it assumes that object keys keep insertion order. JavaScript lists integer-like keys (a language named "123") first, in numeric order.
- Dashboard.CalculateLanguageDistribution: a language named like an inherited object property (`constructor`, `__proto__`) is counted like any other key. JavaScript would read the inherited value. The same holds for HistoryPage.CountLanguages and both `getLanguageClass` lookups.
- Python and JavaScript default arguments are written out at the call sites: `days=7`, `per_page=10`, the provider `"qwen"`. The window's start date is a parameter.

## Findings

| source | as written | input that shows it | evidently intended | confidence | as-written member | corrected member |
|---|---|---|---|---|---|---|
| backend/services/storage.py:85-87 | the indices of all records with the new record's id are collected, then popped in ascending order from the list that shrinks with each pop | a stored ledger with two records of id "2026-W10": the second pop is past the end and raises IndexError, so the refresh answers 500. With a third record of another week after them, that record is popped instead and an old "2026-W10" survives beside the new one | remove every record with the new record's id, then insert the new one at the head and keep 12 | not executed | Storage.Upsert (Storage.UpsertRaisesOnDuplicates, Storage.UpsertDropsWrongRecord) | Storage.UpsertIntended (Storage.UpsertIntendedShape, Storage.UpsertIntendedKeepsOtherWeek) |
