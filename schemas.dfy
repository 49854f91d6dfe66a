/**
 * The record types of backend/models/schemas.py with their default values.
 * Field names follow the JSON documents the backend reads and writes.
 */
module Schemas {
  import opened Base

  /** `ProjectBase`: identity, links and metrics. Metrics carry no sign constraint. */
  datatype ProjectBase = ProjectBase(
    name: string,
    full_name: string,
    url: string,
    description: Option<string>,
    language: Option<string>,
    stars: int,
    forks: int,
    issues: int)

  /** `ProjectCreate`: a `ProjectBase` plus the derived fields the classifier fills in. */
  datatype ProjectCreate = ProjectCreate(
    name: string,
    full_name: string,
    url: string,
    description: Option<string>,
    language: Option<string>,
    stars: int,
    forks: int,
    issues: int,
    fork_url: Option<string>,
    issues_url: Option<string>,
    category: Option<string>,
    trend: string,
    usage_steps: seq<string>)

  /** `ProjectResponse`: the same fields as `ProjectCreate`, as served by the API. */
  datatype ProjectResponse = ProjectResponse(
    name: string,
    full_name: string,
    url: string,
    description: Option<string>,
    language: Option<string>,
    stars: int,
    forks: int,
    issues: int,
    fork_url: Option<string>,
    issues_url: Option<string>,
    category: Option<string>,
    trend: string,
    usage_steps: seq<string>)

  const DEFAULT_TREND := "stable"

  /** `ProjectBase(name=..., full_name=..., url=...)`: every optional field left at its default. */
  function NewProjectBase(name: string, full_name: string, url: string): (p: ProjectBase)
    ensures p.name == name && p.full_name == full_name && p.url == url
    ensures p.description == None && p.language == None
    ensures p.stars == 0 && p.forks == 0 && p.issues == 0
  {
    ProjectBase(name, full_name, url, None, None, 0, 0, 0)
  }

  /** The `ProjectBase` part of a `ProjectCreate`. */
  function BaseOf(p: ProjectCreate): ProjectBase
  {
    ProjectBase(p.name, p.full_name, p.url, p.description, p.language, p.stars, p.forks, p.issues)
  }

  /** The `ProjectBase` part of a `ProjectResponse`. */
  function ResponseBaseOf(p: ProjectResponse): ProjectBase
  {
    ProjectBase(p.name, p.full_name, p.url, p.description, p.language, p.stars, p.forks, p.issues)
  }

  /** `ProjectCreate(name=..., full_name=..., url=...)`: base defaults plus no links, no category, trend "stable", no steps. */
  function NewProjectCreate(name: string, full_name: string, url: string): (p: ProjectCreate)
    ensures BaseOf(p) == NewProjectBase(name, full_name, url)
    ensures p.fork_url == None && p.issues_url == None && p.category == None
    ensures p.trend == DEFAULT_TREND && p.usage_steps == []
  {
    ProjectCreate(name, full_name, url, None, None, 0, 0, 0, None, None, None, DEFAULT_TREND, [])
  }

  /** `ProjectResponse(name=..., full_name=..., url=...)`: the same defaults as `ProjectCreate`. */
  function NewProjectResponse(name: string, full_name: string, url: string): (p: ProjectResponse)
    ensures ResponseBaseOf(p) == NewProjectBase(name, full_name, url)
    ensures p.fork_url == None && p.issues_url == None && p.category == None
    ensures p.trend == DEFAULT_TREND && p.usage_steps == []
  {
    ProjectResponse(name, full_name, url, None, None, 0, 0, 0, None, None, None, DEFAULT_TREND, [])
  }

  /** `ProjectResponse(**p.model_dump())`. */
  function ToResponse(p: ProjectCreate): ProjectResponse
  {
    ProjectResponse(p.name, p.full_name, p.url, p.description, p.language, p.stars, p.forks,
      p.issues, p.fork_url, p.issues_url, p.category, p.trend, p.usage_steps)
  }

  /** `ProjectCreate(**r.model_dump())`. */
  function ToCreate(r: ProjectResponse): ProjectCreate
  {
    ProjectCreate(r.name, r.full_name, r.url, r.description, r.language, r.stars, r.forks,
      r.issues, r.fork_url, r.issues_url, r.category, r.trend, r.usage_steps)
  }

  /** The two project models carry the same fields, so converting either way loses nothing. */
  lemma ConversionsRoundTrip(p: ProjectCreate, r: ProjectResponse)
    ensures ToCreate(ToResponse(p)) == p
    ensures ToResponse(ToCreate(r)) == r
    ensures ResponseBaseOf(ToResponse(p)) == BaseOf(p)
  {
  }

  /** Both models apply the same defaults. */
  lemma DefaultsAgree(name: string, full_name: string, url: string)
    ensures ToResponse(NewProjectCreate(name, full_name, url)) == NewProjectResponse(name, full_name, url)
  {
  }

  /**
   * An element of `HistoryRecord.projects`, whose element type the schema
   * leaves open: a bare project name, or the full detail object that
   * `refresh_projects` stores (the thirteen fields of a `ProjectCreate`).
   */
  datatype HistoryItem = ProjectName(name: string) | ProjectDetail(detail: ProjectCreate)

  /** `HistoryRecord`: one week of the ledger. */
  datatype HistoryRecord = HistoryRecord(
    id: string,
    week: string,
    date: string,
    total_projects: int,
    projects: seq<HistoryItem>)

  datatype HistoryResponse = HistoryResponse(history: seq<HistoryRecord>)

  /** `ProjectsResponse`: `last_updated` is an optional string, not a timestamp. */
  datatype ProjectsResponse = ProjectsResponse(
    last_updated: Option<string>,
    projects: seq<ProjectResponse>,
    total_count: int)

  function NewProjectsResponse(projects: seq<ProjectResponse>, total_count: int): (r: ProjectsResponse)
    ensures r.last_updated == None && r.projects == projects && r.total_count == total_count
  {
    ProjectsResponse(None, projects, total_count)
  }

  datatype RefreshResponse = RefreshResponse(
    success: bool,
    message: string,
    last_updated: Option<string>,
    projects_count: int)

  function NewRefreshResponse(success: bool, message: string, projects_count: int): (r: RefreshResponse)
    ensures r.success == success && r.message == message
    ensures r.last_updated == None && r.projects_count == projects_count
  {
    RefreshResponse(success, message, None, projects_count)
  }

  datatype ErrorResponse = ErrorResponse(error: string, detail: Option<string>)

  /** The `HTTPException(status_code, detail)` a route raises. */
  datatype HttpException = HttpException(status_code: int, detail: string)
}
