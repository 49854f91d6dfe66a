/**
 * backend/services/ai.py: enriching a project through a chat-completion API.
 * The HTTP call is the parameter `call` and `json.loads` is the partial
 * function `decode`; the regular expression `\{[\s\S]*\}` is modelled by the
 * span it selects.
 */
module AI {
  import opened Base
  import opened Strings
  import opened Schemas

  // ---------------------------------------------------------------------------
  // Provider defaults

  const FALLBACK_ENDPOINT := "https://api.example.com/v1"
  const FALLBACK_MODEL := "default"

  /** The known providers with their default endpoint and model. */
  const PROVIDERS: map<string, (string, string)> := map[
    "qwen" := ("https://dashscope.aliyuncs.com/compatible-mode/v1", "qwen-plus"),
    "minimax" := ("https://api.minimax.chat/v1", "MiniMax-M2.1"),
    "openai" := ("https://api.openai.com/v1", "gpt-4"),
    "anthropic" := ("https://api.anthropic.com/v1", "claude-3-sonnet-20241022")
  ]

  function DefaultEndpoint(provider: string): string
  {
    if provider in PROVIDERS then PROVIDERS[provider].0 else FALLBACK_ENDPOINT
  }

  function DefaultModel(provider: string): string
  {
    if provider in PROVIDERS then PROVIDERS[provider].1 else FALLBACK_MODEL
  }

  /** One chat-completion request: `POST {endpoint}/chat/completions` with the model, the key and the prompt. */
  datatype ChatRequest = ChatRequest(url: string, model: string, api_key: string, prompt: string)

  /** What `_call_ai` gives back: the message content, `None` (a non-200 status), or an exception. */
  datatype CallOutcome = Content(text: string) | NoContent | CallFailed

  /** The value `json.loads` produced for the extracted span: not an object, or an object's three keys. */
  datatype DecodedJson =
    | NotAnObject
    | JsonObject(enhanced_description: Json<string>, category: Json<string>, usage_steps: Json<seq<string>>)

  // ---------------------------------------------------------------------------
  // _build_prompt

  const PROMPT_HEAD := "\n请分析以下 GitHub 项目，生成更丰富的描述和使用指南：\n\n项目名称: "
  const PROMPT_TAIL := "\n\n请返回 JSON 格式：\n{\n    \"enhanced_description\": \"更详细的描述（100-200字）\",\n    \"usage_steps\": [\"步骤1\", \"步骤2\", \"步骤3\"],\n    \"category\": \"分类\"\n}\n"
  const NO_DESCRIPTION := "暂无描述"

  /** `project.description or '暂无描述'`. */
  function DescriptionText(description: Option<string>): string
  {
    OrText(description, NO_DESCRIPTION)
  }

  /** `f"{project.language}"`: a missing language prints as `None`. */
  function LanguageText(language: Option<string>): string
  {
    if language.Some? then language.value else "None"
  }

  /** `_build_prompt`: the prompt names the project, its description, language, stars and forks. */
  function BuildPrompt(p: ProjectCreate): (prompt: string)
    ensures Contains(prompt, p.full_name)
    ensures Contains(prompt, DescriptionText(p.description))
    ensures Contains(prompt, LanguageText(p.language))
    ensures Contains(prompt, "Stars: " + IntToString(p.stars))
    ensures Contains(prompt, "Forks: " + IntToString(p.forks))
  {
    var parts := [PROMPT_HEAD, p.full_name, "\n原描述: ", DescriptionText(p.description),
      "\n语言: ", LanguageText(p.language), "\n", "Stars: " + IntToString(p.stars),
      "\n", "Forks: " + IntToString(p.forks), PROMPT_TAIL];
    ConcatContains(parts, 1);
    ConcatContains(parts, 3);
    ConcatContains(parts, 5);
    ConcatContains(parts, 7);
    ConcatContains(parts, 9);
    var prompt := Concat(parts);
    prompt
  }

  // ---------------------------------------------------------------------------
  // _parse_response

  /**
   * The text `re.search(r'\{[\s\S]*\}', response)` matches: from the first `{`
   * to the last `}`, present exactly when some `{` comes before some `}`.
   */
  function ExtractJsonSpan(s: string): (span: Option<string>)
    ensures span.Some? <==> exists i, j :: 0 <= i < j < |s| && s[i] == '{' && s[j] == '}'
    ensures span.Some? ==> |span.value| >= 2 && span.value[0] == '{' && span.value[|span.value| - 1] == '}'
    ensures span.Some? ==> exists i: nat ::
      (OccursAt(s, span.value, i) && '{' !in s[..i] && '}' !in s[i + |span.value|..])
  {
    if '{' !in s then None
    else
      var i := IndexOf(s, '{');
      if '}' !in s[i + 1..] then
        forall b | i < b < |s| ensures s[b] != '}' {
          assert s[b] == s[i + 1..][b - i - 1];
        }
        forall a | 0 <= a < i ensures s[a] != '{' {
          assert s[a] == s[..i][a];
        }
        None
      else
        var j := LastIndexOf(s, '}');
        var k :| 0 <= k < |s[i + 1..]| && s[i + 1..][k] == '}';
        assert s[i + 1 + k] == '}';
        forall m | j < m < |s| ensures s[m] != '}' {
          assert s[m] == s[j + 1..][m - j - 1];
        }
        var span := s[i..j + 1];
        assert OccursAt(s, span, i);
        Some(span)
  }

  /** `data.get(key, fallback)` for an optional text field: absent keeps the fallback, `null` clears it. */
  function Pick(field: Json<string>, fallback: Option<string>): Option<string>
  {
    match field
    case Missing => fallback
    case Null => None
    case Value(v) => Some(v)
    case Mistyped => fallback
  }

  /** The decoded object yields a valid `ProjectCreate`: an object whose three keys have usable values. */
  predicate Accepts(o: DecodedJson)
  {
    && o.JsonObject?
    && !o.enhanced_description.Mistyped?
    && !o.category.Mistyped?
    && (o.usage_steps.Missing? || o.usage_steps.Value?)
  }

  /**
   * `_parse_response`: only description, category and usage steps can
   * change; they take the decoded values when present; and when no span is
   * found, decoding fails or the values do not fit, the original comes back.
   */
  function ParseResponse(response: string, original: ProjectCreate, decode: string -> Option<DecodedJson>): (r: ProjectCreate)
    ensures r.(description := original.description, category := original.category,
      usage_steps := original.usage_steps) == original
    ensures var span := ExtractJsonSpan(response);
      !(span.Some? && decode(span.value).Some? && Accepts(decode(span.value).value)) ==> r == original
    ensures var span := ExtractJsonSpan(response);
      span.Some? && decode(span.value).Some? && Accepts(decode(span.value).value) ==>
        var o := decode(span.value).value;
        && (o.enhanced_description.Missing? ==> r.description == original.description)
        && (o.enhanced_description.Null? ==> r.description == None)
        && (o.enhanced_description.Value? ==> r.description == Some(o.enhanced_description.v))
        && (o.category.Missing? ==> r.category == original.category)
        && (o.category.Null? ==> r.category == None)
        && (o.category.Value? ==> r.category == Some(o.category.v))
        && (o.usage_steps.Missing? ==> r.usage_steps == original.usage_steps)
        && (o.usage_steps.Value? ==> r.usage_steps == o.usage_steps.v)
  {
    match ExtractJsonSpan(response)
    case None => original
    case Some(span) =>
      match decode(span)
      case None => original
      case Some(o) =>
        if !Accepts(o) then original
        else
          original.(
            description := Pick(o.enhanced_description, original.description),
            category := Pick(o.category, original.category),
            usage_steps := if o.usage_steps.Value? then o.usage_steps.v else original.usage_steps)
  }

  /** A reply whose object repeats the project's own values changes nothing. */
  lemma EchoChangesNothing(response: string, original: ProjectCreate, decode: string -> Option<DecodedJson>)
    requires original.description.Some? && original.category.Some?
    requires var span := ExtractJsonSpan(response);
      (span.Some? && decode(span.value) == Some(JsonObject(Value(original.description.value),
        Value(original.category.value), Value(original.usage_steps))))
    ensures ParseResponse(response, original, decode) == original
  {
  }

  // ---------------------------------------------------------------------------
  // AIService

  class AIService {
    var provider: string
    var api_key: string
    var endpoint: string
    var model: string

    /** `AIService(provider, api_key, endpoint)`: an empty endpoint takes the provider's default. */
    constructor(provider: string, api_key: string, endpoint: string)
      ensures this.provider == provider && this.api_key == api_key
      ensures this.endpoint == if endpoint != "" then endpoint else DefaultEndpoint(provider)
      ensures this.model == DefaultModel(provider)
    {
      this.provider := provider;
      this.api_key := api_key;
      if provider == "qwen" {
        this.endpoint := if endpoint != "" then endpoint else "https://dashscope.aliyuncs.com/compatible-mode/v1";
        this.model := "qwen-plus";
      } else if provider == "minimax" {
        this.endpoint := if endpoint != "" then endpoint else "https://api.minimax.chat/v1";
        this.model := "MiniMax-M2.1";
      } else if provider == "openai" {
        this.endpoint := if endpoint != "" then endpoint else "https://api.openai.com/v1";
        this.model := "gpt-4";
      } else if provider == "anthropic" {
        this.endpoint := if endpoint != "" then endpoint else "https://api.anthropic.com/v1";
        this.model := "claude-3-sonnet-20241022";
      } else {
        this.endpoint := if endpoint != "" then endpoint else FALLBACK_ENDPOINT;
        this.model := FALLBACK_MODEL;
      }
    }

    /** The request `_call_ai(prompt)` sends. */
    function Request(prompt: string): ChatRequest
      reads this
    {
      ChatRequest(endpoint + "/chat/completions", model, api_key, prompt)
    }

    /**
     * `enhance_project`: the reply, when there is a non-empty one, is parsed
     * over the project; no reply, an empty one or a failed call leave the
     * project as it was.
     */
    function EnhanceProject(project: ProjectCreate, call: ChatRequest -> CallOutcome,
                            decode: string -> Option<DecodedJson>): (r: ProjectCreate)
      reads this
      ensures r.(description := project.description, category := project.category,
        usage_steps := project.usage_steps) == project
      ensures var reply := call(Request(BuildPrompt(project)));
        !(reply.Content? && reply.text != "") ==> r == project
      ensures var reply := call(Request(BuildPrompt(project)));
        reply.Content? && reply.text != "" ==> r == ParseResponse(reply.text, project, decode)
    {
      match call(Request(BuildPrompt(project)))
      case Content(text) => if text != "" then ParseResponse(text, project, decode) else project
      case _ => project
    }
  }
}
