/**
 * The compose-generation server action: validate the request against its
 * schema, require an API key, render the prompt, send one chat-completion
 * request, and turn the provider's reply into a result or one of a fixed
 * set of error messages. The network call is a parameter (`provider`); the
 * environment variables are the `Env` record.
 */
module GenerateCompose {
  import opened Wrappers
  import opened Strings

  // ---------------------------------------------------------------------
  // The request as it arrives, and its schema
  // ---------------------------------------------------------------------

  /** A JavaScript value, as far as the request schema tells values apart. */
  datatype JsValue =
    | JsUndefined
    | JsNull
    | JsBoolean
    | JsNumber
    | JsString(s: string)
    | JsArray
    | JsObject(entries: seq<(string, JsValue)>)

  /** The type name the schema library uses in its messages. */
  function TypeName(v: JsValue): string {
    match v
    case JsUndefined => "undefined"
    case JsNull => "null"
    case JsBoolean => "boolean"
    case JsNumber => "number"
    case JsString(_) => "string"
    case JsArray => "array"
    case JsObject(_) => "object"
  }

  /** A property read: the entry with that key, or `undefined` when there is none. */
  function Get(entries: seq<(string, JsValue)>, key: string): JsValue {
    if entries == [] then JsUndefined
    else if entries[0].0 == key then entries[0].1
    else Get(entries[1..], key)
  }

  const TOO_SHORT: string := "String must contain at least 1 character(s)"

  /** The schema library's message for a value of the wrong type. */
  function InvalidType(expected: string, received: JsValue): string {
    if received == JsUndefined then "Required" else "Expected " + expected + ", received " + TypeName(received)
  }

  /** Issues of a `string().min(1)` schema. */
  function NonEmptyStringIssues(v: JsValue): (issues: seq<string>)
    ensures issues == [] <==> v.JsString? && v.s != ""
  {
    match v
    case JsString(s) => if |s| >= 1 then [] else [TOO_SHORT]
    case _ => [InvalidType("string", v)]
  }

  /** Issues of a `string().optional()` schema. */
  function OptionalStringIssues(v: JsValue): (issues: seq<string>)
    ensures issues == [] <==> v.JsString? || v == JsUndefined
  {
    match v
    case JsString(_) => []
    case JsUndefined => []
    case _ => [InvalidType("string", v)]
  }

  /** Issues of the values of a `record(string(), string())`, entry by entry. */
  function RecordValueIssues(entries: seq<(string, JsValue)>): (issues: seq<string>)
    ensures issues == [] <==> forall k :: 0 <= k < |entries| ==> entries[k].1.JsString?
  {
    if entries == [] then []
    else
      (if entries[0].1.JsString? then [] else [InvalidType("string", entries[0].1)])
      + RecordValueIssues(entries[1..])
  }

  /** Issues of a `record(string(), string())` schema. */
  function StringRecordIssues(v: JsValue): seq<string> {
    match v
    case JsObject(entries) => RecordValueIssues(entries)
    case _ => [InvalidType("object", v)]
  }

  /** Every issue the request schema reports, in the order of its fields. */
  function SchemaIssues(input: JsValue): seq<string> {
    match input
    case JsObject(e) =>
      NonEmptyStringIssues(Get(e, "templateSlug"))
      + NonEmptyStringIssues(Get(e, "templateName"))
      + OptionalStringIssues(Get(e, "composeHints"))
      + StringRecordIssues(Get(e, "configValues"))
    case _ => [InvalidType("object", input)]
  }

  /** A request that passed the schema; `configValues` keeps the object's entry order. */
  datatype GenerateRequest = GenerateRequest(
    templateSlug: string,
    templateName: string,
    composeHints: Option<string>,
    configValues: seq<(string, string)>)

  /** The entries of a record whose values are all strings. */
  function StringEntries(entries: seq<(string, JsValue)>): (r: seq<(string, string)>)
    requires forall k :: 0 <= k < |entries| ==> entries[k].1.JsString?
    ensures |r| == |entries|
    ensures forall k :: 0 <= k < |r| ==> r[k] == (entries[k].0, entries[k].1.s)
  {
    if entries == [] then [] else [(entries[0].0, entries[0].1.s)] + StringEntries(entries[1..])
  }

  /**
   * Parsing the request: the first issue's message on failure; otherwise the
   * request, whose slug and name are non-empty.
   */
  function ParseRequest(input: JsValue): (r: Result<GenerateRequest>)
    ensures r.Err? <==> SchemaIssues(input) != []
    ensures r.Err? ==> r.error == SchemaIssues(input)[0]
    ensures r.Ok? ==> r.value.templateSlug != "" && r.value.templateName != ""
  {
    var issues := SchemaIssues(input);
    if issues != [] then Err(issues[0])
    else
      var e := input.entries;
      var hints := Get(e, "composeHints");
      var config := Get(e, "configValues");
      assert RecordValueIssues(config.entries) == [];
      Ok(GenerateRequest(
        Get(e, "templateSlug").s,
        Get(e, "templateName").s,
        if hints.JsString? then Some(hints.s) else None,
        StringEntries(config.entries)))
  }

  /** A configuration map as a JavaScript object. */
  function ConfigToJs(config: seq<(string, string)>): (entries: seq<(string, JsValue)>)
    ensures |entries| == |config|
    ensures forall k :: 0 <= k < |config| ==> entries[k] == (config[k].0, JsString(config[k].1))
  {
    if config == [] then [] else [(config[0].0, JsString(config[0].1))] + ConfigToJs(config[1..])
  }

  /** A request as the form sends it. */
  function RequestToJs(request: GenerateRequest): JsValue {
    JsObject(
      [("templateSlug", JsString(request.templateSlug)), ("templateName", JsString(request.templateName))]
      + (if request.composeHints.Some? then [("composeHints", JsString(request.composeHints.value))] else [])
      + [("configValues", JsObject(ConfigToJs(request.configValues)))])
  }

  /** An object whose four properties read as a request's fields parses to that request. */
  lemma ParseObject(e: seq<(string, JsValue)>, request: GenerateRequest)
    requires request.templateSlug != "" && request.templateName != ""
    requires Get(e, "templateSlug") == JsString(request.templateSlug)
    requires Get(e, "templateName") == JsString(request.templateName)
    requires Get(e, "composeHints")
      == if request.composeHints.Some? then JsString(request.composeHints.value) else JsUndefined
    requires Get(e, "configValues") == JsObject(ConfigToJs(request.configValues))
    ensures ParseRequest(JsObject(e)) == Ok(request)
  {
    var config := ConfigToJs(request.configValues);
    assert RecordValueIssues(config) == [];
    assert SchemaIssues(JsObject(e)) == [];
    assert StringEntries(config) == request.configValues;
  }

  /** Every request with a non-empty slug and name passes the schema unchanged. */
  lemma ParseRequestToJs(request: GenerateRequest)
    requires request.templateSlug != "" && request.templateName != ""
    ensures ParseRequest(RequestToJs(request)) == Ok(request)
  {
    var e := RequestToJs(request).entries;
    var first := [("templateSlug", JsString(request.templateSlug)), ("templateName", JsString(request.templateName))];
    var last := ("configValues", JsObject(ConfigToJs(request.configValues)));
    assert "templateSlug"[8] != "templateName"[8];
    assert "composeHints"[0] != "templateSlug"[0] && "composeHints"[0] != "templateName"[0];
    assert "configValues"[0] != "templateSlug"[0] && "configValues"[0] != "templateName"[0];
    assert "configValues"[2] != "composeHints"[2];
    if request.composeHints.Some? {
      assert e == first + [("composeHints", JsString(request.composeHints.value)), last];
      assert Get(e, "composeHints") == Get(e[1..], "composeHints") == Get(e[2..], "composeHints");
      assert Get(e, "configValues") == Get(e[1..], "configValues") == Get(e[2..], "configValues")
        == Get(e[3..], "configValues");
    } else {
      assert e == first + [last];
      assert Get(e, "composeHints") == Get(e[1..], "composeHints") == Get(e[2..], "composeHints")
        == Get(e[3..], "composeHints");
      assert Get(e, "configValues") == Get(e[1..], "configValues") == Get(e[2..], "configValues");
    }
    assert Get(e, "templateName") == Get(e[1..], "templateName");
    ParseObject(e, request);
  }

  // ---------------------------------------------------------------------
  // Configuration, prompt and the outbound request
  // ---------------------------------------------------------------------

  /** The process environment: `OPENAI_API_KEY` and `ASH_AI_MODEL`. */
  datatype Env = Env(apiKey: Option<string>, modelOverride: Option<string>)

  /** An empty key counts as missing. */
  predicate HasApiKey(env: Env) {
    env.apiKey.Some? && env.apiKey.value != ""
  }

  const DEFAULT_MODEL: string := "gpt-4.1-mini"

  /** The model name: the override when it is set at all, even to the empty string. */
  function ModelName(env: Env): (model: string)
    ensures env.modelOverride == None ==> model == DEFAULT_MODEL
    ensures env.modelOverride.Some? ==> model == env.modelOverride.value
  {
    env.modelOverride.GetOr(DEFAULT_MODEL)
  }

  const PROMPT_OPENING: string :=
    "You are a Docker Compose expert. Generate a production-ready docker-compose.yml for "
  const CONFIG_HEADING: string := ".\n\nUser configuration:\n"
  const REQUIREMENTS_HEADING: string := "App requirements:\n"
  const RULES: string :=
    "Rules:\n"
    + "- Use named volumes (not bind mounts) unless the user specified paths\n"
    + "- Include health checks for critical services\n"
    + "- Set restart: unless-stopped on all services\n"
    + "- Use specific image tags, not :latest\n"
    + "- Include comments explaining non-obvious configuration\n"
    + "- Output ONLY valid YAML, no markdown fencing"

  const SYSTEM_MESSAGE: string := "You are a Docker Compose expert. Output only valid YAML."
  const MAX_TOKENS: nat := 4096

  /** One configuration entry as a prompt line. */
  function ConfigLine(entry: (string, string)): string {
    "- " + entry.0 + ": " + entry.1
  }

  function ConfigLineList(config: seq<(string, string)>): (lines: seq<string>)
    ensures |lines| == |config|
    ensures forall k :: 0 <= k < |config| ==> lines[k] == ConfigLine(config[k])
  {
    if config == [] then [] else [ConfigLine(config[0])] + ConfigLineList(config[1..])
  }

  /** The configuration lines, joined by newlines. */
  function ConfigLines(config: seq<(string, string)>): string {
    Join("\n", ConfigLineList(config))
  }

  /** The requirements block; absent when the hints are absent or empty. */
  function RequirementsBlock(hints: Option<string>): string {
    if hints.Some? && hints.value != "" then REQUIREMENTS_HEADING + hints.value + "\n" else ""
  }

  /** The fixed end of the prompt: a line break, then the rules. */
  const PROMPT_CLOSING: string := "\n" + RULES

  /** The opening sentence naming the template, then the configuration heading. */
  function PromptHead(templateName: string): string {
    PROMPT_OPENING + templateName + CONFIG_HEADING
  }

  /** The configuration lines, a blank line, and the requirements block. */
  function PromptBody(request: GenerateRequest): string {
    ConfigLines(request.configValues) + "\n\n" + RequirementsBlock(request.composeHints)
  }

  /** The user message sent to the provider. */
  function Prompt(request: GenerateRequest): string {
    PromptHead(request.templateName) + PromptBody(request) + PROMPT_CLOSING
  }

  /** The prompt names the template right after its opening and ends with the fixed rules. */
  lemma PromptFrame(request: GenerateRequest)
    ensures PROMPT_OPENING + request.templateName + CONFIG_HEADING <= Prompt(request)
    ensures |PROMPT_CLOSING| <= |Prompt(request)|
    ensures Prompt(request)[|Prompt(request)| - |PROMPT_CLOSING|..] == PROMPT_CLOSING
  {
    ConcatSlices(PromptHead(request.templateName), PromptBody(request), PROMPT_CLOSING);
  }

  /** The configuration section sits right after the heading. */
  lemma PromptConfigSection(request: GenerateRequest)
    ensures OccursAt(Prompt(request), ConfigLines(request.configValues),
      |PROMPT_OPENING| + |request.templateName| + |CONFIG_HEADING|)
  {
    var section := ConfigLines(request.configValues);
    var gap := "\n\n";
    assert PromptBody(request) == section + gap + RequirementsBlock(request.composeHints);
    OccursInMiddle(PromptHead(request.templateName), section, gap + RequirementsBlock(request.composeHints), PROMPT_CLOSING);
  }

  /** In `h + (a + g) + c`, the part `a` starts right after `h`. */
  lemma OccursInMiddle(h: string, a: string, g: string, c: string)
    ensures OccursAt(h + (a + g) + c, a, |h|)
  {
    assert h + (a + g) + c == (h + a) + (g + c);
    assert (h + a + (g + c))[|h|..|h| + |a|] == a;
  }

  /**
   * Splitting the configuration section at newlines gives back one line
   * `- key: value` per entry, in entry order, when no key or value holds a newline.
   */
  lemma ConfigLinesSplit(config: seq<(string, string)>)
    requires config != []
    requires forall k :: 0 <= k < |config| ==> '\n' !in config[k].0 && '\n' !in config[k].1
    ensures SplitOn(ConfigLines(config), '\n') == ConfigLineList(config)
  {
    var lines := ConfigLineList(config);
    forall k | 0 <= k < |lines| ensures '\n' !in lines[k] {
      ConfigLineSingle(config[k]);
    }
    SplitJoin(lines, '\n');
  }

  /** A line built from a newline-free key and value holds no newline. */
  lemma ConfigLineSingle(entry: (string, string))
    requires '\n' !in entry.0 && '\n' !in entry.1
    ensures '\n' !in ConfigLine(entry)
  {
    var dash, colon := "- ", ": ";
    assert '\n' !in dash && '\n' !in colon;
    assert ConfigLine(entry) == dash + entry.0 + colon + entry.1;
    assert multiset(ConfigLine(entry)) == multiset(dash) + multiset(entry.0) + multiset(colon) + multiset(entry.1);
    assert '\n' !in multiset(ConfigLine(entry));
  }

  /** Appending an entry appends its line at the end of the section. */
  lemma {:induction false} ConfigLinesAppend(config: seq<(string, string)>, entry: (string, string))
    ensures ConfigLines(config + [entry])
      == if config == [] then ConfigLine(entry) else ConfigLines(config) + "\n" + ConfigLine(entry)
  {
    if |config| > 1 {
      ConfigLinesAppend(config[1..], entry);
      assert (config + [entry])[1..] == config[1..] + [entry];
      assert ConfigLineList(config + [entry])[1..] == ConfigLineList(config[1..] + [entry]);
      assert ConfigLineList(config)[1..] == ConfigLineList(config[1..]);
    } else if |config| == 1 {
      assert ConfigLineList(config + [entry]) == [ConfigLine(config[0]), ConfigLine(entry)];
    }
  }

  /**
   * Hints add exactly the requirements block, inserted just before the
   * line break that precedes the rules; absent and empty hints give the same prompt.
   */
  lemma RequirementsInsertion(request: GenerateRequest, hints: string)
    ensures var bare := Prompt(request.(composeHints := None));
      && Prompt(request.(composeHints := Some(""))) == bare
      && |PROMPT_CLOSING| <= |bare|
      && (hints != [] ==>
            Prompt(request.(composeHints := Some(hints)))
              == bare[..|bare| - |PROMPT_CLOSING|] + REQUIREMENTS_HEADING + hints + "\n" + bare[|bare| - |PROMPT_CLOSING|..])
  {
    var config := ConfigLines(request.configValues);
    assert PromptBody(request.(composeHints := None)) == config + "\n\n";
    assert PromptBody(request.(composeHints := Some(""))) == config + "\n\n";
    if hints != [] {
      assert PromptBody(request.(composeHints := Some(hints))) == config + "\n\n" + (REQUIREMENTS_HEADING + hints + "\n");
    }
    InsertBeforeClosing(PromptHead(request.templateName), config + "\n\n", REQUIREMENTS_HEADING, hints, "\n", PROMPT_CLOSING);
  }

  /** Inserting `x + y + z` between `front` and `closing`, seen from the text without it. */
  lemma InsertBeforeClosing(head: string, front: string, x: string, y: string, z: string, closing: string)
    ensures var bare := head + front + closing;
      && |closing| <= |bare|
      && head + (front + (x + y + z)) + closing == bare[..|bare| - |closing|] + x + y + z + bare[|bare| - |closing|..]
  {
    var bare := head + front + closing;
    assert bare[..|bare| - |closing|] == head + front;
    assert bare[|bare| - |closing|..] == closing;
  }

  /** The one request sent to the chat-completion endpoint. */
  datatype ChatRequest = ChatRequest(
    apiKey: string,
    model: string,
    systemMessage: string,
    userMessage: string,
    maxTokens: nat)

  // ---------------------------------------------------------------------
  // The provider's reply and the result
  // ---------------------------------------------------------------------

  /**
   * What `choices?.[0]?.message?.content` reads from a non-null JSON body:
   * `NoContent` when any step of the chain is missing or null (including a
   * `choices` that is absent or not an array), a string, or some other
   * non-null value, on which `trim` is not a function.
   */
  datatype Content = NoContent | TextContent(text: string) | OtherContent

  /**
   * The reply body: `UnparsableBody` when it is not JSON or is JSON `null`
   * (reading `choices` of it throws); otherwise the content and
   * `usage.total_tokens`.
   */
  datatype ReplyBody = UnparsableBody | ReplyJson(content: Content, totalTokens: Option<int>)

  /** What the network call yields: a transport failure or an HTTP reply. */
  datatype Reply = TransportFailure | HttpReply(ok: bool, body: ReplyBody)

  datatype GenerateResult = Generated(compose: string, model: string, tokens: int) | Failed(error: string)

  /** One invocation: the request it sent, if any, and its result. */
  datatype Run = Run(sent: Option<ChatRequest>, result: GenerateResult)

  const KEY_MISSING: string := "OpenAI API key not configured."
  const PROVIDER_FAILED: string := "AI generation failed. Please try again."
  const EMPTY_RESPONSE: string := "AI returned empty response."
  const UNEXPECTED_ERROR: string := "An unexpected error occurred."

  // ---------------------------------------------------------------------
  // Fence stripping
  // ---------------------------------------------------------------------

  /** `t` starts with `word` when ASCII letters are compared without case. */
  predicate StartsWithFolded(t: string, word: string) {
    |word| <= |t| && ToLowerAscii(t[..|word|]) == word
  }

  predicate EndsWith(t: string, suffix: string) {
    |suffix| <= |t| && t[|t| - |suffix|..] == suffix
  }

  /** The length of a match of /^```ya?ml\n?/i at the start of `t`, 0 when there is none. */
  function OpeningFenceLength(t: string): (n: nat)
    ensures n <= |t|
    ensures n == 0 <==> !StartsWithFolded(t, "```yaml") && !StartsWithFolded(t, "```yml")
  {
    if StartsWithFolded(t, "```yaml") then 7 + (if |t| > 7 && t[7] == '\n' then 1 else 0)
    else if StartsWithFolded(t, "```yml") then 6 + (if |t| > 6 && t[6] == '\n' then 1 else 0)
    else 0
  }

  /** Removes the leftmost match of /\n?```$/: a closing fence with the newline before it. */
  function DropClosingFence(t: string): (r: string)
    ensures r <= t
    ensures !EndsWith(t, "```") ==> r == t
  {
    if EndsWith(t, "\n```") then t[..|t| - 4]
    else if EndsWith(t, "```") then t[..|t| - 3]
    else t
  }

  /** The cleaned completion: drop an opening and a closing fence, then trim. */
  function CleanCompose(compose: string): (r: string)
    ensures Trimmed(r)
    ensures |r| <= |compose|
  {
    Trim(DropClosingFence(compose[OpeningFenceLength(compose)..]))
  }

  /** Classifies the provider's reply; `model` is echoed in a successful result. */
  function ClassifyReply(reply: Reply, model: string): (r: GenerateResult)
    ensures r.Generated? ==> r.model == model && Trimmed(r.compose)
    ensures r.Failed? ==> r.error in [PROVIDER_FAILED, EMPTY_RESPONSE, UNEXPECTED_ERROR]
    ensures r == Failed(PROVIDER_FAILED) <==> reply.HttpReply? && !reply.ok
    ensures r == Failed(UNEXPECTED_ERROR) <==>
      reply.TransportFailure?
      || (reply.ok && (reply.body.UnparsableBody? || reply.body.content.OtherContent?))
    ensures r == Failed(EMPTY_RESPONSE) <==>
      reply.HttpReply? && reply.ok && reply.body.ReplyJson?
      && (reply.body.content == NoContent || (reply.body.content.TextContent? && Trim(reply.body.content.text) == ""))
    ensures r.Generated? ==> reply.HttpReply? && reply.body.ReplyJson? && r.tokens == reply.body.totalTokens.GetOr(0)
  {
    match reply
    case TransportFailure => Failed(UNEXPECTED_ERROR)
    case HttpReply(ok, body) =>
      if !ok then Failed(PROVIDER_FAILED)
      else
        match body
        case UnparsableBody => Failed(UNEXPECTED_ERROR)
        case ReplyJson(content, totalTokens) =>
          if content.OtherContent? then Failed(UNEXPECTED_ERROR)
          else
            var compose := if content.TextContent? then Trim(content.text) else "";
            if compose == "" then Failed(EMPTY_RESPONSE)
            else Generated(CleanCompose(compose), model, totalTokens.GetOr(0))
  }

  /** A successful HTTP reply whose completion is `text`. */
  function TextReply(text: string, totalTokens: Option<int>): Reply {
    HttpReply(true, ReplyJson(TextContent(text), totalTokens))
  }

  /** A successful reply with non-blank text yields that text, trimmed and then cleaned. */
  lemma ClassifyText(text: string, totalTokens: Option<int>, model: string)
    requires Trim(text) != ""
    ensures ClassifyReply(TextReply(text, totalTokens), model)
      == Generated(CleanCompose(Trim(text)), model, totalTokens.GetOr(0))
  {
    var reply := TextReply(text, totalTokens);
    assert reply == HttpReply(true, ReplyJson(TextContent(text), totalTokens));
    var compose := Trim(text);
    assert ClassifyReply(reply, model) == Generated(CleanCompose(compose), model, totalTokens.GetOr(0));
  }

  /** The opening fence ```` ```<tag>\n ```` is recognised for `yaml` and `yml` in any letter case. */
  lemma OpeningFenceOfTag(tag: string, rest: string)
    requires ToLowerAscii(tag) == "yaml" || ToLowerAscii(tag) == "yml"
    ensures OpeningFenceLength("```" + tag + "\n" + rest) == |tag| + 4
  {
    var t := "```" + tag + "\n" + rest;
    assert t[..|tag| + 3] == "```" + tag;
    assert ToLowerAscii(t[..|tag| + 3]) == "```" + ToLowerAscii(tag);
    if |tag| == 3 {
      assert LowerChar(t[5]) == 'l';
    }
  }

  /**
   * A completion wrapped in a ```` ```yaml ```` (or ```` ```yml ````) fence is
   * returned as the trimmed text inside it, with the reported token count.
   */
  lemma FencedReply(tag: string, x: string, totalTokens: Option<int>, model: string)
    requires ToLowerAscii(tag) == "yaml" || ToLowerAscii(tag) == "yml"
    ensures ClassifyReply(TextReply("```" + tag + "\n" + x + "\n```", totalTokens), model)
      == Generated(Trim(x), model, totalTokens.GetOr(0))
  {
    var t := "```" + tag + "\n" + x + "\n```";
    assert Trimmed(t);
    OpeningFenceOfTag(tag, x + "\n```");
    assert t == "```" + tag + "\n" + (x + "\n```");
    assert t[|tag| + 4..] == x + "\n```";
    assert DropClosingFence(x + "\n```") == x;
  }

  /** A completion that is nothing but an opening and a closing fence yields an empty document. */
  lemma FenceOnlyReply(tag: string, totalTokens: Option<int>, model: string)
    requires ToLowerAscii(tag) == "yaml" || ToLowerAscii(tag) == "yml"
    ensures ClassifyReply(TextReply("```" + tag + "\n```", totalTokens), model) == Generated("", model, totalTokens.GetOr(0))
  {
    var t := "```" + tag + "\n```";
    assert Trimmed(t);
    OpeningFenceOfTag(tag, "```");
    assert t == "```" + tag + "\n" + "```";
    assert t[|tag| + 4..] == "```";
    assert DropClosingFence("```") == "";
  }

  /** Unfenced text is returned as it stands, without the whitespace around it. */
  lemma UnfencedReply(a: string, x: string, b: string, totalTokens: Option<int>, model: string)
    requires AllSpace(a) && AllSpace(b) && Trimmed(x) && x != ""
    requires !StartsWithFolded(x, "```yaml") && !StartsWithFolded(x, "```yml") && !EndsWith(x, "```")
    ensures ClassifyReply(TextReply(a + x + b, totalTokens), model) == Generated(x, model, totalTokens.GetOr(0))
  {
    TrimSurrounded(a, x, b);
    CleanUnfenced(x);
    ClassifyText(a + x + b, totalTokens, model);
  }

  /** Cleaning leaves trimmed text without either fence as it is. */
  lemma CleanUnfenced(x: string)
    requires Trimmed(x)
    requires !StartsWithFolded(x, "```yaml") && !StartsWithFolded(x, "```yml") && !EndsWith(x, "```")
    ensures CleanCompose(x) == x
  {
    assert x[OpeningFenceLength(x)..] == x;
  }

  /**
   * A leading fence without a `yaml`/`yml` tag is not removed: the result
   * still starts with the three backquotes.
   */
  lemma BareOpeningFenceKept(x: string)
    ensures "```" <= CleanCompose("```\n" + x)
  {
    var t := "```\n" + x;
    assert t[..4] == "```\n";
    BareFenceNotOpening(t);
    var d := DropClosingFence(t);
    BareFenceNotClosed(t);
    assert TrimStart(d) == d;
    TrimEndKeeps(d, 2);
    assert TrimEnd(d)[..3] == d[..3];
  }

  /** A text starting with a bare fence and a line break has no opening fence to remove. */
  lemma BareFenceNotOpening(t: string)
    requires |t| >= 4 && t[..4] == "```\n"
    ensures OpeningFenceLength(t) == 0
  {
    assert LowerChar(t[3]) == '\n';
    if |t| >= 6 {
      assert ToLowerAscii(t[..6])[3] == '\n';
    }
    if |t| >= 7 {
      assert ToLowerAscii(t[..7])[3] == '\n';
    }
  }

  /** Removing the closing fence from such a text keeps its leading three backquotes. */
  lemma BareFenceNotClosed(t: string)
    requires |t| >= 4 && t[..4] == "```\n"
    ensures |DropClosingFence(t)| >= 3 && DropClosingFence(t)[..3] == "```"
  {
    if |t| < 7 {
      assert t[3] == '\n';
      assert t[|t| - 3..][3 - (|t| - 3)] == t[3];
    }
  }

  /**
   * `generateCompose`: a request is sent exactly when the input passes the
   * schema and a key is configured; a schema failure reports the first
   * issue, a missing key its fixed message; otherwise the reply decides.
   */
  function GenerateCompose(input: JsValue, env: Env, provider: ChatRequest -> Reply): (run: Run)
    ensures run.sent.Some? <==> ParseRequest(input).Ok? && HasApiKey(env)
    ensures ParseRequest(input).Err? ==> run.result == Failed(ParseRequest(input).error)
    ensures ParseRequest(input).Ok? && !HasApiKey(env) ==> run.result == Failed(KEY_MISSING)
    ensures run.sent.Some? ==>
      && run.sent.value.apiKey == env.apiKey.value
      && run.sent.value.model == ModelName(env)
      && run.sent.value.userMessage == Prompt(ParseRequest(input).value)
      && run.result == ClassifyReply(provider(run.sent.value), ModelName(env))
    ensures run.result.Generated? ==> run.sent.Some? && run.result.model == ModelName(env)
    ensures run.result.Failed? && run.sent.Some? ==>
      run.result.error in [PROVIDER_FAILED, EMPTY_RESPONSE, UNEXPECTED_ERROR]
  {
    match ParseRequest(input)
    case Err(message) => Run(None, Failed(message))
    case Ok(request) =>
      if !HasApiKey(env) then Run(None, Failed(KEY_MISSING))
      else
        var chat := ChatRequest(env.apiKey.value, ModelName(env), SYSTEM_MESSAGE, Prompt(request), MAX_TOKENS);
        Run(Some(chat), ClassifyReply(provider(chat), chat.model))
  }

  /** A body that is not an object is refused before anything else is looked at. */
  lemma NonObjectRejected(input: JsValue, env: Env, provider: ChatRequest -> Reply)
    requires !input.JsObject?
    ensures GenerateCompose(input, env, provider) == Run(None, Failed(InvalidType("object", input)))
    ensures input == JsUndefined ==> GenerateCompose(input, env, provider).result == Failed("Required")
  {
  }

  /** An empty slug is refused with the minimum-length message, and no request is sent. */
  lemma EmptySlugRejected(e: seq<(string, JsValue)>, env: Env, provider: ChatRequest -> Reply)
    requires Get(e, "templateSlug") == JsString("")
    ensures GenerateCompose(JsObject(e), env, provider) == Run(None, Failed(TOO_SHORT))
  {
    assert SchemaIssues(JsObject(e))[0] == TOO_SHORT;
  }

  /** With a valid slug, an empty or missing name is the first issue reported. */
  lemma NameIssueReported(e: seq<(string, JsValue)>, env: Env, provider: ChatRequest -> Reply)
    requires Get(e, "templateSlug").JsString? && Get(e, "templateSlug").s != ""
    requires Get(e, "templateName") == JsString("") || Get(e, "templateName") == JsUndefined
    ensures GenerateCompose(JsObject(e), env, provider).sent == None
    ensures Get(e, "templateName") == JsString("") ==> GenerateCompose(JsObject(e), env, provider).result == Failed(TOO_SHORT)
    ensures Get(e, "templateName") == JsUndefined ==> GenerateCompose(JsObject(e), env, provider).result == Failed("Required")
  {
    assert SchemaIssues(JsObject(e))[0] == NonEmptyStringIssues(Get(e, "templateName"))[0];
  }

  /** A valid request with a key configured gets the provider's reply to it, classified. */
  lemma ValidRunUsesReply(input: JsValue, key: string, reply: Reply, provider: ChatRequest -> Reply)
    requires ParseRequest(input).Ok? && key != ""
    requires forall chat :: provider(chat) == reply
    ensures GenerateCompose(input, Env(Some(key), None), provider).result == ClassifyReply(reply, DEFAULT_MODEL)
  {
  }

  /** `FencedReply` for the lower-case `yaml` tag. */
  lemma YamlFencedReply(x: string, tokens: int)
    ensures ClassifyReply(TextReply("```yaml\n" + x + "\n```", Some(tokens)), DEFAULT_MODEL)
      == Generated(Trim(x), DEFAULT_MODEL, tokens)
  {
    var tag := "yaml";
    assert ToLowerAscii(tag) == "yaml";
    var content := "```" + tag + "\n" + x + "\n```";
    assert content == "```yaml\n" + x + "\n```";
    FencedReply(tag, x, Some(tokens), DEFAULT_MODEL);
  }

  /**
   * With a key configured and no model override, a valid request answered
   * by a ```` ```yaml ```` fenced document yields that document, trimmed,
   * with the default model and the reported usage.
   */
  lemma FencedRun(request: GenerateRequest, key: string, x: string, tokens: int, provider: ChatRequest -> Reply)
    requires request.templateSlug != "" && request.templateName != "" && key != ""
    requires forall chat :: provider(chat) == TextReply("```yaml\n" + x + "\n```", Some(tokens))
    ensures GenerateCompose(RequestToJs(request), Env(Some(key), None), provider).result
      == Generated(Trim(x), DEFAULT_MODEL, tokens)
  {
    ParseRequestToJs(request);
    ValidRunUsesReply(RequestToJs(request), key, TextReply("```yaml\n" + x + "\n```", Some(tokens)), provider);
    YamlFencedReply(x, tokens);
  }

  /**
   * The vaultwarden request against a provider that answers with a fenced
   * document: the document comes back unwrapped, with the default model and
   * the reported usage.
   */
  lemma VaultwardenScenario(yaml: string, tokens: int, provider: ChatRequest -> Reply)
    requires Trimmed(yaml)
    requires forall chat :: provider(chat) == TextReply("```yaml\n" + yaml + "\n```", Some(tokens))
    ensures
      var request := GenerateRequest("vaultwarden", "Vaultwarden",
        Some("Use vaultwarden/server image. Single container."), [("port", "8222"), ("admin_token", "xyz")]);
      GenerateCompose(RequestToJs(request), Env(Some("sk-example"), None), provider).result
        == Generated(yaml, DEFAULT_MODEL, tokens)
  {
    var request := GenerateRequest("vaultwarden", "Vaultwarden",
      Some("Use vaultwarden/server image. Single container."), [("port", "8222"), ("admin_token", "xyz")]);
    FencedRun(request, "sk-example", yaml, tokens, provider);
  }
}
