/** The configuration manager: defaults, validation, the guarded setters, prompt
    templates, placeholder expansion and the JSON form of the configuration. */
module Config {
  import opened Wrappers
  import opened Strings
  import opened OrderedMap
  import opened Json
  import opened Types

  const DefaultSystemPrompt := "You are a helpful AI voice assistant. You provide clear, concise, and accurate responses. Keep your responses conversational and appropriate for voice interaction."
  const DefaultUserPromptTemplate := "User: {user_input}\n\nContext: {context}\n\nAssistant:"
  const DefaultContextTemplate := "Previous conversation:\n{history}"
  const DefaultEndpoint := "https://api.openai.com/v1/chat/completions"
  const DefaultDatabasePath := "conversations.db"

  // ---------------------------------------------------------------------------
  // Validation

  /** validateLLMConfig. An empty API key only draws a warning. */
  predicate ValidLLMConfig(c: LLMConfig)
  {
    c.provider != "" && c.apiEndpoint != ""
    && !(c.temperature < 0.0 || c.temperature > 2.0)
    && !(c.maxTokens <= 0)
  }

  /** validatePromptConfig. An empty system prompt only draws a warning. */
  predicate ValidPromptConfig(c: PromptConfig)
  {
    !(c.maxHistoryMessages < 0)
  }

  predicate ValidAppConfig(c: AppConfig)
  {
    ValidLLMConfig(c.llm) && ValidPromptConfig(c.prompt)
  }

  /** The API key, the model name and the headers never decide validity; each of the
      four checked conditions alone makes an LLM configuration invalid. */
  lemma LLMValidationRules(c: LLMConfig, key: string, model: string, hs: OMap<string>)
    ensures ValidLLMConfig(c) == ValidLLMConfig(c.(apiKey := key, modelName := model, headers := hs))
    ensures c.provider == "" ==> !ValidLLMConfig(c)
    ensures c.apiEndpoint == "" ==> !ValidLLMConfig(c)
    ensures c.temperature < 0.0 || c.temperature > 2.0 ==> !ValidLLMConfig(c)
    ensures c.maxTokens <= 0 ==> !ValidLLMConfig(c)
    ensures c.provider != "" && c.apiEndpoint != "" && 0.0 <= c.temperature <= 2.0 && c.maxTokens > 0
            ==> ValidLLMConfig(c)
  {
  }

  /** Only a negative history limit makes a prompt configuration invalid. */
  lemma PromptValidationRules(c: PromptConfig, sys: string, user: string, ctx: string)
    ensures ValidPromptConfig(c) <==> c.maxHistoryMessages >= 0
    ensures ValidPromptConfig(c) == ValidPromptConfig(c.(systemPrompt := sys, userPromptTemplate := user, contextTemplate := ctx))
  {
  }

  // ---------------------------------------------------------------------------
  // Defaults and prompt templates

  /** setDefaultLLMConfig applied to `l`: every scalar field reset; the configured
      headers are kept, with Content-Type set to application/json. */
  function DefaultedLLM(l: LLMConfig): LLMConfig
  {
    LLMConfig("openai", DefaultEndpoint, "", "gpt-3.5-turbo", 0.7, 1000,
              Insert(l.headers, "Content-Type", "application/json"))
  }

  /** setDefaultPromptConfig. */
  function DefaultedPrompt(): PromptConfig
  {
    PromptConfig(DefaultSystemPrompt, DefaultUserPromptTemplate, DefaultContextTemplate, 10)
  }

  /** loadDefaultConfig applied to `c`. */
  function Defaulted(c: AppConfig): AppConfig
  {
    c.(llm := DefaultedLLM(c.llm), prompt := DefaultedPrompt(), databasePath := DefaultDatabasePath,
       logLevel := "INFO", enableVoice := true, autoSaveConversations := true)
  }

  /** The defaults pass validation whatever headers were there before, and a fresh
      manager starts with exactly the Content-Type header. */
  lemma DefaultsAreValid(c: AppConfig)
    ensures ValidAppConfig(Defaulted(c))
    ensures Defaulted(DefaultAppConfig()).llm.headers == [("Content-Type", "application/json")]
    ensures Get(Defaulted(c).llm.headers, "Content-Type") == Some("application/json")
  {
  }

  const AvailablePromptTemplates: seq<string> := ["default", "creative", "analytical", "casual", "professional"]

  /** The system prompt loadPromptTemplate installs for a template name. */
  function SystemPromptFor(name: string): (p: string)
    ensures name != "creative" && name != "analytical" && name != "casual" && name != "professional"
            ==> p == DefaultSystemPrompt
  {
    if name == "creative" then
      "You are a creative and imaginative AI assistant. Provide engaging, innovative responses while maintaining accuracy."
    else if name == "analytical" then
      "You are an analytical AI assistant. Provide detailed, logical, and well-structured responses with clear reasoning."
    else if name == "casual" then
      "You are a friendly and casual AI assistant. Keep responses relaxed and conversational, like talking to a friend."
    else if name == "professional" then
      "You are a professional AI assistant. Provide formal, precise, and business-appropriate responses."
    else DefaultSystemPrompt
  }

  // ---------------------------------------------------------------------------
  // Placeholder expansion

  function Placeholder(key: string): (p: string)
    ensures |p| == |key| + 2
  {
    "{" + key + "}"
  }

  /** Left-to-right replacement of every occurrence of pat, resuming the scan after
      the inserted text, so the inserted text is never scanned again. */
  function ReplaceAll(s: string, pat: string, v: string): string
    requires |pat| > 0
    decreases |s|
  {
    match FindFrom(s, pat, 0)
    case None => s
    case Some(i) => s[..i] + (v + ReplaceAll(s[i + |pat|..], pat, v))
  }

  /** Each key in ascending order replaces its placeholder in the text left by the
      keys before it. */
  function ExpandSpec(t: string, vars: OMap<string>): string
    decreases |vars|
  {
    if |vars| == 0 then t
    else
      var tail: OMap<string> := vars[1..];
      ExpandSpec(ReplaceAll(t, Placeholder(vars[0].0), vars[0].1), tail)
  }

  lemma ReplaceAllFound(s: string, pat: string, v: string, i: nat)
    requires |pat| > 0 && FindFrom(s, pat, 0) == Some(i)
    ensures ReplaceAll(s, pat, v) == s[..i] + (v + ReplaceAll(s[i + |pat|..], pat, v))
  {
  }

  /** ReplaceAll from a position where pat occurs first at i. */
  lemma ReplaceAllAt(result: string, pat: string, v: string, pos: nat, i: nat)
    requires |pat| > 0 && pos <= |result| && FindFrom(result, pat, pos) == Some(i)
    ensures ReplaceAll(result[pos..], pat, v) == result[pos..i] + (v + ReplaceAll(result[i + |pat|..], pat, v))
  {
    var suffix := result[pos..];
    var j: nat := i - pos;
    var tail := result[i + |pat|..];
    FindFromShift(result, pat, pos);
    ReplaceAllFound(suffix, pat, v, j);
    SuffixSlices(result, pos, i, |pat|);
    assert suffix[j + |pat|..] == tail;
    assert ReplaceAll(suffix[j + |pat|..], pat, v) == ReplaceAll(tail, pat, v);
  }

  lemma SuffixSlices(s: string, pos: nat, i: nat, n: nat)
    requires pos <= i && i + n <= |s|
    ensures s[pos..][..i - pos] == s[pos..i] && s[pos..][i - pos + n..] == s[i + n..]
  {
  }

  /** One replacement of the expansion loop keeps its invariant. */
  lemma ReplaceStep(result: string, pat: string, v: string, pos: nat, i: nat)
    requires |pat| > 0 && pos <= |result| && FindFrom(result, pat, pos) == Some(i)
    ensures var next := result[..i] + v + result[i + |pat|..];
      i + |v| <= |next|
      && next[..i + |v|] + ReplaceAll(next[i + |v|..], pat, v)
         == result[..pos] + ReplaceAll(result[pos..], pat, v)
  {
    var next := result[..i] + v + result[i + |pat|..];
    var t := ReplaceAll(result[i + |pat|..], pat, v);
    ReplaceAllAt(result, pat, v, pos, i);
    SpliceSlices(result, v, i, |pat|);
    PrefixSplit(result, pos, i);
    Assoc(result[..pos], result[pos..i], v, t);
  }

  lemma SpliceSlices(s: string, v: string, i: nat, n: nat)
    requires i + n <= |s|
    ensures var next := s[..i] + v + s[i + n..];
      next[..i + |v|] == s[..i] + v && next[i + |v|..] == s[i + n..]
  {
  }

  lemma PrefixSplit(s: string, pos: nat, i: nat)
    requires pos <= i <= |s|
    ensures s[..i] == s[..pos] + s[pos..i]
  {
  }

  lemma Assoc(a: string, b: string, c: string, d: string)
    ensures (a + b) + c + d == a + (b + (c + d))
  {
  }

  lemma ExpandSpecStep(t: string, vars: OMap<string>, k: nat)
    requires k < |vars|
    ensures ExpandSpec(t, vars[k..]) == ExpandSpec(ReplaceAll(t, Placeholder(vars[k].0), vars[k].1), vars[k + 1..])
  {
    var rest: OMap<string> := vars[k..];
    assert rest[1..] == vars[k + 1..];
  }

  /** When no occurrence is left after pos, the loop's invariant gives the result. */
  lemma ReplaceDone(result: string, pat: string, v: string, pos: nat)
    requires |pat| > 0 && pos <= |result| && FindFrom(result, pat, pos) == None
    ensures result[..pos] + ReplaceAll(result[pos..], pat, v) == result
  {
    FindFromShift(result, pat, pos);
    assert result[..pos] + result[pos..] == result;
  }

  /** The inner loop of expandTemplate: replace every occurrence of pat, resuming the
      search after the inserted value. */
  method ReplaceLoop(text: string, pat: string, value: string) returns (result: string)
    requires |pat| > 0
    ensures result == ReplaceAll(text, pat, value)
  {
    result := text;
    var pos: nat := 0;
    var found := FindFrom(result, pat, pos);
    while found.Some?
      invariant pos <= |result|
      invariant found == FindFrom(result, pat, pos)
      invariant result[..pos] + ReplaceAll(result[pos..], pat, value) == ReplaceAll(text, pat, value)
      decreases |result| - pos
    {
      var i := found.value;
      var next := result[..i] + value + result[i + |pat|..];
      assert i + |value| <= |next|
        && next[..i + |value|] + ReplaceAll(next[i + |value|..], pat, value) == ReplaceAll(text, pat, value)
      by {
        ReplaceStep(result, pat, value, pos, i);
      }
      result := next;
      pos := i + |value|;
      found := FindFrom(result, pat, pos);
    }
    assert result == ReplaceAll(text, pat, value) by {
      ReplaceDone(result, pat, value, pos);
    }
  }

  /** expandTemplate: for each variable in key order, replace "{key}" scanning left
      to right from the start, resuming after each inserted value. */
  method ExpandTemplate(template: string, vars: OMap<string>) returns (result: string)
    ensures result == ExpandSpec(template, vars)
  {
    result := template;
    var k := 0;
    while k < |vars|
      invariant 0 <= k <= |vars|
      invariant ExpandSpec(result, vars[k..]) == ExpandSpec(template, vars)
    {
      var key := vars[k].0;
      var value := vars[k].1;
      var placeholder := "{" + key + "}";
      ghost var before := result;
      result := ReplaceLoop(result, placeholder, value);
      ExpandSpecStep(before, vars, k);
      k := k + 1;
    }
    assert vars[k..] == [];
  }

  /** Text without any occurrence of pat is left as it is. */
  lemma ReplaceAllAbsent(s: string, pat: string, v: string)
    requires |pat| > 0 && !Contains(s, pat)
    ensures ReplaceAll(s, pat, v) == s
  {
    FindFromSpec(s, pat, 0);
  }

  /** A placeholder whose value is the placeholder itself leaves the text unchanged:
      each occurrence is replaced once and the scan resumes after it. */
  lemma {:induction false} ReplaceAllSelf(s: string, pat: string)
    requires |pat| > 0
    ensures ReplaceAll(s, pat, pat) == s
    decreases |s|
  {
    FindFromSpec(s, pat, 0);
    match FindFrom(s, pat, 0)
    case None =>
    case Some(i) =>
      ReplaceAllSelf(s[i + |pat|..], pat);
      assert s == s[..i] + s[i..i + |pat|] + s[i + |pat|..];
  }

  /** Expansion is the identity when no "{key}" occurs in the template (in particular
      when there are no variables). */
  lemma {:induction false} ExpandIdentity(t: string, vars: OMap<string>)
    requires forall k :: 0 <= k < |vars| ==> !Contains(t, Placeholder(vars[k].0))
    ensures ExpandSpec(t, vars) == t
  {
    if |vars| > 0 {
      ReplaceAllAbsent(t, Placeholder(vars[0].0), vars[0].1);
      var tail: OMap<string> := vars[1..];
      assert forall k :: 0 <= k < |tail| ==> tail[k] == vars[k + 1];
      ExpandIdentity(t, tail);
    }
  }

  /** A variable whose value is its own placeholder does not change the text. */
  lemma {:induction false} ExpandSelfValued(t: string, key: string)
    ensures ExpandSpec(t, [(key, Placeholder(key))]) == t
  {
    var vars: OMap<string> := [(key, Placeholder(key))];
    ReplaceAllSelf(t, Placeholder(key));
    var tail: OMap<string> := vars[1..];
    assert tail == [];
  }

  /** "{x}-{x}" with x = "a" expands to "a-a": every occurrence is replaced. */
  lemma ExpandBothOccurrences()
    ensures ExpandSpec("{x}-{x}", [("x", "a")]) == "a-a"
  {
    var vars: OMap<string> := [("x", "a")];
    var tail: OMap<string> := vars[1..];
    assert tail == [];
    var p := Placeholder("x");
    assert p == "{x}";
    FindFromIs("{x}-{x}", p, 0, 0);
    assert "{x}-{x}"[3..] == "-{x}";
    FindFromIs("-{x}", p, 0, 1);
    assert "-{x}"[4..] == "";
    assert ReplaceAll("", p, "a") == "";
  }

  /** Keys are processed in ascending order, so a later key's placeholder introduced
      by an earlier key's value is expanded too. */
  lemma ExpandKeyOrder()
    ensures ExpandSpec("{a}", [("a", "{b}"), ("b", "B")]) == "B"
  {
    var vars: OMap<string> := [("a", "{b}"), ("b", "B")];
    var pa := Placeholder("a");
    var pb := Placeholder("b");
    assert pa == "{a}" && pb == "{b}";
    FindFromIs("{a}", pa, 0, 0);
    assert "{a}"[3..] == "";
    assert ReplaceAll("", pa, "{b}") == "";
    assert ReplaceAll("{a}", pa, "{b}") == "{b}";
    FindFromIs("{b}", pb, 0, 0);
    assert "{b}"[3..] == "";
    assert ReplaceAll("", pb, "B") == "";
    var tail: OMap<string> := vars[1..];
    var tail2: OMap<string> := tail[1..];
    assert tail2 == [];
  }

  // ---------------------------------------------------------------------------
  // JSON form

  /** The assignments toJson makes under "llm", in order; `hs` is the headers
      object. */
  function LLMPairs(l: LLMConfig, hs: Json): seq<(string, Json)>
  {
    [("provider", JStr(l.provider)), ("api_endpoint", JStr(l.apiEndpoint)), ("api_key", JStr(l.apiKey)),
     ("model_name", JStr(l.modelName)), ("temperature", JFloat(l.temperature)),
     ("max_tokens", JInt(l.maxTokens)), ("headers", hs)]
  }

  /** The assignments toJson makes under "prompt", in order. */
  function PromptPairs(p: PromptConfig): seq<(string, Json)>
  {
    [("system_prompt", JStr(p.systemPrompt)), ("user_prompt_template", JStr(p.userPromptTemplate)),
     ("context_template", JStr(p.contextTemplate)), ("max_history_messages", JInt(p.maxHistoryMessages))]
  }

  /** The top-level assignments of toJson, in order; `llm` and `prompt` are the two
      section objects. */
  function TopPairs(c: AppConfig, llm: Json, prompt: Json): seq<(string, Json)>
  {
    [("llm", llm), ("prompt", prompt),
     ("database_path", JStr(c.databasePath)), ("log_level", JStr(c.logLevel)),
     ("enable_voice", JBool(c.enableVoice)), ("auto_save_conversations", JBool(c.autoSaveConversations))]
  }

  function LLMJson(l: LLMConfig): Json
  {
    SetAll(LLMPairs(l, FromStringMap(l.headers)))
  }

  function PromptJson(p: PromptConfig): Json
  {
    SetAll(PromptPairs(p))
  }

  /** toJson. */
  function ToJsonValue(c: AppConfig): Json
  {
    SetAll(TopPairs(c, LLMJson(c.llm), PromptJson(c.prompt)))
  }

  /** j is an object holding the llm fields of l as toJson writes them. */
  predicate HoldsLLM(j: Json, l: LLMConfig)
  {
    j.JObj?
    && Get(j.fields, "provider") == Some(JStr(l.provider))
    && Get(j.fields, "api_endpoint") == Some(JStr(l.apiEndpoint))
    && Get(j.fields, "api_key") == Some(JStr(l.apiKey))
    && Get(j.fields, "model_name") == Some(JStr(l.modelName))
    && Get(j.fields, "temperature") == Some(JFloat(l.temperature))
    && Get(j.fields, "max_tokens") == Some(JInt(l.maxTokens))
    && Get(j.fields, "headers") == Some(FromStringMap(l.headers))
  }

  /** j is an object holding the prompt fields of p as toJson writes them. */
  predicate HoldsPrompt(j: Json, p: PromptConfig)
  {
    j.JObj?
    && Get(j.fields, "system_prompt") == Some(JStr(p.systemPrompt))
    && Get(j.fields, "user_prompt_template") == Some(JStr(p.userPromptTemplate))
    && Get(j.fields, "context_template") == Some(JStr(p.contextTemplate))
    && Get(j.fields, "max_history_messages") == Some(JInt(p.maxHistoryMessages))
  }

  /** j is a document holding every field of c as toJson writes them. */
  predicate HoldsApp(j: Json, c: AppConfig)
  {
    j.JObj?
    && Has(j, "llm") && HoldsLLM(Member(j, "llm"), c.llm)
    && Has(j, "prompt") && HoldsPrompt(Member(j, "prompt"), c.prompt)
    && HoldsGeneral(j, c)
  }

  lemma LLMKeysDistinct(l: LLMConfig, hs: Json)
    ensures DistinctKeys(LLMPairs(l, hs))
  {
  }

  /** The pairs of the llm object can be read back one by one. */
  lemma LLMPairsFields(l: LLMConfig, hs: Json)
    ensures var j := SetAll(LLMPairs(l, hs));
      j.JObj?
      && Get(j.fields, "provider") == Some(JStr(l.provider))
      && Get(j.fields, "api_endpoint") == Some(JStr(l.apiEndpoint))
      && Get(j.fields, "api_key") == Some(JStr(l.apiKey))
      && Get(j.fields, "model_name") == Some(JStr(l.modelName))
      && Get(j.fields, "temperature") == Some(JFloat(l.temperature))
      && Get(j.fields, "max_tokens") == Some(JInt(l.maxTokens))
      && Get(j.fields, "headers") == Some(hs)
  {
    var ps := LLMPairs(l, hs);
    LLMKeysDistinct(l, hs);
    SetAllGet(ps, 0);
    SetAllGet(ps, 1);
    SetAllGet(ps, 2);
    SetAllGet(ps, 3);
    SetAllGet(ps, 4);
    SetAllGet(ps, 5);
    SetAllGet(ps, 6);
  }

  /** The llm object of toJson holds every llm field. */
  lemma LLMJsonFields(l: LLMConfig)
    ensures HoldsLLM(LLMJson(l), l)
  {
    LLMPairsFields(l, FromStringMap(l.headers));
  }

  lemma PromptKeysDistinct(p: PromptConfig)
    ensures DistinctKeys(PromptPairs(p))
  {
  }

  /** The prompt object of toJson holds every prompt field. */
  lemma PromptJsonFields(p: PromptConfig)
    ensures HoldsPrompt(PromptJson(p), p)
  {
    var ps := PromptPairs(p);
    PromptKeysDistinct(p);
    SetAllGet(ps, 0);
    SetAllGet(ps, 1);
    SetAllGet(ps, 2);
    SetAllGet(ps, 3);
  }

  lemma TopKeysDistinct(c: AppConfig, llm: Json, prompt: Json)
    ensures DistinctKeys(TopPairs(c, llm, prompt))
  {
  }

  /** The top-level pairs can be read back one by one. */
  lemma TopPairsFields(c: AppConfig, llm: Json, prompt: Json)
    ensures var j := SetAll(TopPairs(c, llm, prompt));
      j.JObj?
      && Get(j.fields, "llm") == Some(llm)
      && Get(j.fields, "prompt") == Some(prompt)
      && Get(j.fields, "database_path") == Some(JStr(c.databasePath))
      && Get(j.fields, "log_level") == Some(JStr(c.logLevel))
      && Get(j.fields, "enable_voice") == Some(JBool(c.enableVoice))
      && Get(j.fields, "auto_save_conversations") == Some(JBool(c.autoSaveConversations))
  {
    var ps := TopPairs(c, llm, prompt);
    TopKeysDistinct(c, llm, prompt);
    SetAllGet(ps, 0);
    SetAllGet(ps, 1);
    SetAllGet(ps, 2);
    SetAllGet(ps, 3);
    SetAllGet(ps, 4);
    SetAllGet(ps, 5);
  }

  /** toJson writes every field of the configuration. */
  lemma ToJsonFields(c: AppConfig)
    ensures HoldsApp(ToJsonValue(c), c)
  {
    TopPairsFields(c, LLMJson(c.llm), PromptJson(c.prompt));
    LLMJsonFields(c.llm);
    PromptJsonFields(c.prompt);
  }

  /** The assignments fromJson performs, grouped by the object each one reads. */
  datatype LLMField = Provider | ApiEndpoint | ApiKey | ModelName | Temperature | MaxTokens | Headers
  datatype PromptField = SystemPrompt | UserPromptTemplate | ContextTemplate | MaxHistoryMessages
  datatype GeneralField = DatabasePath | LogLevel | EnableVoice | AutoSave

  const LLMScalars: seq<LLMField> := [Provider, ApiEndpoint, ApiKey, ModelName, Temperature, MaxTokens]
  const PromptFields: seq<PromptField> := [SystemPrompt, UserPromptTemplate, ContextTemplate, MaxHistoryMessages]
  const GeneralFields: seq<GeneralField> := [DatabasePath, LogLevel, EnableVoice, AutoSave]

  /** The llm assignments, in source order: headers only when the block has them. */
  function LLMFieldsOf(sec: Json): seq<LLMField>
  {
    LLMScalars + if Has(sec, "headers") then [Headers] else []
  }

  /** One assignment of the llm block, reading the "llm" object sec. */
  function ApplyLLM(l: LLMConfig, sec: Json, f: LLMField): Outcome<LLMConfig>
  {
    match f
    case Provider => var v :- ValueOr(sec, "provider", "openai", AsString); Ok(l.(provider := v))
    case ApiEndpoint => var v :- ValueOr(sec, "api_endpoint", "", AsString); Ok(l.(apiEndpoint := v))
    case ApiKey => var v :- ValueOr(sec, "api_key", "", AsString); Ok(l.(apiKey := v))
    case ModelName => var v :- ValueOr(sec, "model_name", "gpt-3.5-turbo", AsString); Ok(l.(modelName := v))
    case Temperature => var v :- ValueOr(sec, "temperature", 0.7, AsReal); Ok(l.(temperature := v))
    case MaxTokens => var v :- ValueOr(sec, "max_tokens", 1000, AsInt); Ok(l.(maxTokens := v))
    case Headers => var v :- AsStringMap(Member(sec, "headers")); Ok(l.(headers := v))
  }

  /** One assignment of the prompt block, reading the "prompt" object sec. */
  function ApplyPrompt(p: PromptConfig, sec: Json, f: PromptField): Outcome<PromptConfig>
  {
    match f
    case SystemPrompt =>
      var v :- ValueOr(sec, "system_prompt", DefaultSystemPrompt, AsString); Ok(p.(systemPrompt := v))
    case UserPromptTemplate =>
      var v :- ValueOr(sec, "user_prompt_template", DefaultUserPromptTemplate, AsString);
      Ok(p.(userPromptTemplate := v))
    case ContextTemplate =>
      var v :- ValueOr(sec, "context_template", DefaultContextTemplate, AsString); Ok(p.(contextTemplate := v))
    case MaxHistoryMessages =>
      var v :- ValueOr(sec, "max_history_messages", 10, AsInt); Ok(p.(maxHistoryMessages := v))
  }

  /** One assignment of the general fields, reading the document itself. */
  function ApplyGeneral(c: AppConfig, j: Json, f: GeneralField): Outcome<AppConfig>
  {
    match f
    case DatabasePath => var v :- ValueOr(j, "database_path", DefaultDatabasePath, AsString); Ok(c.(databasePath := v))
    case LogLevel => var v :- ValueOr(j, "log_level", "INFO", AsString); Ok(c.(logLevel := v))
    case EnableVoice => var v :- ValueOr(j, "enable_voice", true, AsBool); Ok(c.(enableVoice := v))
    case AutoSave => var v :- ValueOr(j, "auto_save_conversations", true, AsBool); Ok(c.(autoSaveConversations := v))
  }

  /** The llm assignments one after another; the first exception stops them and the
      assignments already made persist. */
  function RunLLM(l: LLMConfig, sec: Json, fs: seq<LLMField>): (LLMConfig, Option<string>)
    decreases |fs|
  {
    if |fs| == 0 then (l, None)
    else match ApplyLLM(l, sec, fs[0])
      case Throw(w) => (l, Some(w))
      case Ok(l1) => RunLLM(l1, sec, fs[1..])
  }

  /** The prompt assignments one after another, stopping at the first exception. */
  function RunPrompt(p: PromptConfig, sec: Json, fs: seq<PromptField>): (PromptConfig, Option<string>)
    decreases |fs|
  {
    if |fs| == 0 then (p, None)
    else match ApplyPrompt(p, sec, fs[0])
      case Throw(w) => (p, Some(w))
      case Ok(p1) => RunPrompt(p1, sec, fs[1..])
  }

  /** The general assignments one after another, stopping at the first exception. */
  function RunGeneral(c: AppConfig, j: Json, fs: seq<GeneralField>): (AppConfig, Option<string>)
    decreases |fs|
  {
    if |fs| == 0 then (c, None)
    else match ApplyGeneral(c, j, fs[0])
      case Throw(w) => (c, Some(w))
      case Ok(c1) => RunGeneral(c1, j, fs[1..])
  }

  /** fromJson: the llm block when j has "llm", the prompt block when j has "prompt",
      then the general fields; an exception stops everything after it, and the
      result pairs the configuration reached with the exception's what(). */
  function FromJsonSpec(c: AppConfig, j: Json): (AppConfig, Option<string>)
  {
    var llm := if Has(j, "llm") then RunLLM(c.llm, Member(j, "llm"), LLMFieldsOf(Member(j, "llm")))
               else (c.llm, None);
    var c1 := c.(llm := llm.0);
    if llm.1.Some? then (c1, llm.1)
    else
      var prompt := if Has(j, "prompt") then RunPrompt(c.prompt, Member(j, "prompt"), PromptFields)
                    else (c.prompt, None);
      var c2 := c1.(prompt := prompt.0);
      if prompt.1.Some? then (c2, prompt.1)
      else RunGeneral(c2, j, GeneralFields)
  }

  /** An llm block whose "temperature" is a boolean. */
  function BoolTemperatureBlock(): (j: Json)
    ensures j.JObj? && Get(j.fields, "temperature") == Some(JBool(true))
    ensures Get(j.fields, "provider") == Some(JStr("openai"))
    ensures !HasKey(j.fields, "api_endpoint") && !HasKey(j.fields, "api_key")
    ensures !HasKey(j.fields, "model_name") && !HasKey(j.fields, "headers")
  {
    JObj([("provider", JStr("openai")), ("temperature", JBool(true))])
  }

  /** A successful assignment hands over to the rest of the llm block. */
  lemma RunLLMOk(l: LLMConfig, sec: Json, fs: seq<LLMField>, l1: LLMConfig)
    requires |fs| > 0 && ApplyLLM(l, sec, fs[0]) == Ok(l1)
    ensures RunLLM(l, sec, fs) == RunLLM(l1, sec, fs[1..])
  {
  }

  /** The four string assignments on BoolTemperatureBlock. */
  lemma BoolTemperatureStrings(l: LLMConfig)
    ensures ApplyLLM(l, BoolTemperatureBlock(), Provider) == Ok(l.(provider := "openai"))
    ensures ApplyLLM(l, BoolTemperatureBlock(), ApiEndpoint) == Ok(l.(apiEndpoint := ""))
    ensures ApplyLLM(l, BoolTemperatureBlock(), ApiKey) == Ok(l.(apiKey := ""))
    ensures ApplyLLM(l, BoolTemperatureBlock(), ModelName) == Ok(l.(modelName := "gpt-3.5-turbo"))
  {
  }

  /** The temperature assignment on BoolTemperatureBlock throws. */
  lemma BoolTemperatureStep(l: LLMConfig)
    ensures ApplyLLM(l, BoolTemperatureBlock(), Temperature) == Throw(TypeError302 + "type must be number, but is boolean")
  {
    assert TypeName(JBool(true)) == "boolean";
  }

  /** In the llm block, a boolean "temperature" throws: the four string fields before
      it stay assigned, and nothing after it is read. */
  lemma BoolTemperatureRun(l: LLMConfig)
    ensures RunLLM(l, BoolTemperatureBlock(), LLMScalars) ==
      (l.(provider := "openai", apiEndpoint := "", apiKey := "", modelName := "gpt-3.5-turbo"),
       Some(TypeError302 + "type must be number, but is boolean"))
  {
    var sec := BoolTemperatureBlock();
    var l1 := l.(provider := "openai");
    var l2 := l1.(apiEndpoint := "");
    var l3 := l2.(apiKey := "");
    var l4 := l3.(modelName := "gpt-3.5-turbo");
    var fs := LLMScalars;
    BoolTemperatureStrings(l);
    BoolTemperatureStrings(l1);
    BoolTemperatureStrings(l2);
    BoolTemperatureStrings(l3);
    BoolTemperatureStep(l4);
    RunLLMOk(l, sec, fs, l1);
    RunLLMOk(l1, sec, fs[1..], l2);
    RunLLMOk(l2, sec, fs[2..], l3);
    RunLLMOk(l3, sec, fs[3..], l4);
    assert fs[1..][1..] == fs[2..] && fs[2..][1..] == fs[3..] && fs[3..][1..] == fs[4..];
    assert fs[4..][0] == Temperature;
  }

  /** fromJson on {"llm": BoolTemperatureBlock} throws type_error.302 after assigning
      the four string fields; the prompt block and the general fields are not read. */
  lemma BoolTemperatureThrows(c: AppConfig)
    ensures FromJsonSpec(c, JObj([("llm", BoolTemperatureBlock())])) ==
      (c.(llm := c.llm.(provider := "openai", apiEndpoint := "", apiKey := "", modelName := "gpt-3.5-turbo")),
       Some(TypeError302 + "type must be number, but is boolean"))
  {
    var j := JObj([("llm", BoolTemperatureBlock())]);
    assert Get(j.fields, "llm") == Some(BoolTemperatureBlock());
    assert LLMFieldsOf(BoolTemperatureBlock()) == LLMScalars;
    BoolTemperatureRun(c.llm);
  }

  /** A document that is not an object changes nothing and throws (value() on it). */
  lemma FromJsonNonObject(c: AppConfig, j: Json)
    requires !j.JObj?
    ensures FromJsonSpec(c, j).0 == c && FromJsonSpec(c, j).1.Some?
  {
    assert ApplyGeneral(c, j, DatabasePath).Throw?;
  }

  /** An empty object resets the general fields to their fromJson defaults and leaves
      the llm and prompt sections alone. */
  lemma FromJsonEmptyObject(c: AppConfig)
    ensures FromJsonSpec(c, JObj([])) ==
      (c.(databasePath := DefaultDatabasePath, logLevel := "INFO", enableVoice := true,
          autoSaveConversations := true), None)
  {
    var j := JObj([]);
    var q := c.(databasePath := DefaultDatabasePath, logLevel := "INFO", enableVoice := true,
                autoSaveConversations := true);
    forall c1, f ensures ApplyGeneral(c1, j, f) == Ok(TakeGeneral(c1, q, f)) {
    }
    RunGeneralTakes(c, q, j, GeneralFields);
    TakeAllGeneralComplete(c, q);
  }

  /** l with field f copied from q. */
  function TakeLLM(l: LLMConfig, q: LLMConfig, f: LLMField): LLMConfig
  {
    match f
    case Provider => l.(provider := q.provider)
    case ApiEndpoint => l.(apiEndpoint := q.apiEndpoint)
    case ApiKey => l.(apiKey := q.apiKey)
    case ModelName => l.(modelName := q.modelName)
    case Temperature => l.(temperature := q.temperature)
    case MaxTokens => l.(maxTokens := q.maxTokens)
    case Headers => l.(headers := q.headers)
  }

  function TakeAllLLM(l: LLMConfig, q: LLMConfig, fs: seq<LLMField>): LLMConfig
    decreases |fs|
  {
    if |fs| == 0 then l else TakeAllLLM(TakeLLM(l, q, fs[0]), q, fs[1..])
  }

  /** On an object holding q's llm fields, each assignment copies its field of q. */
  lemma LLMStepHolds(l: LLMConfig, q: LLMConfig, sec: Json, f: LLMField)
    requires HoldsLLM(sec, q)
    ensures ApplyLLM(l, sec, f) == Ok(TakeLLM(l, q, f))
  {
    if f == Headers {
      StringMapRoundTrip(q.headers);
    }
  }

  /** On an object holding q's llm fields, the assignments fs copy those fields of q
      and none throws. */
  lemma {:induction false} RunLLMHolds(l: LLMConfig, q: LLMConfig, sec: Json, fs: seq<LLMField>)
    requires HoldsLLM(sec, q)
    ensures RunLLM(l, sec, fs) == (TakeAllLLM(l, q, fs), None)
    decreases |fs|
  {
    if |fs| > 0 {
      LLMStepHolds(l, q, sec, fs[0]);
      RunLLMHolds(TakeLLM(l, q, fs[0]), q, sec, fs[1..]);
    }
  }

  /** p with field f copied from q. */
  function TakePrompt(p: PromptConfig, q: PromptConfig, f: PromptField): PromptConfig
  {
    match f
    case SystemPrompt => p.(systemPrompt := q.systemPrompt)
    case UserPromptTemplate => p.(userPromptTemplate := q.userPromptTemplate)
    case ContextTemplate => p.(contextTemplate := q.contextTemplate)
    case MaxHistoryMessages => p.(maxHistoryMessages := q.maxHistoryMessages)
  }

  function TakeAllPrompt(p: PromptConfig, q: PromptConfig, fs: seq<PromptField>): PromptConfig
    decreases |fs|
  {
    if |fs| == 0 then p else TakeAllPrompt(TakePrompt(p, q, fs[0]), q, fs[1..])
  }

  /** On an object holding q's prompt fields, each assignment copies its field of q. */
  lemma PromptStepHolds(p: PromptConfig, q: PromptConfig, sec: Json, f: PromptField)
    requires HoldsPrompt(sec, q)
    ensures ApplyPrompt(p, sec, f) == Ok(TakePrompt(p, q, f))
  {
  }

  /** On an object holding q's prompt fields, the assignments fs copy those fields of
      q and none throws. */
  lemma {:induction false} RunPromptHolds(p: PromptConfig, q: PromptConfig, sec: Json, fs: seq<PromptField>)
    requires HoldsPrompt(sec, q)
    ensures RunPrompt(p, sec, fs) == (TakeAllPrompt(p, q, fs), None)
    decreases |fs|
  {
    if |fs| > 0 {
      PromptStepHolds(p, q, sec, fs[0]);
      RunPromptHolds(TakePrompt(p, q, fs[0]), q, sec, fs[1..]);
    }
  }

  /** c with general field f copied from q. */
  function TakeGeneral(c: AppConfig, q: AppConfig, f: GeneralField): AppConfig
  {
    match f
    case DatabasePath => c.(databasePath := q.databasePath)
    case LogLevel => c.(logLevel := q.logLevel)
    case EnableVoice => c.(enableVoice := q.enableVoice)
    case AutoSave => c.(autoSaveConversations := q.autoSaveConversations)
  }

  function TakeAllGeneral(c: AppConfig, q: AppConfig, fs: seq<GeneralField>): AppConfig
    decreases |fs|
  {
    if |fs| == 0 then c else TakeAllGeneral(TakeGeneral(c, q, fs[0]), q, fs[1..])
  }

  /** j holds q's general fields as toJson writes them. */
  predicate HoldsGeneral(j: Json, q: AppConfig)
  {
    j.JObj?
    && Get(j.fields, "database_path") == Some(JStr(q.databasePath))
    && Get(j.fields, "log_level") == Some(JStr(q.logLevel))
    && Get(j.fields, "enable_voice") == Some(JBool(q.enableVoice))
    && Get(j.fields, "auto_save_conversations") == Some(JBool(q.autoSaveConversations))
  }

  lemma GeneralStepHolds(c: AppConfig, q: AppConfig, j: Json, f: GeneralField)
    requires HoldsGeneral(j, q)
    ensures ApplyGeneral(c, j, f) == Ok(TakeGeneral(c, q, f))
  {
  }

  /** When every general assignment on j copies its field of q, the assignments fs
      copy those fields of q and none throws. */
  lemma {:induction false} RunGeneralTakes(c: AppConfig, q: AppConfig, j: Json, fs: seq<GeneralField>)
    requires forall c1, f :: ApplyGeneral(c1, j, f) == Ok(TakeGeneral(c1, q, f))
    ensures RunGeneral(c, j, fs) == (TakeAllGeneral(c, q, fs), None)
    decreases |fs|
  {
    if |fs| > 0 {
      RunGeneralTakes(TakeGeneral(c, q, fs[0]), q, j, fs[1..]);
    }
  }

  /** Copying every llm field, headers included, copies the whole llm block. */
  lemma TakeAllLLMComplete(l: LLMConfig, q: LLMConfig)
    ensures TakeAllLLM(l, q, LLMScalars + [Headers]) == q
  {
    var fs := LLMScalars + [Headers];
    var l1 := l.(provider := q.provider);
    var l2 := l1.(apiEndpoint := q.apiEndpoint);
    var l3 := l2.(apiKey := q.apiKey);
    var l4 := l3.(modelName := q.modelName);
    var l5 := l4.(temperature := q.temperature);
    var l6 := l5.(maxTokens := q.maxTokens);
    var l7 := l6.(headers := q.headers);
    assert fs[6..][1..] == [];
    assert TakeAllLLM(l6, q, fs[6..]) == l7;
    assert fs[5..][1..] == fs[6..];
    assert TakeAllLLM(l5, q, fs[5..]) == l7;
    assert fs[4..][1..] == fs[5..];
    assert TakeAllLLM(l4, q, fs[4..]) == l7;
    assert fs[3..][1..] == fs[4..];
    assert TakeAllLLM(l3, q, fs[3..]) == l7;
    assert fs[2..][1..] == fs[3..];
    assert TakeAllLLM(l2, q, fs[2..]) == l7;
    assert fs[1..][1..] == fs[2..];
    assert TakeAllLLM(l1, q, fs[1..]) == l7;
  }

  /** Copying every prompt field copies the whole prompt block. */
  lemma TakeAllPromptComplete(p: PromptConfig, q: PromptConfig)
    ensures TakeAllPrompt(p, q, PromptFields) == q
  {
    var fs := PromptFields;
    assert fs[1..][1..][1..][1..] == [];
  }

  /** Copying every general field onto a configuration that already has q's llm and
      prompt blocks gives q. */
  lemma TakeAllGeneralComplete(c: AppConfig, q: AppConfig)
    requires c.llm == q.llm && c.prompt == q.prompt
    ensures TakeAllGeneral(c, q, GeneralFields) == q
  {
    var fs := GeneralFields;
    assert fs[1..][1..][1..][1..] == [];
  }

  /** The llm block of fromJson on an object holding l's fields yields l. */
  lemma ReadBackLLM(l0: LLMConfig, l: LLMConfig, sec: Json)
    requires HoldsLLM(sec, l)
    ensures RunLLM(l0, sec, LLMFieldsOf(sec)) == (l, None)
  {
    assert Has(sec, "headers");
    assert LLMFieldsOf(sec) == LLMScalars + [Headers];
    RunLLMHolds(l0, l, sec, LLMScalars + [Headers]);
    TakeAllLLMComplete(l0, l);
  }

  /** The prompt block of fromJson on an object holding p's fields yields p. */
  lemma ReadBackPrompt(p0: PromptConfig, p: PromptConfig, sec: Json)
    requires HoldsPrompt(sec, p)
    ensures RunPrompt(p0, sec, PromptFields) == (p, None)
  {
    RunPromptHolds(p0, p, sec, PromptFields);
    TakeAllPromptComplete(p0, p);
  }

  /** The general fields of fromJson on a document holding c's, applied once both
      blocks have been read, yield c. */
  lemma ReadBackGeneral(c2: AppConfig, c: AppConfig, j: Json)
    requires HoldsGeneral(j, c) && c2.llm == c.llm && c2.prompt == c.prompt
    ensures RunGeneral(c2, j, GeneralFields) == (c, None)
  {
    forall c1, f ensures ApplyGeneral(c1, j, f) == Ok(TakeGeneral(c1, c, f)) {
      GeneralStepHolds(c1, c, j, f);
    }
    RunGeneralTakes(c2, c, j, GeneralFields);
    TakeAllGeneralComplete(c2, c);
  }

  /** fromJson on any document holding every field of c (as toJson writes them)
      yields c, whatever the configuration was before, and nothing throws. */
  lemma ReadBack(c0: AppConfig, c: AppConfig, j: Json)
    requires HoldsApp(j, c)
    ensures FromJsonSpec(c0, j) == (c, None)
  {
    ReadBackLLM(c0.llm, c.llm, Member(j, "llm"));
    ReadBackPrompt(c0.prompt, c.prompt, Member(j, "prompt"));
    var c2 := c0.(llm := c.llm, prompt := c.prompt);
    ReadBackGeneral(c2, c, j);
    FromJsonSteps(c0, j, c.llm, c.prompt);
  }

  /** fromJson when both blocks are present and read without throwing. */
  lemma FromJsonSteps(c0: AppConfig, j: Json, llm: LLMConfig, prompt: PromptConfig)
    requires Has(j, "llm") && RunLLM(c0.llm, Member(j, "llm"), LLMFieldsOf(Member(j, "llm"))) == (llm, None)
    requires Has(j, "prompt") && RunPrompt(c0.prompt, Member(j, "prompt"), PromptFields) == (prompt, None)
    ensures FromJsonSpec(c0, j) == RunGeneral(c0.(llm := llm, prompt := prompt), j, GeneralFields)
  {
    assert c0.(llm := llm).(prompt := prompt) == c0.(llm := llm, prompt := prompt);
  }

  /** Reading back what toJson wrote restores every modelled field, and nothing
      throws. */
  lemma JsonRoundTrip(c0: AppConfig, c: AppConfig)
    ensures FromJsonSpec(c0, ToJsonValue(c)) == (c, None)
  {
    var j := ToJsonValue(c);
    assert HoldsApp(j, c) by {
      ToJsonFields(c);
    }
    ReadBack(c0, c, j);
  }

  // ---------------------------------------------------------------------------
  // The manager

  class ConfigManager {
    var app: AppConfig

    /** A new manager holds the defaults. */
    constructor ()
      ensures app == Defaulted(DefaultAppConfig())
      ensures ValidAppConfig(app)
    {
      app := DefaultAppConfig();
      new;
      LoadDefaultConfig();
      DefaultsAreValid(DefaultAppConfig());
    }

    method SetDefaultLLMConfig()
      modifies this
      ensures app == old(app).(llm := DefaultedLLM(old(app.llm)))
    {
      app := app.(llm := app.llm.(provider := "openai"));
      app := app.(llm := app.llm.(apiEndpoint := DefaultEndpoint));
      app := app.(llm := app.llm.(apiKey := ""));
      app := app.(llm := app.llm.(modelName := "gpt-3.5-turbo"));
      app := app.(llm := app.llm.(temperature := 0.7));
      app := app.(llm := app.llm.(maxTokens := 1000));
      app := app.(llm := app.llm.(headers := Insert(app.llm.headers, "Content-Type", "application/json")));
    }

    method SetDefaultPromptConfig()
      modifies this
      ensures app == old(app).(prompt := DefaultedPrompt())
    {
      app := app.(prompt := PromptConfig(DefaultSystemPrompt, DefaultUserPromptTemplate, DefaultContextTemplate, 10));
    }

    /** loadDefaultConfig: resets every field except the configured headers, which
        keep their other entries. */
    method LoadDefaultConfig()
      modifies this
      ensures app == Defaulted(old(app))
      ensures ValidAppConfig(app)
    {
      SetDefaultLLMConfig();
      SetDefaultPromptConfig();
      app := app.(databasePath := DefaultDatabasePath, logLevel := "INFO", enableVoice := true,
                  autoSaveConversations := true);
      DefaultsAreValid(old(app));
    }

    predicate ValidateConfig()
      reads this
    {
      ValidAppConfig(app)
    }

    /** setLLMConfig: stores the configuration only when it validates. */
    method SetLLMConfig(c: LLMConfig)
      modifies this
      ensures ValidLLMConfig(c) ==> app == old(app).(llm := c)
      ensures !ValidLLMConfig(c) ==> app == old(app)
      ensures old(ValidAppConfig(app)) ==> ValidAppConfig(app)
    {
      if ValidLLMConfig(c) {
        app := app.(llm := c);
      }
    }

    /** setPromptConfig: stores the configuration only when it validates. */
    method SetPromptConfig(c: PromptConfig)
      modifies this
      ensures ValidPromptConfig(c) ==> app == old(app).(prompt := c)
      ensures !ValidPromptConfig(c) ==> app == old(app)
      ensures old(ValidAppConfig(app)) ==> ValidAppConfig(app)
    {
      if ValidPromptConfig(c) {
        app := app.(prompt := c);
      }
    }

    /** loadPromptTemplate: always succeeds and changes only the system prompt. */
    method LoadPromptTemplate(name: string) returns (ok: bool)
      modifies this
      ensures ok
      ensures app == old(app).(prompt := old(app.prompt).(systemPrompt := SystemPromptFor(name)))
    {
      app := app.(prompt := app.prompt.(systemPrompt := SystemPromptFor(name)));
      ok := true;
    }

    /** toJson. */
    function ToJson(): Json
      reads this
    {
      ToJsonValue(app)
    }

    /** fromJson: the assignments up to the first exception take effect; the
        exception's text is returned. */
    method FromJson(j: Json) returns (thrown: Option<string>)
      modifies this
      ensures (app, thrown) == FromJsonSpec(old(app), j)
    {
      var r := FromJsonSpec(app, j);
      app := r.0;
      thrown := r.1;
    }

    /** loadConfig on the file's contents (None when the file cannot be opened):
        true only when the document parses, fromJson does not throw, and the result
        validates. A failed validation or a throw keeps what fromJson assigned. */
    method LoadConfig(file: Option<Body>) returns (ok: bool)
      modifies this
      ensures file.None? || file.value.Unparsable? ==> !ok && app == old(app)
      ensures file.Some? && file.value.Parsed? ==>
        var (c, thrown) := FromJsonSpec(old(app), file.value.doc);
        app == c && (ok <==> thrown.None? && ValidAppConfig(c))
    {
      if file.None? {
        return false;
      }
      match file.value
      case Unparsable(_) =>
        return false;
      case Parsed(doc) =>
        var thrown := FromJson(doc);
        if thrown.Some? {
          return false;
        }
        ok := ValidateConfig();
    }
  }

  /** Saving a valid configuration and loading it back succeeds and restores it. */
  method SaveThenLoad(c: AppConfig) returns (ok: bool, loaded: AppConfig)
    requires ValidAppConfig(c)
    ensures ok && loaded == c
  {
    var m := new ConfigManager();
    JsonRoundTrip(m.app, c);
    ok := m.LoadConfig(Some(Parsed(ToJsonValue(c))));
    loaded := m.app;
  }

  /** The rejected-update scenario: an LLM config with an empty provider leaves a
      valid configuration valid and unchanged. */
  method RejectedUpdateKeepsConfig() returns (before: AppConfig, after: AppConfig, valid: bool)
    ensures valid && after == before
  {
    var m := new ConfigManager();
    before := m.app;
    m.SetLLMConfig(DefaultLLMConfig());
    after := m.app;
    valid := m.ValidateConfig();
  }
}
