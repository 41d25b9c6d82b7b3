# AI Text Assistant — a verified model of its core

This project models the sequential core of the AI Text Assistant, a C++ chat
assistant. It has a console front end and an embedded web server, and it talks
to OpenAI, Anthropic or a custom LLM endpoint. The project also proves
properties of that model. The modelled parts are:

- **Conversation orchestrator** (`Assistant`, assistant.dfy). The
  `TextAssistant` class holds:
  - the current conversation id and the in-memory history;
  - the assistant settings;
  - the state (IDLE / PROCESSING / ERROR) and the events reported to the callback.

  Its methods model these operations: processTextInput, generateResponse (the
  request assembly), buildPromptWithContext (the template path),
  addMessageToHistory with the lazy trim, conversation start, load, delete and
  clear, setLLMProvider, setSystemPrompt, generateConversationTitle and the
  auto-title rule of updateConversationInDatabase.

  The conversation database is an abstract store (`Store`, store.dfy): a map
  from conversation id to its title and messages. The LLM transport is a
  function parameter.
- **Provider adapters** (`Llm`, llm.dfy). This covers:
  - the createClient factory;
  - each provider's request payload, header map and response-parsing decision tree;
  - the chatCompletion / streamChatCompletion glue;
  - the header-line splitting of the HTTP client.

  JSON is an abstract tree (`Json`, json.dfy). Its accessors follow the
  nlohmann semantics that the code relies on: a missing key reads as null,
  `contains` is false on non-objects, and conversions throw on a type mismatch (a boolean
  converts to an int but not to a double).
  JSON objects and `std::map`s are ordered maps (`OrderedMap`, omap.dfy), so
  iteration happens in key order.
- **Configuration** (`Config`, config.dfy). This covers:
  - the expandTemplate substitution loop;
  - LLM and prompt validation;
  - the guarded setters;
  - loadPromptTemplate and the defaults;
  - fromJson / toJson, together with their round trip;
  - loadConfig on a file that is abstract (absent, unparsable, or parsed to a tree).
- **HTTP text handling** (`HttpText`, http.dfy). This covers:
  - urlDecode (section 2.1 of RFC 3986 plus form-style '+');
  - parseQueryString;
  - parseRequest (request line, header fields and body, done loosely after sections 3.1.1 and 3.2 of RFC 7230);
  - buildResponse (the status line and Content-Length of sections 3.1.2 and 3.3.2 of RFC 7230);
  - the MIME table and the static-file traversal guard.
- **Web request handling** (`WebServer`, server.dfy). This covers:
  - the route table and `handleRequest` dispatch, with its 500 and static-file fall-backs and the CORS headers;
  - the decision logic of the chat, delete and OpenAI-compatible handlers, run against an abstract assistant.

  Each handler returns its response together with the assistant calls it made, in order.
- **Command line** (`Cli`, cli.dfy). This covers parseArgs with the
  CommandLineArgs defaults, and the console line-wrapping loop of text mode.
  The wrapping loop works over the reply's bytes. It follows the break search as the
  loop is written; the evidently intended break is modelled beside it, and the
  properties of the wrapped lines are proved for both (see "## Findings").
- **Logger** (`Logging`, logger.dfy). This covers the level filter, labels,
  level parsing and line format. The `Logger` class collects the emitted lines.
- **Shared records** (`Types`, types.dfy). These are the message, conversation,
  configuration and LLM-response records with their default values.

The supporting modules are:

- `Wrappers`: `Option` and an exception-carrying `Outcome`.
- `Strings`: byte-wise string order, searching, std::getline splitting,
  trimming and decimal conversion.

## Model

| member | source | states |
|---|---|---|
| Types.NewMessage | include/common/types.h:30-32 | Message(role, content) stores role and content; id and conversation id stay empty |
| Types.DefaultLLMConfig | include/common/types.h:45-53 | temperature 0.7, max_tokens 1000, empty headers, empty strings |
| Types.DefaultPromptConfig | include/common/types.h:56-61 | max_history_messages 10, empty prompt texts |
| Types.DefaultAppConfig | include/common/types.h:74-82 | log level "INFO", voice and auto-save on, default llm and prompt blocks |
| Types.BlankResponse | include/common/types.h:85-91 | every LLMResponse construction states success; status 0 and empty texts/metadata otherwise |
| Logging.Logger.constructor | include/utils/logger.h:55 | a new logger has threshold INFO and has emitted nothing |
| Logging.Logger.SetLogLevel | src/utils/logger.cpp:16-19 | the threshold changes; earlier output is untouched |
| Logging.Logger.Log | src/utils/logger.cpp:53-63 | a message below the threshold adds nothing; any other adds exactly its formatted line |
| Logging.LabelsHaveFiveChars | src/utils/logger.cpp:94-102 | every level label is five characters |
| Logging.LabelRoundTrip | src/utils/logger.cpp:94-110 | parsing a label with its padding removed returns the level |
| Logging.StringToLogLevelCases | src/utils/logger.cpp:104-110 | only "DEBUG", "WARNING"/"WARN", "ERROR" select their levels; everything else is INFO |
| Logging.FilterMonotone | src/utils/logger.cpp:53-56 | a message that passes passes at every higher level, and everything passes DEBUG |
| Logging.FormatLineFields | src/utils/logger.cpp:60-62 | timestamp, label and message sit at fixed offsets of "[ts] [label] message" |
| Logging.WarningThresholdScenario | tests/test_logger.cpp:50-70 | at threshold WARNING only the warning and error lines are emitted, in order |
| Store.Find | src/database/conversation_db.cpp:223-247 | a conversation is found exactly when the database is open and holds the id |
| Store.Create | src/database/conversation_db.cpp:83-110 | the row is inserted with no messages unless the database is not open or the id is taken; "" on failure; other ids unchanged |
| Store.Append | src/database/conversation_db.cpp:154-192 | the message joins the end of an existing conversation; nothing else changes |
| Store.Retitle | src/database/conversation_db.cpp:132-152 | only the title of an existing conversation changes |
| Store.Delete | src/database/conversation_db.cpp:112-130 | on an open database the conversation and its messages are gone and the call succeeds even for an unknown id |
| Store.CreateThenAppend | src/core/assistant.cpp:436-445 | a created conversation holds exactly the messages appended since, in order |
| Config.LLMValidationRules | src/config/config_manager.cpp:203-229 | invalid iff provider or endpoint empty, temperature outside [0, 2] or max_tokens <= 0; api key, model and headers never matter |
| Config.PromptValidationRules | src/config/config_manager.cpp:231-242 | a prompt block is invalid iff max_history_messages < 0 |
| Config.DefaultsAreValid | src/config/config_manager.cpp:56-64 | the defaults pass validateConfig and set Content-Type: application/json |
| Config.SystemPromptFor | src/config/config_manager.cpp:102-122 | names other than the four templates select the default system prompt |
| Config.Placeholder | src/config/config_manager.cpp:133 | "{" + key + "}" is two longer than the key |
| Config.ReplaceLoop | src/config/config_manager.cpp:133-138 | the find/replace loop of one key yields the left-to-right replace-all, resuming after each inserted value |
| Config.ExpandTemplate | src/config/config_manager.cpp:128-142 | the result is each key's replace-all applied in ascending key order |
| Config.ReplaceAllAbsent | src/config/config_manager.cpp:135 | text without the placeholder is unchanged |
| Config.ReplaceAllSelf | src/config/config_manager.cpp:135-137 | a value equal to its own placeholder is not re-expanded |
| Config.ExpandIdentity | src/config/config_manager.cpp:128-142 | no placeholder of any key in the template (or no keys) leaves it unchanged |
| Config.ExpandSelfValued | src/config/config_manager.cpp:133-138 | scanning resumes after the inserted value, so "{k}" valued "{k}" terminates unchanged |
| Config.ExpandBothOccurrences | src/config/config_manager.cpp:133-138 | "{x}-{x}" with x = "a" gives "a-a" |
| Config.ExpandKeyOrder | src/config/config_manager.cpp:132 | a later key's placeholder inside an earlier key's value is expanded too |
| Config.LLMJsonFields | src/config/config_manager.cpp:180-186 | toJson's llm object holds every llm field |
| Config.PromptJsonFields | src/config/config_manager.cpp:189-192 | toJson's prompt object holds every prompt field |
| Config.ToJsonFields | src/config/config_manager.cpp:176-201 | toJson writes every field of the configuration |
| Config.FromJsonNonObject | src/config/config_manager.cpp:144-174 | fromJson on a non-object throws and changes nothing |
| Config.BoolTemperatureThrows | src/config/config_manager.cpp:148-153 | a boolean "temperature" throws type_error.302 after provider, api_endpoint, api_key and model_name are assigned; nothing after it is read, so loadConfig fails |
| Config.FromJsonEmptyObject | src/config/config_manager.cpp:169-173 | an empty object resets only the four general fields to their defaults |
| Config.RunLLMHolds | src/config/config_manager.cpp:146-158 | on an object holding a block's fields the llm assignments copy them without throwing |
| Config.RunPromptHolds | src/config/config_manager.cpp:161-167 | the prompt assignments copy the prompt fields |
| Config.RunGeneralTakes | src/config/config_manager.cpp:170-173 | the general assignments copy the general fields |
| Config.ReadBack | src/config/config_manager.cpp:144-174 | fromJson on an object holding a configuration's fields yields exactly that configuration |
| Config.JsonRoundTrip | src/config/config_manager.cpp:144-201 | fromJson(toJson(c)) restores c from any starting configuration |
| Config.ConfigManager.constructor | src/config/config_manager.cpp:8-10 | a new manager holds the defaults, which validate |
| Config.ConfigManager.SetDefaultLLMConfig | src/config/config_manager.cpp:244-252 | the llm block becomes the default, keeping its other headers and adding Content-Type |
| Config.ConfigManager.SetDefaultPromptConfig | src/config/config_manager.cpp:254-259 | the prompt block becomes the default |
| Config.ConfigManager.LoadDefaultConfig | src/config/config_manager.cpp:56-64 | the configuration becomes the default one and validates |
| Config.ConfigManager.SetLLMConfig | src/config/config_manager.cpp:66-73 | stores the block only when it validates, otherwise nothing changes; validity is preserved |
| Config.ConfigManager.SetPromptConfig | src/config/config_manager.cpp:75-82 | stores the block only when it validates, otherwise nothing changes; validity is preserved |
| Config.ConfigManager.LoadPromptTemplate | src/config/config_manager.cpp:102-126 | always true and changes only the system prompt |
| Config.ConfigManager.FromJson | src/config/config_manager.cpp:144-174 | the new configuration and the possible exception are those of the field-by-field assignments |
| Config.ConfigManager.LoadConfig | src/config/config_manager.cpp:12-35 | a missing or unparsable file fails with no change; otherwise fromJson runs and success means no exception and a valid result |
| Config.SaveThenLoad | tests/test_config_manager.cpp:113-122 | saving a valid configuration and loading it back succeeds and restores it |
| Config.RejectedUpdateKeepsConfig | tests/test_config_manager.cpp:157-172 | an invalid llm block leaves the configuration as it was |
| Llm.ProviderFor | src/llm/llm_client.cpp:218-226 | "openai" and "anthropic" choose their adapters; every other name the custom one |
| Llm.LLMClient.CreateClient | src/llm/llm_client.cpp:218-226 | always returns a fresh client with the chosen adapter and the configuration |
| Llm.LLMClient.constructor | src/llm/llm_client.cpp:173-175 | the client holds its adapter and configuration |
| Llm.LLMClient.UpdateConfig | src/llm/llm_client.cpp:214-216 | the configuration is replaced; the adapter stays |
| Llm.PostResult | src/llm/llm_client.cpp:58-75 | a curl failure is a failure with its text; otherwise status and body are copied and success means 2xx |
| Llm.HeaderKey | src/llm/llm_client.cpp:144-151 | the key holds no ':' and is exactly the text before the first ':' with its leading and trailing " \t\r\n" removed |
| Llm.HeaderValue | src/llm/llm_client.cpp:147-153 | the value is exactly the text after the first ':' with its leading and trailing " \t\r\n" removed |
| Llm.HeaderLine | src/llm/llm_client.cpp:139-159 | a line without ':' changes nothing; otherwise exactly the trimmed key gets the trimmed value |
| Llm.MessageJsonFields | src/llm/llm_client.cpp:239-241 | a message object holds exactly role and content |
| Llm.MessagesJson | src/llm/llm_client.cpp:237-243 | the array lists every message's object in input order |
| Llm.NonSystem | src/llm/llm_client.cpp:302-311 | only non-system messages of the input are kept |
| Llm.NonSystemConcat | src/llm/llm_client.cpp:302-311 | the filter keeps the input order |
| Llm.NonSystemKeepsAll | src/llm/llm_client.cpp:302-311 | without system messages nothing is dropped |
| Llm.LastSystemFound | src/llm/llm_client.cpp:302-304 | the system text is the content of the last system message |
| Llm.NoSystemFound | src/llm/llm_client.cpp:299-304 | without a system message the system text is empty |
| Llm.PayloadFields | src/llm/llm_client.cpp:231-382 | the OpenAI/custom payload holds model, temperature, max_tokens and all messages; the Anthropic payload has no temperature, only the non-system messages, and "system" exactly when the last system text is non-empty |
| Llm.BuildHeaders | src/llm/llm_client.cpp:284-288 | OpenAI always sets Authorization, Anthropic x-api-key and anthropic-version, custom Authorization only with a key; all other headers are the configured ones |
| Llm.ParseResponse | src/llm/llm_client.cpp:249-426 | status is copied; an unparsable body or an "error" member is a failure with its message, whatever else the body holds; success implies a parsed body without "error"; custom sets no metadata |
| Llm.ListReplies | src/llm/llm_client.cpp:262-275 | an empty or missing list gives "No choices/content in response"; otherwise the first item's text, or a parse failure when it cannot be read |
| Llm.OpenAIUsage | src/llm/llm_client.cpp:267-271 | OpenAI usage counters are copied as decimal strings under their three names |
| Llm.AnthropicUsage | src/llm/llm_client.cpp:334-342 | Anthropic usage counters are copied under input_tokens and output_tokens |
| Llm.CountersAllInts | src/llm/llm_client.cpp:267-271 | with integer counters every key gets its decimal text and no other key changes |
| Llm.CustomReplies | src/llm/llm_client.cpp:399-419 | choices first, then content (array or string), then response, else "Unknown response format" |
| Llm.ListAttempt | src/llm/llm_client.cpp:256-260 | an "error" member fails with error.message (or throws) before choices or content are read |
| Llm.CustomAttempt | src/llm/llm_client.cpp:392-397 | the custom "error" member is read as a string or as .message, first |
| Llm.Complete | src/llm/llm_client.cpp:177-200 | a failed exchange is "HTTP request failed: " plus the transport text with its status, never parsed; otherwise the adapter parses |
| Llm.LLMClient.StreamChatCompletion | src/llm/llm_client.cpp:202-212 | the callback is invoked exactly once, with the content or "Error: " plus the message |
| Llm.Non2xxNotParsed | src/llm/llm_client.cpp:73-75 | a non-2xx reply is a failure with the bare "HTTP request failed: " text and its status, never parsed, whatever its body holds |
| Llm.ProviderRenameKeepsAdapter | src/llm/llm_client.cpp:214-216 | a client made for "openai" and reconfigured to "anthropic" still sends temperature, so it still uses the OpenAI adapter |
| Assistant.StateName | src/core/assistant.cpp:227-238 | each state has its non-empty name |
| Assistant.DefaultAssistantConfig | src/core/assistant.cpp:12-19 | auto-save on, history limit 20, timeout 30 |
| Assistant.Shortened | src/core/assistant.cpp:479-481 | texts over 50 characters become their first 47 and "..." |
| Assistant.Unbroken | src/core/assistant.cpp:484-485 | every '\n' and '\r' becomes a space |
| Assistant.Collapse | src/core/assistant.cpp:488-489 | the result is empty iff the input is, starts with white space iff the input does, and holds only single spaces as white space |
| Assistant.CollapseRun | src/core/assistant.cpp:488-489 | a non-empty run of white space before a non-space or the end becomes exactly one space |
| Assistant.CollapseConcat | src/core/assistant.cpp:488-489 | collapsing works piecewise across a cut after a non-space character, so with CollapseRun and CollapsePlain it fixes the result on every input |
| Assistant.CollapseGap | src/core/assistant.cpp:488-489 | a white-space run between two texts becomes one space between their collapsed forms |
| Assistant.CollapseKeepsText | src/core/assistant.cpp:488-489 | collapsing keeps every other character, in order |
| Assistant.GenerateConversationTitle | src/core/assistant.cpp:476-492 | at most 50 characters, no line breaks, no two white-space characters in a row, "New Conversation" for empty input, and the non-space text of the shortened input; where the single spaces fall is fixed by TitleOneGap and the Collapse lemmas |
| Assistant.PlainTitleKept | src/core/assistant.cpp:476-492 | a short title without white space is kept |
| Assistant.TitleOneGap | src/core/assistant.cpp:476-492 | two words of a short title around any white-space run, line breaks included, are joined by exactly one space |
| Assistant.LongPlainTitle | src/core/assistant.cpp:479-480 | a long title without white space in its first 47 characters becomes those 47 and "..." |
| Assistant.CollapsePlain | src/core/assistant.cpp:488-489 | text without white space is unchanged |
| Assistant.Window | src/core/assistant.cpp:372-380 | the last min(limit, size) history entries, in order; none for a non-positive limit |
| Assistant.RequestShape | src/core/assistant.cpp:362-383 | optional system message, then the history window, then the user input; at most limit + 2 messages |
| Assistant.ReplyText | src/core/assistant.cpp:388-393 | a failed LLM result gives the fixed error reply |
| Assistant.CollectHistory | src/core/assistant.cpp:405-415 | the history lines "role: content\n" of the window, in order |
| Assistant.PromptSeesOnlyWindow | src/core/assistant.cpp:396-430 | the prompt depends only on the window of max_history_messages entries |
| Assistant.WindowTextGrows | src/core/assistant.cpp:408-415 | below the limit a new message adds exactly its line to the history text |
| Assistant.TrimLaw | src/core/assistant.cpp:447-459 | after adding, the history has at most twice the limit; a trim keeps exactly the last limit messages in order |
| Assistant.PersistRule | src/core/assistant.cpp:436-445 | the stamped message is stored only with auto-save, a database and a current id; nothing else changes |
| Assistant.TurnEndsWithExchange | src/core/assistant.cpp:196-204 | a turn ends the history with the stamped user and assistant messages |
| Assistant.InputSentTwice | src/core/assistant.cpp:196-197 | with a positive limit the input is sent as the last history entry and again as the final user message |
| Assistant.AutoTitleRule | src/core/assistant.cpp:494-509 | the title is set from history[0] only with a current id, a non-empty history and an empty stored title |
| Assistant.TextAssistant.constructor | src/core/assistant.cpp:12-19 | not initialised, IDLE, default settings, no conversation |
| Assistant.TextAssistant.SetAssistantConfig | include/core/assistant.h:52 | the settings are replaced |
| Assistant.TextAssistant.SetState | src/core/assistant.cpp:227-238 | the state is recorded and reported with its name |
| Assistant.TextAssistant.Initialize | src/core/assistant.cpp:27-78 | the manager holds the startup configuration read from the file; success iff it validates and the database opens; success builds the client for the configured provider and reports IDLE; failure reports nothing |
| Assistant.TextAssistant.TrimConversationHistory | src/core/assistant.cpp:451-460 | the history becomes its lazily trimmed form |
| Assistant.TextAssistant.AddMessageToHistory | src/core/assistant.cpp:432-449 | the session becomes the one with the message stamped, persisted by the rule, and trimmed |
| Assistant.TextAssistant.BuildPromptWithContext | src/core/assistant.cpp:396-430 | without a configuration the input; otherwise the user template expanded with the input and the context built from the window |
| Assistant.TextAssistant.GenerateResponse | src/core/assistant.cpp:353-394 | the reply to the assembled request; the fixed texts without a client or on failure |
| Assistant.TextAssistant.ProcessTextInput | src/core/assistant.cpp:187-218 | rejected input changes nothing and gets the not-ready text; otherwise user then assistant message are added, state ends IDLE and the events are PROCESSING, IDLE, the reply |
| Assistant.TextAssistant.Conclude | src/core/assistant.cpp:203-207 | the reply is added, state IDLE, and the reply is reported |
| Assistant.TextAssistant.UpdateConversationInDatabase | src/core/assistant.cpp:494-509 | true iff there is a database and a current id; applies the auto-title rule |
| Assistant.TextAssistant.SaveCurrentConversation | src/core/assistant.cpp:155-162 | the same result and effect as updateConversationInDatabase |
| Assistant.TextAssistant.StartNewConversation | src/core/assistant.cpp:104-127 | no database gives "" and no change; otherwise the current one is saved, the new id becomes current with an empty history |
| Assistant.TextAssistant.LoadConversation | src/core/assistant.cpp:129-153 | an unknown id fails with no change; otherwise id and history become the stored ones |
| Assistant.TextAssistant.DeleteConversation | src/core/assistant.cpp:171-185 | deletion through the store; deleting the current conversation clears id and history |
| Assistant.TextAssistant.ClearConversationHistory | src/core/assistant.cpp:260-264 | the history becomes empty |
| Assistant.TextAssistant.SetLLMProvider | src/core/assistant.cpp:240-256 | with a manager, true and a client built from the passed configuration, whether or not the manager accepted it |
| Assistant.TextAssistant.SetSystemPrompt | src/core/assistant.cpp:313-321 | the system prompt is replaced through the guarded prompt setter |
| Assistant.RejectedProviderStillApplied | src/core/assistant.cpp:245-251 | a rejected llm block is still used by the rebuilt client while the manager keeps the old one |
| Json.TypeName | src/llm/llm_client.cpp:258 | the six nlohmann type names used in conversion errors |
| Json.At | src/llm/llm_client.cpp:258 | indexing an object or null by key succeeds (null when missing); anything else throws |
| Json.AtIndex | src/llm/llm_client.cpp:264 | indexing an array or null by position succeeds; anything else throws |
| Json.AsString | src/llm/llm_client.cpp:264 | conversion to string succeeds exactly on strings |
| Json.TruncReal | src/llm/llm_client.cpp:268 | static_cast<int> truncates toward zero |
| Json.AsInt | src/llm/llm_client.cpp:268 | conversion to a number succeeds exactly on numbers and booleans |
| Json.AsReal | src/config/config_manager.cpp:152 | conversion to double succeeds exactly on numbers, keeps their value, and otherwise throws type_error.302 naming the type |
| Json.BoolNotReal | src/config/config_manager.cpp:152-153 | a boolean converts to an int (1 or 0) but not to a double |
| Json.AsBool | src/config/config_manager.cpp:171-172 | conversion to bool succeeds exactly on booleans and keeps their value |
| Json.ValueOr | src/config/config_manager.cpp:148-153 | value(key, default) throws off objects, gives the default when the key is missing, converts it otherwise |
| Json.Set | src/config/config_manager.cpp:180 | j[key] = v on an object or null sets that key only and keeps key order |
| Json.SetAllGet | src/config/config_manager.cpp:180-198 | with distinct keys every assigned key reads back its value |
| Json.StringMapRoundTrip | src/config/config_manager.cpp:156 | the headers map converted to JSON and back is unchanged |
| OrderedMap.Insert | src/web/http_server.cpp:96 | map[k] = v sets k, keeps every other key and keeps key order |
| OrderedMap.FromPairsLast | src/web/http_server.cpp:332 | after assignments, a key holds its last assigned value |
| OrderedMap.FromPairsAbsent | src/web/http_server.cpp:332 | a key never assigned is absent |
| Strings.Trim | src/llm/llm_client.cpp:150-153 | the two erase calls leave the slice of the text with only lead characters before it, only tail characters after it, and neither at its ends |
| Strings.TrimmedUnique | src/web/http_server.cpp:248-249 | that description fixes the trimmed text: any two texts meeting it are equal |
| Strings.StrLtTotal | src/web/http_server.cpp:281 | std::string ordering is total, so headers have one iteration order |
| Strings.JoinSplit | src/web/http_server.cpp:256-261 | joining the getline pieces gives the text without a final separator |
| Strings.NatToStringRoundTrip | src/web/http_server.cpp:284 | the decimal length reads back as the number |
| HttpText.DefaultResponse | include/web/http_server.h:26-37 | a default response is 200 with no body and the constructor's four headers |
| HttpText.EscapeValue | src/web/http_server.cpp:344-346 | two hex digits give their byte value |
| HttpText.UrlDecode | src/web/http_server.cpp:339-358 | the loop's output is the percent/plus decoding of the input |
| HttpText.HexPrefixCopied | src/web/http_server.cpp:342-349 | "%0x41" is copied unchanged, because the stream reads "0x" as a bare hex prefix and fails, while "%0A" decodes to a line feed |
| HttpText.DecodedNoLonger | src/web/http_server.cpp:339-358 | decoding never lengthens a text |
| HttpText.DecodedWithoutPercent | src/web/http_server.cpp:351-355 | without '%' only '+' turns into a space |
| HttpText.DecodedPlain | src/web/http_server.cpp:339-358 | input without '%' or '+' is unchanged |
| HttpText.DecodeEncoded | src/web/http_server.cpp:342-347 | decoding undoes percent-encoding of any byte string |
| HttpText.QueryPair | src/web/http_server.cpp:328-333 | a piece counts iff it holds '='; it is split at the first '=' |
| HttpText.ParseQueryString | src/web/http_server.cpp:322-337 | the loop's map is the one the decoded pairs assign in order |
| HttpText.LaterPieceWins | src/web/http_server.cpp:327-333 | a later duplicate key overwrites an earlier one |
| HttpText.QueryLastWins | src/web/http_server.cpp:322-337 | a key holds the value of its last assigning piece |
| HttpText.QueryAbsent | src/web/http_server.cpp:322-337 | a key no piece assigns is absent |
| HttpText.WordLength | src/web/http_server.cpp:228 | operator>> reads a maximal run of non-blank characters |
| HttpText.HeaderField | src/web/http_server.cpp:243-250 | a line counts iff it holds ':'; the key is the text before the first ':', the value exactly the text after it with its leading " \t" and then its trailing " \t\r" removed |
| HttpText.SplitField | src/web/http_server.cpp:245-249 | a line split at a ':' gives the text before it and the text after it with its leading " \t" and trailing " \t\r" removed |
| HttpText.HeadLength | src/web/http_server.cpp:242 | the header section ends at the first line equal to "\r" |
| HttpText.HeadLengthBefore | src/web/http_server.cpp:242 | no header line before the end is "\r" |
| HttpText.ParseRequestLine | src/web/http_server.cpp:224-239 | method and target are the first two words; the path is cut at the first '?' and the rest parsed as query |
| HttpText.ParseHeaders | src/web/http_server.cpp:241-252 | the header loop reads up to the first "\r" line and assigns the fields in order |
| HttpText.ParseBody | src/web/http_server.cpp:254-262 | the body is the remaining lines joined by '\n' with no final newline |
| HttpText.TerminateLines | src/web/http_server.cpp:256-258 | the body loop appends every remaining line followed by a '\n' |
| HttpText.DropLastNewline | src/web/http_server.cpp:256-261 | removing the last '\n' of the terminated lines leaves them joined |
| HttpText.ParseRequest | src/web/http_server.cpp:219-265 | the parsed request is the request-line, header and body reading of the text |
| HttpText.StatusText | src/web/http_server.cpp:272-277 | "Unknown" exactly for codes other than 200, 404 and 500 |
| HttpText.BuildResponse | src/web/http_server.cpp:267-291 | the output is the status line, the headers in key order, Content-Length, a blank line and the body |
| HttpText.ResponseFraming | src/web/http_server.cpp:284-288 | the output starts with the status line and ends with "Content-Length: n\r\n\r\n" and the body, n reading back as the body length |
| HttpText.MimeOfExtension | src/web/http_server.cpp:566-585 | every extension maps into the fixed MIME table |
| HttpText.MimeType | src/web/http_server.cpp:566-585 | a name without '.' is text/plain |
| HttpText.LastDotDecides | src/web/http_server.cpp:566-571 | only the text after the last '.' counts |
| HttpText.StaticFile | src/web/http_server.cpp:531-564 | past the ".." guard the answer is 404 exactly when the file cannot be read |
| HttpText.TraversalRefused | src/web/http_server.cpp:542-546 | a path containing ".." is 403 whatever the file system holds |
| HttpText.RootServesIndex | src/web/http_server.cpp:536-539 | "/" serves index.html as text/html |
| WebServer.JsonResponse | src/web/http_server.cpp:361-362 | a JSON response has the given status and body |
| WebServer.JsonHeadersAssigned | src/web/http_server.cpp:362 | its headers are the default ones with Content-Type application/json |
| WebServer.ChatWithoutAssistant | src/web/http_server.cpp:363-368 | without an assistant the answer is 500 and nothing is called |
| WebServer.ChatMissingIdStartsNew | src/web/http_server.cpp:391-398 | a missing or null id starts a new conversation; an empty new id is 500 |
| WebServer.ChatEmptyIdKeeps | src/web/http_server.cpp:376-380 | an empty-string id neither loads nor starts a conversation |
| WebServer.ChatNamedId | src/web/http_server.cpp:380-390 | a non-empty id is loaded first; a new conversation starts iff loading fails; an empty new id is 500 |
| WebServer.SelectNamed | src/web/http_server.cpp:380-390 | the conversation chosen for a non-empty id |
| WebServer.ChatCallsFollowSelection | src/web/http_server.cpp:374-412 | the calls are the selection's, then possibly the processing of the message |
| WebServer.ChatTooLongAfterSelection | src/web/http_server.cpp:401-411 | the 8000-character check runs after the selection and answers 400 without processing |
| WebServer.SelectProcessesNothing | src/web/http_server.cpp:374-400 | the selection never processes input |
| WebServer.ChatProcessesOnSuccess | src/web/http_server.cpp:360-431 | the answer is 200 exactly when a message was read and processed last; any other answer processed nothing |
| WebServer.ChatReplyFields | src/web/http_server.cpp:415-419 | the reply document holds the id, the reply and "success" |
| WebServer.DeleteDecides | src/web/http_server.cpp:469-511 | either 400/500 with no call, or one delete call with 200 on success and 404 otherwise |
| WebServer.DeleteNeedsId | src/web/http_server.cpp:481-487 | a missing or empty id is 400 and nothing is deleted |
| WebServer.LastUserMessage | src/web/http_server.cpp:610-618 | the backward scan finds the last user message's content |
| WebServer.LastUserIs | src/web/http_server.cpp:610-618 | the message found is the last user one |
| WebServer.NoUserFound | src/web/http_server.cpp:610-618 | without a user message the scan finds "" |
| WebServer.ScanThrows | src/web/http_server.cpp:610-618 | a non-indexable message after the last user one makes the scan throw |
| WebServer.HandleOpenAIChat | src/web/http_server.cpp:587-686 | the handler's response and calls are those of its decision rules |
| WebServer.OpenAINeedsMessages | src/web/http_server.cpp:601-605 | a missing or non-array "messages" is 400 with no call |
| WebServer.OpenAIProcessesLastUser | src/web/http_server.cpp:607-623 | the last user message is processed; an empty one is 400 |
| WebServer.UsageCounts | src/web/http_server.cpp:669-672 | usage is a quarter of each length (integer division) and their sum |
| WebServer.StreamIrrelevant | src/web/http_server.cpp:625-675 | the stream flag does not change the answer |
| WebServer.RouteKey | src/web/http_server.cpp:95 | the key is the method, a space and the path |
| WebServer.RouteKeyInjective | src/web/http_server.cpp:94-97 | methods without spaces give one key per route |
| WebServer.RouteKeyAmbiguous | src/web/http_server.cpp:95 | a method with a space can collide with another route |
| WebServer.HandlerFailed | src/web/http_server.cpp:303-307 | a throwing handler is 500 "Internal Server Error" |
| WebServer.CorsHeaders | src/web/http_server.cpp:313-317 | the four CORS headers always get their fixed values; status and body are the handler's |
| WebServer.CorsKeepsOthers | src/web/http_server.cpp:313-317 | every other header is the handler's |
| WebServer.DefaultRouteTable | src/web/http_server.cpp:16-55 | the table holds the chat route and the four preflight routes |
| WebServer.HttpServer.constructor | src/web/http_server.cpp:16-55 | a new server has its port, the default route table and no assistant |
| WebServer.HttpServer.AddRoute | src/web/http_server.cpp:94-97 | registering an existing key replaces its route; others stay |
| WebServer.HttpServer.HandleRequest | src/web/http_server.cpp:293-320 | the routed response with the CORS headers, and the handler's calls |
| WebServer.HttpServer.Dispatch | src/web/http_server.cpp:295-311 | exact lookup; a hit runs the route, a miss serves the static file |
| WebServer.HttpServer.MissServesFile | src/web/http_server.cpp:308-311 | a request with no exact route is a static-file request |
| WebServer.HttpServer.ThrowingRouteFails | src/web/http_server.cpp:300-307 | a throwing route is answered 500 "Internal Server Error" |
| Cli.Stoi | src/main.cpp:112 | accepts exactly the non-empty digit strings within int range and reads their value |
| Cli.StoiToString | src/main.cpp:112 | a printed port reads back |
| Cli.ParseArgs | src/main.cpp:75-124 | the loop's result is the left-to-right reading of the arguments |
| Cli.NoArgumentsDefaults | src/main.cpp:64-73 | no arguments give every initialiser |
| Cli.LastValueWins | src/main.cpp:83-103 | a repeated value option keeps its last value |
| Cli.MissingValueShowsHelp | src/main.cpp:84-116 | a value option given last sets show_help and changes nothing else |
| Cli.UnknownOptionContinues | src/main.cpp:117-120 | an unknown option sets show_help and parsing goes on |
| Cli.HelpStays | src/main.cpp:78-121 | once show_help is set it stays set |
| Cli.ParseConcat | src/main.cpp:78-121 | parsing complete argument groups composes |
| Cli.SentenceScanHighest | src/main.cpp:321-353 | the sentence search finds the highest sentence end in its range, or none |
| Cli.ClauseScanHighest | src/main.cpp:357-381 | the clause search finds the highest space, comma or CJK comma in its range, or none |
| Cli.BoundarySkips | src/main.cpp:385-390 | the fall-back moves back over continuation bytes only |
| Cli.BreakAtSentence | src/main.cpp:321-353 | a sentence end within 30 bytes decides the break, after the highest one |
| Cli.BreakAtClause | src/main.cpp:355-382 | otherwise a clause end within 20 bytes decides, after the highest one |
| Cli.BreakAtBoundary | src/main.cpp:384-390 | otherwise the break is the nearest earlier non-continuation byte |
| Cli.BreakBounds | src/main.cpp:318-390 | under the as-written rule and the intended one alike, a non-final line ends within 101 bytes and moves forward unless only continuation bytes follow |
| Cli.AsWrittenAgrees | src/main.cpp:318-390 | the as-written break equals the intended one unless a hit falls just before end_pos |
| Cli.StopBeforeEdgeLost | src/main.cpp:321-361 | a '.' at end_pos - 1 is overridden by an earlier space as the loop is written |
| Cli.FindBreak | src/main.cpp:318-390 | the three loops, each run only while break_pos is still end_pos as written, give the as-written break |
| Cli.DropTrailingSpaces | src/main.cpp:393-397 | a line loses exactly its trailing spaces |
| Cli.SkipSpacesFrom | src/main.cpp:400-404 | the next line starts after the spaces |
| Cli.TrimmedSpaces | src/main.cpp:395-397 | only spaces are removed from a line's end |
| Cli.SkippedSpaces | src/main.cpp:401-404 | only spaces are skipped before the next line |
| Cli.Advances | src/main.cpp:385-404 | under either rule, without a run of 100 continuation bytes each iteration moves forward |
| Cli.ShortRunsNoStall | src/main.cpp:385-390 | a reply with no four continuation bytes in a row, as in UTF-8, never stalls the loop |
| Cli.LastLine | src/main.cpp:311-315 | once at most 100 bytes remain they are the last line, whole |
| Cli.WrapSegments | src/main.cpp:308-404 | under either rule, the lines are consecutive segments of the reply; only spaces around breaks are dropped; no line exceeds 101 bytes |
| Cli.WrapLines | src/main.cpp:305-405 | the wrapping loop prints exactly the lines wrapped by the as-written break |
| Cli.StopBeforeEdgeWrapped | src/main.cpp:305-405 | as written, the 111-byte reply with '.' at offset 99 and a space at 85 is printed as lines of 85 and 25 bytes |
| Cli.StopBeforeEdgeIntended | src/main.cpp:305-405 | under the intended break the same reply is printed as lines of 100 and 11 bytes |

## Left out

- Sockets, threads, the accept and receive loops with their Content-Length scan, and server start/stop: these are I/O and concurrency.
- libcurl: the transport is a function parameter that answers each request with a curl failure or a status and a body.
- Llm.PostResult: after a curl error the source leaves `status_code` uninitialised (llm_client.cpp:64-67); the model gives 0 there, and that 0 reaches `LLMResponse.statusCode` through `Llm.Complete`, where the source would carry an indeterminate value.
- JSON text parsing and dump(): they are foreign code. Parsing is a parameter that returns a tree or an "unparsable" case with its message, and dump is a parameter.
- Serialisation (`Env.dump`) is a total function in the model. nlohmann's dump() throws type_error 316 on a string that is not valid UTF-8, and that exception is not modelled.
- In chatCompletion, the catch that turns a thrown exception into "Exception in chatCompletion: " plus its text (src/llm/llm_client.cpp:194-199) is not modelled, because neither the transport parameter nor dump can throw in the model.
- The chat handlers' catch that answers 400 with "Invalid request: " plus the exception's text is modelled only for the request-parsing failures before processing. A dump() failure after processing (src/web/http_server.cpp:421-427) cannot arise in the model.
- Json.AsInt: get<int> is read on unbounded integers, so the wrap-around of the conversion to a 32-bit int (4294967296 reads as 0) is not modelled; JSON floating-point numbers are modelled as reals.
- Clocks: message timestamps, log timestamps, `chatcmpl-` ids and `created` fields. A clock reading is a parameter, and one `now` serves a whole request.
- SQLite: ids, timestamps and statements are not modelled. The store is an abstract map from conversation id to title and messages, and the id a new conversation receives is a parameter.
- The handlers for conversation listing, conversation messages, status and the model list are outside the model. Their responses come from a parameter (`Env.elsewhere`). The dispatch around them, including the CORS headers and the 500 fall-back, is modelled.
- File reading for static files is a parameter; the path construction, the ".." guard and the MIME table are modelled.
- Reading the configuration file is abstract: the file is absent, unparsable, or parsed to a tree. saveConfig's file writing is left out.
- Mutexes, atomics and the detached client threads: the assistant is modelled sequentially.
- The Logger singleton's console and file streams, colours and directory creation are left out. The emitted lines are collected in a sequence.
- Signal handling, stdin prompts, interactive configuration and main()'s mode selection are left out.
- web/script.js (browser UI) is not part of this model.
- AudioConfig and the voice features are not part of this model.
- Exceptions inside the assistant (processTextInput's catch path, initialize's catch) are not modelled. The LLM peer seen by the web handlers is abstract and does not throw.
- Cli.Stoi: covers only digit strings within int range; signs, leading white space, trailing text and out-of-range values (where std::stoi throws or stops early) are out of scope. A non-numeric argument makes the model throw, as std::stoi does, but the exception's text is the model's own.
- Cli.WrapLines: requires `NoStall`, that no run of 100 continuation bytes follows a non-space byte with more than 100 bytes left; without it the source may loop forever. Replies taken from parsed JSON are valid UTF-8 and so meet it (Cli.ShortRunsNoStall).
- Strings and bytes: text is `seq<char>`, and the line wrapper works on bytes. The model does not convert between UTF-8 and characters.
- HttpText.UrlDecode: the istream corners after '%' (a sign, white space, or a partial hex number such as "%4G" read as 4) are modelled only in the two-hex-digit and "first digit hex" cases; any other '%' is copied literally, and so is "%0x" or "%0X", where the stream takes "0x" as a hex prefix without digits and fails.
- Assistant.TextAssistant.GenerateResponse: the peer (the client's adapter and configuration) and the prompt are passed as ghost parameters so that the reply can be stated; buildPromptWithContext's result is computed and discarded as in the source.

## Findings

| source | as written | input that shows it | evidently intended | confidence | as-written member | corrected member |
|---|---|---|---|---|---|---|
| src/main.cpp:318-361 | a sentence end found at end_pos - 1 sets break_pos = end_pos, which the next test reads as "nothing found", so the clause search (and then the UTF-8 fall-back) runs and can override it | a 111-byte reply whose '.' is at offset 99 with a space at offset 85: the line breaks at 86 instead of 100 | the first search that finds a break point decides | not executed | Cli.StopBeforeEdgeWrapped | Cli.StopBeforeEdgeIntended |

