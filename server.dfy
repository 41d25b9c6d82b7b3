/** The request handling of the embedded web server: the route table, dispatch
    with its error and static-file fall-backs, the CORS headers, and the decisions
    of the chat, delete and OpenAI-compatible handlers. The assistant behind the
    handlers is abstract: what it answers is a parameter, and each handler reports
    the calls it makes on it, in order. */
module WebServer {
  import opened Wrappers
  import opened Strings
  import opened OrderedMap
  import opened Json
  import opened HttpText

  // ---------------------------------------------------------------------------
  // The assistant as the handlers see it

  /** A call a handler makes on the assistant. */
  datatype Call = Load(id: string) | StartNew | Process(input: string) | Delete(id: string)

  /** What the assistant answers: whether loadConversation(id) succeeds, the id
      startNewConversation() returns ("" when creation fails), the reply of
      processTextInput(input), and whether deleteConversation(id) succeeds. */
  datatype Peer = Peer(loads: string -> bool, created: string, reply: string -> string,
                       deletes: string -> bool)

  /** A handler's response and the assistant calls it made. */
  datatype Turn = Turn(response: HttpResponse, calls: seq<Call>)

  /** The handlers that are not part of this model (conversation listing, the
      messages of a conversation, status, model listing). */
  datatype Handler =
    | ApiChat | ApiConversations | ApiConversationMessages | ApiDelete | ApiStatus
    | OpenAIChat | OpenAIModels

  /** The world a request is handled in: JSON text parsing, dump(), the clock,
      file reading under the static directory, and the responses of the handlers
      outside this model. */
  datatype Env = Env(parse: string -> Body, dump: Json -> string, now: int,
                     read: string -> Option<string>,
                     elsewhere: (Handler, HttpRequest) -> HttpResponse)

  /** The headers of a JSON response, in key order. */
  const JsonHeaders: OMap<string> :=
    [("Access-Control-Allow-Headers", "Content-Type"), ("Access-Control-Allow-Methods", "GET, POST, OPTIONS"),
     ("Access-Control-Allow-Origin", "*"), ("Content-Type", "application/json")]

  /** A JSON response: a default response with
      response.headers["Content-Type"] = "application/json". */
  function JsonResponse(status: int, body: string): (r: HttpResponse)
    ensures r.status == status && r.body == body
  {
    HttpResponse(status, body, JsonHeaders)
  }

  /** The headers of a JSON response are the default headers with the
      Content-Type replaced. */
  lemma JsonHeadersAssigned(status: int, body: string)
    ensures JsonResponse(status, body).headers == Insert(DefaultResponse().headers, "Content-Type", "application/json")
    ensures Get(JsonResponse(status, body).headers, "Content-Type") == Some("application/json")
  {
    var h := DefaultHeaders;
    InsertReplacesFourth(h[0], h[1], h[2], h[3], "application/json");
    assert [h[0], h[1], h[2], h[3]] == h;
  }

  const NotAvailable := "{\"error\": \"Assistant not available\"}"
  const CreateFailed := "{\"error\": \"Failed to create new conversation\"}"
  const IdRequired := "{\"error\": \"conversation_id is required\"}"
  const MaxUserMessageLength := 8000
  const TooLong := "Message too long. Maximum length is 8000 characters."

  /** The body of a caught exception: {"error": "Invalid request: " + what}. */
  function InvalidDoc(what: string): Json
  {
    SetAll([("error", JStr("Invalid request: " + what))])
  }

  // ---------------------------------------------------------------------------
  // handleApiChat

  /** The conversation a chat request runs in, with the calls that chose it; or the
      calls that ended in a failed creation. */
  datatype Selection = Selected(id: string, calls: seq<Call>) | CreateFailure(calls: seq<Call>)

  /** message = request_json["message"]. */
  function ChatMessage(doc: Json): Outcome<string>
  {
    var m :- At(doc, "message");
    AsString(m)
  }

  /** The conversation switching of handleApiChat: a missing or null id starts a
      new conversation; "" keeps the current one; any other id is loaded, and a
      new conversation is started when loading fails. An id that is not a string
      throws. */
  function Select(doc: Json, p: Peer): Outcome<Selection>
  {
    if Has(doc, "conversation_id") && !Member(doc, "conversation_id").JNull? then
      var id :- AsString(Member(doc, "conversation_id"));
      if id == "" then Ok(Selected("", []))
      else if p.loads(id) then Ok(Selected(id, [Load(id)]))
      else if p.created == "" then Ok(CreateFailure([Load(id), StartNew]))
      else Ok(Selected(p.created, [Load(id), StartNew]))
    else if p.created == "" then Ok(CreateFailure([StartNew]))
    else Ok(Selected(p.created, [StartNew]))
  }

  /** {"error": TooLong, "current_length": n}. */
  function TooLongDoc(n: nat): Json
  {
    SetAll([("error", JStr(TooLong)), ("current_length", JInt(n))])
  }

  /** {"status": "success", "conversation_id": id, "response": reply, "is_split": false}. */
  function ChatReplyDoc(id: string, reply: string): Json
  {
    SetAll([("status", JStr("success")), ("conversation_id", JStr(id)),
            ("response", JStr(reply)), ("is_split", JBool(false))])
  }

  /** handleApiChat on a parsed body. */
  function ChatOnDoc(doc: Json, p: Peer, dump: Json -> string): Turn
  {
    match ChatMessage(doc)
    case Throw(e) => Turn(JsonResponse(400, dump(InvalidDoc(e))), [])
    case Ok(message) =>
      match Select(doc, p)
      case Throw(e) => Turn(JsonResponse(400, dump(InvalidDoc(e))), [])
      case Ok(CreateFailure(calls)) => Turn(JsonResponse(500, CreateFailed), calls)
      case Ok(Selected(id, calls)) =>
        if |message| > MaxUserMessageLength then
          Turn(JsonResponse(400, dump(TooLongDoc(|message|))), calls)
        else
          Turn(JsonResponse(200, dump(ChatReplyDoc(id, p.reply(message)))), calls + [Process(message)])
  }

  /** handleApiChat. */
  function ChatTurn(req: HttpRequest, assistant: Option<Peer>, env: Env): Turn
  {
    if assistant.None? then Turn(JsonResponse(500, NotAvailable), [])
    else match env.parse(req.body)
      case Unparsable(what) => Turn(JsonResponse(400, env.dump(InvalidDoc(what))), [])
      case Parsed(doc) => ChatOnDoc(doc, assistant.value, env.dump)
  }

  /** Without an assistant nothing is called and the answer is 500. */
  lemma ChatWithoutAssistant(req: HttpRequest, env: Env)
    ensures ChatTurn(req, None, env) == Turn(JsonResponse(500, NotAvailable), [])
  {
  }

  /** A request with a string message and no conversation_id (or a null one)
      starts a new conversation before anything else. */
  lemma ChatMissingIdStartsNew(doc: Json, p: Peer, dump: Json -> string, message: string)
    requires ChatMessage(doc) == Ok(message)
    requires !Has(doc, "conversation_id") || Member(doc, "conversation_id").JNull?
    ensures |ChatOnDoc(doc, p, dump).calls| > 0 && ChatOnDoc(doc, p, dump).calls[0] == StartNew
    ensures p.created == "" ==> ChatOnDoc(doc, p, dump) == Turn(JsonResponse(500, CreateFailed), [StartNew])
  {
  }

  /** An empty conversation_id neither loads nor starts a conversation. */
  lemma ChatEmptyIdKeeps(doc: Json, p: Peer, dump: Json -> string, message: string)
    requires ChatMessage(doc) == Ok(message)
    requires Has(doc, "conversation_id") && Member(doc, "conversation_id") == JStr("")
    ensures Load("") !in ChatOnDoc(doc, p, dump).calls && StartNew !in ChatOnDoc(doc, p, dump).calls
  {
  }

  /** A non-empty conversation_id is loaded first; a new conversation is started
      exactly when loading fails, and when that creation fails too the answer is 500
      without processing the message. */
  lemma ChatNamedId(doc: Json, p: Peer, dump: Json -> string, message: string, id: string)
    requires ChatMessage(doc) == Ok(message)
    requires Has(doc, "conversation_id") && Member(doc, "conversation_id") == JStr(id) && id != ""
    ensures |ChatOnDoc(doc, p, dump).calls| > 0 && ChatOnDoc(doc, p, dump).calls[0] == Load(id)
    ensures StartNew in ChatOnDoc(doc, p, dump).calls <==> !p.loads(id)
    ensures !p.loads(id) && p.created == "" ==>
              ChatOnDoc(doc, p, dump) == Turn(JsonResponse(500, CreateFailed), [Load(id), StartNew])
  {
    SelectNamed(doc, p, id);
    var s := Select(doc, p).value;
    ChatCallsFollowSelection(doc, p, dump, message, s);
    assert s.calls == if p.loads(id) then [Load(id)] else [Load(id), StartNew];
  }

  /** The selection for a non-empty string id. */
  lemma SelectNamed(doc: Json, p: Peer, id: string)
    requires Has(doc, "conversation_id") && Member(doc, "conversation_id") == JStr(id) && id != ""
    ensures Select(doc, p) == if p.loads(id) then Ok(Selected(id, [Load(id)]))
                              else if p.created == "" then Ok(CreateFailure([Load(id), StartNew]))
                              else Ok(Selected(p.created, [Load(id), StartNew]))
  {
  }

  /** The calls of a chat turn are those of the selection, followed by the
      processing of the message or by nothing; a failed creation answers 500. */
  lemma ChatCallsFollowSelection(doc: Json, p: Peer, dump: Json -> string, message: string, s: Selection)
    requires ChatMessage(doc) == Ok(message) && Select(doc, p) == Ok(s)
    ensures ChatOnDoc(doc, p, dump).calls in {s.calls, s.calls + [Process(message)]}
    ensures s.CreateFailure? ==> ChatOnDoc(doc, p, dump) == Turn(JsonResponse(500, CreateFailed), s.calls)
  {
  }

  /** The length limit is checked after the conversation is chosen: an over-long
      message still switches conversations, is answered 400 and is not processed. */
  lemma ChatTooLongAfterSelection(doc: Json, p: Peer, dump: Json -> string, message: string, id: string, calls: seq<Call>)
    requires ChatMessage(doc) == Ok(message) && |message| > MaxUserMessageLength
    requires Select(doc, p) == Ok(Selected(id, calls))
    ensures ChatOnDoc(doc, p, dump) == Turn(JsonResponse(400, dump(TooLongDoc(|message|))), calls)
    ensures Process(message) !in ChatOnDoc(doc, p, dump).calls
  {
    assert Process(message) !in calls;
  }

  /** The selection never processes input. */
  lemma SelectProcessesNothing(doc: Json, p: Peer, s: Selection, input: string)
    requires Select(doc, p) == Ok(s)
    ensures Process(input) !in s.calls
  {
  }

  /** A turn that is answered 200 processed the message, last; every other turn
      processed nothing. */
  lemma ChatProcessesOnSuccess(doc: Json, p: Peer, dump: Json -> string)
    ensures var t := ChatOnDoc(doc, p, dump);
            t.response.status == 200 <==> ChatMessage(doc).Ok? && |t.calls| > 0 && t.calls[|t.calls| - 1] == Process(ChatMessage(doc).value)
    ensures var t := ChatOnDoc(doc, p, dump);
            t.response.status != 200 ==> forall input :: Process(input) !in t.calls
  {
    var t := ChatOnDoc(doc, p, dump);
    match ChatMessage(doc)
    case Throw(_) =>
    case Ok(message) =>
      match Select(doc, p)
      case Throw(_) =>
      case Ok(s) =>
        forall input ensures Process(input) !in s.calls {
          SelectProcessesNothing(doc, p, s, input);
        }
  }

  /** The reply document holds the chosen id and the assistant's reply. */
  lemma ChatReplyFields(id: string, reply: string)
    ensures ChatReplyDoc(id, reply).JObj?
    ensures Get(ChatReplyDoc(id, reply).fields, "conversation_id") == Some(JStr(id))
    ensures Get(ChatReplyDoc(id, reply).fields, "response") == Some(JStr(reply))
    ensures Get(ChatReplyDoc(id, reply).fields, "status") == Some(JStr("success"))
  {
    var pairs := [("status", JStr("success")), ("conversation_id", JStr(id)),
                  ("response", JStr(reply)), ("is_split", JBool(false))];
    assert DistinctKeys(pairs);
    SetAllGet(pairs, 0);
    SetAllGet(pairs, 1);
    SetAllGet(pairs, 2);
  }

  // ---------------------------------------------------------------------------
  // handleApiDeleteConversation

  /** {"success": true, "message": "Conversation deleted successfully"}. */
  function DeletedDoc(): Json
  {
    SetAll([("success", JBool(true)), ("message", JStr("Conversation deleted successfully"))])
  }

  /** {"error": "Conversation not found or could not be deleted"}. */
  function NotDeletedDoc(): Json
  {
    SetAll([("error", JStr("Conversation not found or could not be deleted"))])
  }

  /** conversation_id = request_json["conversation_id"]: a missing id is null and
      fails to convert. */
  function DeleteId(doc: Json): Outcome<string>
  {
    var v :- At(doc, "conversation_id");
    AsString(v)
  }

  /** handleApiDeleteConversation. */
  function DeleteTurn(req: HttpRequest, assistant: Option<Peer>, env: Env): Turn
  {
    if assistant.None? then Turn(JsonResponse(500, NotAvailable), [])
    else match env.parse(req.body)
      case Unparsable(what) => Turn(JsonResponse(400, env.dump(InvalidDoc(what))), [])
      case Parsed(doc) =>
        match DeleteId(doc)
        case Throw(e) => Turn(JsonResponse(400, env.dump(InvalidDoc(e))), [])
        case Ok(id) =>
          if id == "" then Turn(JsonResponse(400, IdRequired), [])
          else if assistant.value.deletes(id) then Turn(JsonResponse(200, env.dump(DeletedDoc())), [Delete(id)])
          else Turn(JsonResponse(404, env.dump(NotDeletedDoc())), [Delete(id)])
  }

  /** A delete request calls deleteConversation at most once, only with a
      non-empty string id, and answers 200 exactly when it succeeds and 404 when it
      does not. */
  lemma DeleteDecides(req: HttpRequest, p: Peer, env: Env)
    ensures var t := DeleteTurn(req, Some(p), env);
            (|t.calls| == 0 && t.response.status in {400, 500}) ||
            (env.parse(req.body).Parsed? && DeleteId(env.parse(req.body).doc).Ok? &&
             var id := DeleteId(env.parse(req.body).doc).value;
             id != "" && t.calls == [Delete(id)] && (t.response.status == 200 <==> p.deletes(id)) &&
             (t.response.status == 404 <==> !p.deletes(id)))
  {
  }

  /** A body without conversation_id, or with an empty one, is refused with 400 and
      nothing is deleted. */
  lemma DeleteNeedsId(req: HttpRequest, p: Peer, env: Env, doc: Json)
    requires env.parse(req.body) == Parsed(doc) && (doc.JNull? || doc.JObj?)
    requires !Has(doc, "conversation_id") || Member(doc, "conversation_id") == JStr("")
    ensures DeleteTurn(req, Some(p), env).response.status == 400
    ensures DeleteTurn(req, Some(p), env).calls == []
  {
  }

  // ---------------------------------------------------------------------------
  // handleOpenAIChat

  const OpenAINotAvailable := "{\"error\": {\"message\": \"Assistant not available\", \"type\": \"internal_error\"}}"
  const MissingMessages := "{\"error\": {\"message\": \"Missing or invalid messages field\", \"type\": \"invalid_request_error\"}}"
  const NoUserMessage := "{\"error\": {\"message\": \"No user message found\", \"type\": \"invalid_request_error\"}}"
  const DefaultModel := "gpt-3.5-turbo"

  /** {"error": {"message": "Invalid request: " + what, "type": "invalid_request_error"}}. */
  function OpenAIInvalidDoc(what: string): Json
  {
    SetAll([("error", SetAll([("message", JStr("Invalid request: " + what)),
                              ("type", JStr("invalid_request_error"))]))])
  }

  /** Whether (*it)["role"] == "user" holds for a message that can be indexed. */
  predicate IsUser(m: Json)
  {
    At(m, "role") == Ok(JStr("user"))
  }

  /** (*it)["content"] converted to a string. */
  function Content(m: Json): Outcome<string>
  {
    var c :- At(m, "content");
    AsString(c)
  }

  /** The reverse scan for the last user message: "" when there is none; indexing a
      message that is neither an object nor null, or a user message whose content is
      not a string, throws. */
  function LastUser(ms: seq<Json>): Outcome<string>
    decreases |ms|
  {
    if |ms| == 0 then Ok("")
    else
      var m := ms[|ms| - 1];
      var role :- At(m, "role");
      if role == JStr("user") then Content(m) else LastUser(ms[..|ms| - 1])
  }

  /** The scan as the source writes it, from the back. */
  method LastUserMessage(ms: seq<Json>) returns (r: Outcome<string>)
    ensures r == LastUser(ms)
  {
    var k := |ms|;
    assert ms[..k] == ms;
    while k > 0
      invariant 0 <= k <= |ms|
      invariant LastUser(ms[..k]) == LastUser(ms)
    {
      var m := ms[k - 1];
      assert ms[..k][..k - 1] == ms[..k - 1];
      var role := At(m, "role");
      if role.Throw? {
        return Throw(role.what);
      }
      if role.value == JStr("user") {
        r := Content(m);
        return;
      }
      k := k - 1;
    }
    return Ok("");
  }

  /** A message that can be indexed and is not a user message. */
  predicate Skipped(m: Json)
  {
    (m.JNull? || m.JObj?) && !IsUser(m)
  }

  /** A last message that is a user message is the one found. */
  lemma LastUserAtEnd(ms: seq<Json>)
    requires |ms| > 0 && IsUser(ms[|ms| - 1])
    ensures LastUser(ms) == Content(ms[|ms| - 1])
  {
  }

  /** A skipped last message leaves the scan to the messages before it. */
  lemma LastUserSkips(ms: seq<Json>)
    requires |ms| > 0 && Skipped(ms[|ms| - 1])
    ensures LastUser(ms) == LastUser(ms[..|ms| - 1])
  {
  }

  /** The user message found is the one at the last index with role "user": every
      later message is skipped. */
  lemma {:induction false} LastUserIs(ms: seq<Json>, i: nat)
    requires i < |ms| && IsUser(ms[i])
    requires forall j :: i < j < |ms| ==> Skipped(ms[j])
    ensures LastUser(ms) == Content(ms[i])
    decreases |ms|
  {
    var n := |ms| - 1;
    if i == n {
      LastUserAtEnd(ms);
    } else {
      var prefix := ms[..n];
      forall j | i <= j < |prefix|
        ensures prefix[j] == ms[j]
      {
      }
      LastUserIs(prefix, i);
      LastUserSkips(ms);
    }
  }

  /** Without a user message the scan finds "". */
  lemma {:induction false} NoUserFound(ms: seq<Json>)
    requires forall j :: 0 <= j < |ms| ==> Skipped(ms[j])
    ensures LastUser(ms) == Ok("")
    decreases |ms|
  {
    if |ms| > 0 {
      var prefix := ms[..|ms| - 1];
      forall j | 0 <= j < |prefix|
        ensures prefix[j] == ms[j]
      {
      }
      NoUserFound(prefix);
      LastUserSkips(ms);
    }
  }

  /** A last message that cannot be indexed makes the scan throw. */
  lemma LastUserThrowsAtEnd(ms: seq<Json>)
    requires |ms| > 0 && !(ms[|ms| - 1].JNull? || ms[|ms| - 1].JObj?)
    ensures LastUser(ms).Throw?
  {
  }

  /** A message after the last user message that cannot be indexed makes the scan
      throw. */
  lemma {:induction false} ScanThrows(ms: seq<Json>, i: nat)
    requires i < |ms| && !(ms[i].JNull? || ms[i].JObj?)
    requires forall j :: i < j < |ms| ==> Skipped(ms[j])
    ensures LastUser(ms).Throw?
    decreases |ms|
  {
    var n := |ms| - 1;
    if i == n {
      LastUserThrowsAtEnd(ms);
    } else {
      var prefix := ms[..n];
      forall j | i <= j < |prefix|
        ensures prefix[j] == ms[j]
      {
      }
      ScanThrows(prefix, i);
      LastUserSkips(ms);
    }
  }

  /** The usage estimate: a quarter of each length, rounded down, and their sum. */
  function UsageDoc(input: string, reply: string): Json
  {
    SetAll([("prompt_tokens", JInt(|input| / 4)), ("completion_tokens", JInt(|reply| / 4)),
            ("total_tokens", JInt(|input| / 4 + |reply| / 4))])
  }

  /** The single choice: the reply as the assistant's message. */
  function ChoiceDoc(reply: string): Json
  {
    SetAll([("index", JInt(0)),
            ("message", SetAll([("role", JStr("assistant")), ("content", JStr(reply))])),
            ("finish_reason", JStr("stop"))])
  }

  /** The chat.completion document of a processed request. */
  function CompletionDoc(now: int, model: string, input: string, reply: string): Json
  {
    SetAll([("id", JStr("chatcmpl-" + IntToString(now))), ("object", JStr("chat.completion")),
            ("created", JInt(now)), ("model", JStr(model)), ("choices", JArr([ChoiceDoc(reply)])),
            ("usage", UsageDoc(input, reply))])
  }

  /** handleOpenAIChat on a parsed body: the last user message is processed, and
      the model is read only after processing. */
  function OpenAIOnDoc(doc: Json, p: Peer, dump: Json -> string, now: int): Turn
  {
    if !Has(doc, "messages") || !Member(doc, "messages").JArr? then
      Turn(JsonResponse(400, MissingMessages), [])
    else match LastUser(Member(doc, "messages").items)
      case Throw(e) => Turn(JsonResponse(400, dump(OpenAIInvalidDoc(e))), [])
      case Ok(input) =>
        if input == "" then Turn(JsonResponse(400, NoUserMessage), [])
        else match ValueOr(doc, "stream", false, AsBool)
          case Throw(e) => Turn(JsonResponse(400, dump(OpenAIInvalidDoc(e))), [])
          case Ok(_) =>
            var reply := p.reply(input);
            match ValueOr(doc, "model", DefaultModel, AsString)
            case Throw(e) => Turn(JsonResponse(400, dump(OpenAIInvalidDoc(e))), [Process(input)])
            case Ok(model) => Turn(JsonResponse(200, dump(CompletionDoc(now, model, input, reply))), [Process(input)])
  }

  /** handleOpenAIChat. */
  function OpenAITurn(req: HttpRequest, assistant: Option<Peer>, env: Env): Turn
  {
    if assistant.None? then Turn(JsonResponse(500, OpenAINotAvailable), [])
    else match env.parse(req.body)
      case Unparsable(what) => Turn(JsonResponse(400, env.dump(OpenAIInvalidDoc(what))), [])
      case Parsed(doc) => OpenAIOnDoc(doc, assistant.value, env.dump, env.now)
  }

  /** handleOpenAIChat, with its reverse loop; both values of the stream flag take
      the same path. */
  method HandleOpenAIChat(req: HttpRequest, assistant: Option<Peer>, env: Env) returns (t: Turn)
    ensures t == OpenAITurn(req, assistant, env)
  {
    if assistant.None? {
      return Turn(JsonResponse(500, OpenAINotAvailable), []);
    }
    var body := env.parse(req.body);
    if body.Unparsable? {
      return Turn(JsonResponse(400, env.dump(OpenAIInvalidDoc(body.what))), []);
    }
    var doc := body.doc;
    if !Has(doc, "messages") || !Member(doc, "messages").JArr? {
      return Turn(JsonResponse(400, MissingMessages), []);
    }
    var input := LastUserMessage(Member(doc, "messages").items);
    if input.Throw? {
      return Turn(JsonResponse(400, env.dump(OpenAIInvalidDoc(input.what))), []);
    }
    if input.value == "" {
      return Turn(JsonResponse(400, NoUserMessage), []);
    }
    var stream := ValueOr(doc, "stream", false, AsBool);
    if stream.Throw? {
      return Turn(JsonResponse(400, env.dump(OpenAIInvalidDoc(stream.what))), []);
    }
    var reply := assistant.value.reply(input.value);
    var model := ValueOr(doc, "model", DefaultModel, AsString);
    if model.Throw? {
      return Turn(JsonResponse(400, env.dump(OpenAIInvalidDoc(model.what))), [Process(input.value)]);
    }
    t := Turn(JsonResponse(200, env.dump(CompletionDoc(env.now, model.value, input.value, reply))),
              [Process(input.value)]);
  }

  /** A body whose messages field is missing or not an array is refused with 400
      before the assistant is called. */
  lemma OpenAINeedsMessages(doc: Json, p: Peer, dump: Json -> string, now: int)
    requires !Has(doc, "messages") || !Member(doc, "messages").JArr?
    ensures OpenAIOnDoc(doc, p, dump, now) == Turn(JsonResponse(400, MissingMessages), [])
  {
  }

  /** The message processed is the content of the last user message, and it is
      processed exactly when it is not empty (and stream is absent or boolean). */
  lemma OpenAIProcessesLastUser(doc: Json, p: Peer, dump: Json -> string, now: int, ms: seq<Json>, i: nat, input: string)
    requires Has(doc, "messages") && Member(doc, "messages") == JArr(ms)
    requires i < |ms| && IsUser(ms[i]) && Content(ms[i]) == Ok(input)
    requires forall j :: i < j < |ms| ==> Skipped(ms[j])
    requires ValueOr(doc, "stream", false, AsBool).Ok?
    ensures input == "" ==> OpenAIOnDoc(doc, p, dump, now) == Turn(JsonResponse(400, NoUserMessage), [])
    ensures input != "" ==> OpenAIOnDoc(doc, p, dump, now).calls == [Process(input)]
  {
    LastUserIs(ms, i);
  }

  /** The usage counters read back as a quarter of each length and their sum. */
  lemma UsageCounts(input: string, reply: string)
    ensures UsageDoc(input, reply).JObj?
    ensures Get(UsageDoc(input, reply).fields, "prompt_tokens") == Some(JInt(|input| / 4))
    ensures Get(UsageDoc(input, reply).fields, "completion_tokens") == Some(JInt(|reply| / 4))
    ensures Get(UsageDoc(input, reply).fields, "total_tokens") == Some(JInt(|input| / 4 + |reply| / 4))
  {
    var pairs := [("prompt_tokens", JInt(|input| / 4)), ("completion_tokens", JInt(|reply| / 4)),
                  ("total_tokens", JInt(|input| / 4 + |reply| / 4))];
    assert DistinctKeys(pairs);
    SetAllGet(pairs, 0);
    SetAllGet(pairs, 1);
    SetAllGet(pairs, 2);
  }

  /** The stream flag does not change the answer: a body with "stream": true is
      answered as the same body with "stream": false. */
  lemma StreamIrrelevant(fs: OMap<Json>, p: Peer, dump: Json -> string, now: int)
    ensures OpenAIOnDoc(JObj(Insert(fs, "stream", JBool(true))), p, dump, now)
         == OpenAIOnDoc(JObj(Insert(fs, "stream", JBool(false))), p, dump, now)
  {
    var t := Insert(fs, "stream", JBool(true));
    var f := Insert(fs, "stream", JBool(false));
    InsertKeeps(fs, "stream", JBool(true), "messages");
    InsertKeeps(fs, "stream", JBool(false), "messages");
    InsertKeeps(fs, "stream", JBool(true), "model");
    InsertKeeps(fs, "stream", JBool(false), "model");
    InsertReads(fs, "stream", JBool(true));
    InsertReads(fs, "stream", JBool(false));
  }

  // ---------------------------------------------------------------------------
  // Routing

  /** What a route runs: a built-in handler, the CORS preflight answer (a default
      response), or a handler given from outside that may throw. */
  datatype Route = Builtin(handler: Handler) | Preflight | Custom(respond: HttpRequest -> Outcome<HttpResponse>)

  /** The key of a route: the method, a space and the path. */
  function RouteKey(verb: string, path: string): (k: string)
    ensures |k| == |verb| + 1 + |path| && k[|verb|] == ' '
  {
    verb + " " + path
  }

  /** Keys of methods without spaces name one route each. */
  lemma RouteKeyInjective(v1: string, p1: string, v2: string, p2: string)
    requires ' ' !in v1 && ' ' !in v2 && RouteKey(v1, p1) == RouteKey(v2, p2)
    ensures v1 == v2 && p1 == p2
  {
    var k := RouteKey(v1, p1);
    assert v1 == k[..|v1|] == v2;
    assert p1 == k[|v1| + 1..] == p2;
  }

  /** With a space inside a method the key is ambiguous: "GET a" + "b" and "GET" +
      "a b" share a route. */
  lemma RouteKeyAmbiguous()
    ensures RouteKey("GET a", "b") == RouteKey("GET", "a b")
  {
  }

  /** The response of the abnormal end of a throwing handler: a default response
      with status 500. */
  function HandlerFailed(): (r: HttpResponse)
    ensures r.status == 500 && r.body == "Internal Server Error"
  {
    DefaultResponse().(status := 500, body := "Internal Server Error")
  }

  /** The four CORS header assignments of handleRequest. */
  function Cors(r: HttpResponse): HttpResponse
  {
    var h0 := Insert(r.headers, "Access-Control-Allow-Origin", "*");
    var h1 := Insert(h0, "Access-Control-Allow-Methods", "GET, POST, DELETE, OPTIONS");
    var h2 := Insert(h1, "Access-Control-Allow-Headers", "Content-Type, Authorization");
    var h3 := Insert(h2, "Access-Control-Max-Age", "86400");
    r.(headers := h3)
  }

  /** Every response leaves with the four fixed CORS values; status, body and every
      other header are the handler's. */
  lemma CorsHeaders(r: HttpResponse)
    ensures Cors(r).status == r.status && Cors(r).body == r.body
    ensures Get(Cors(r).headers, "Access-Control-Allow-Origin") == Some("*")
    ensures Get(Cors(r).headers, "Access-Control-Allow-Methods") == Some("GET, POST, DELETE, OPTIONS")
    ensures Get(Cors(r).headers, "Access-Control-Allow-Headers") == Some("Content-Type, Authorization")
    ensures Get(Cors(r).headers, "Access-Control-Max-Age") == Some("86400")
  {
    var h0 := Insert(r.headers, "Access-Control-Allow-Origin", "*");
    var h1 := Insert(h0, "Access-Control-Allow-Methods", "GET, POST, DELETE, OPTIONS");
    var h2 := Insert(h1, "Access-Control-Allow-Headers", "Content-Type, Authorization");
    var h3 := Insert(h2, "Access-Control-Max-Age", "86400");
    CorsKeys();
    KeepsThrough(h0, h1, h2, h3, "Access-Control-Allow-Origin", Some("*"));
    KeepsThrough2(h1, h2, h3, "Access-Control-Allow-Methods", Some("GET, POST, DELETE, OPTIONS"));
    InsertKeeps(h2, "Access-Control-Max-Age", "86400", "Access-Control-Allow-Headers");
  }

  /** The four CORS keys are distinct. */
  lemma CorsKeys()
    ensures "Access-Control-Allow-Origin" != "Access-Control-Allow-Methods"
    ensures "Access-Control-Allow-Origin" != "Access-Control-Allow-Headers"
    ensures "Access-Control-Allow-Origin" != "Access-Control-Max-Age"
    ensures "Access-Control-Allow-Methods" != "Access-Control-Allow-Headers"
    ensures "Access-Control-Allow-Methods" != "Access-Control-Max-Age"
    ensures "Access-Control-Allow-Headers" != "Access-Control-Max-Age"
  {
    assert "Access-Control-Allow-Origin"[21] != "Access-Control-Allow-Methods"[21];
    assert "Access-Control-Allow-Origin"[21] != "Access-Control-Allow-Headers"[21];
    assert "Access-Control-Allow-Origin"[15] != "Access-Control-Max-Age"[15];
    assert "Access-Control-Allow-Methods"[21] != "Access-Control-Allow-Headers"[21];
    assert "Access-Control-Allow-Methods"[15] != "Access-Control-Max-Age"[15];
    assert "Access-Control-Allow-Headers"[15] != "Access-Control-Max-Age"[15];
  }

  lemma KeepsThrough(h0: OMap<string>, h1: OMap<string>, h2: OMap<string>, h3: OMap<string>, k: string, v: Option<string>)
    requires Get(h0, k) == v
    requires h1 == Insert(h0, "Access-Control-Allow-Methods", "GET, POST, DELETE, OPTIONS") && k != "Access-Control-Allow-Methods"
    requires h2 == Insert(h1, "Access-Control-Allow-Headers", "Content-Type, Authorization") && k != "Access-Control-Allow-Headers"
    requires h3 == Insert(h2, "Access-Control-Max-Age", "86400") && k != "Access-Control-Max-Age"
    ensures Get(h3, k) == v
  {
    InsertKeeps(h0, "Access-Control-Allow-Methods", "GET, POST, DELETE, OPTIONS", k);
    KeepsThrough2(h1, h2, h3, k, v);
  }

  lemma KeepsThrough2(h1: OMap<string>, h2: OMap<string>, h3: OMap<string>, k: string, v: Option<string>)
    requires Get(h1, k) == v
    requires h2 == Insert(h1, "Access-Control-Allow-Headers", "Content-Type, Authorization") && k != "Access-Control-Allow-Headers"
    requires h3 == Insert(h2, "Access-Control-Max-Age", "86400") && k != "Access-Control-Max-Age"
    ensures Get(h3, k) == v
  {
    InsertKeeps(h1, "Access-Control-Allow-Headers", "Content-Type, Authorization", k);
    InsertKeeps(h2, "Access-Control-Max-Age", "86400", k);
  }

  /** Headers other than the four CORS keys are the handler's. */
  lemma CorsKeepsOthers(r: HttpResponse, k: string)
    requires k != "Access-Control-Allow-Origin" && k != "Access-Control-Allow-Methods"
    requires k != "Access-Control-Allow-Headers" && k != "Access-Control-Max-Age"
    ensures Get(Cors(r).headers, k) == Get(r.headers, k)
  {
    var h0 := Insert(r.headers, "Access-Control-Allow-Origin", "*");
    InsertKeeps(r.headers, "Access-Control-Allow-Origin", "*", k);
    var h1 := Insert(h0, "Access-Control-Allow-Methods", "GET, POST, DELETE, OPTIONS");
    var h2 := Insert(h1, "Access-Control-Allow-Headers", "Content-Type, Authorization");
    var h3 := Insert(h2, "Access-Control-Max-Age", "86400");
    KeepsThrough(h0, h1, h2, h3, k, Get(r.headers, k));
  }

  /** The routes the constructor registers; the second registration of
      "OPTIONS /api/conversations" replaces the first with an equal route. */
  function DefaultRoutes(): map<string, Route>
  {
    map[][RouteKey("POST", "/api/chat") := Builtin(ApiChat)]
         [RouteKey("GET", "/api/conversations") := Builtin(ApiConversations)]
         [RouteKey("GET", "/api/conversations/messages") := Builtin(ApiConversationMessages)]
         [RouteKey("DELETE", "/api/conversations") := Builtin(ApiDelete)]
         [RouteKey("GET", "/api/status") := Builtin(ApiStatus)]
         [RouteKey("POST", "/v1/chat/completions") := Builtin(OpenAIChat)]
         [RouteKey("GET", "/v1/models") := Builtin(OpenAIModels)]
         [RouteKey("OPTIONS", "/api/chat") := Preflight]
         [RouteKey("OPTIONS", "/api/conversations") := Preflight]
         [RouteKey("OPTIONS", "/api/conversations") := Preflight]
         [RouteKey("OPTIONS", "/v1/chat/completions") := Preflight]
         [RouteKey("OPTIONS", "/v1/models") := Preflight]
  }

  /** The embedded web server: its route table, the assistant it serves and the
      directory of its static files. */
  class HttpServer {
    const port: int
    var routes: map<string, Route>
    var assistant: Option<Peer>
    var staticDirectory: string

    constructor (port: int)
      ensures this.port == port && routes == DefaultRoutes()
      ensures assistant == None && staticDirectory == ""
    {
      this.port := port;
      routes := map[];
      assistant := None;
      staticDirectory := "";
      new;
      AddRoute("POST", "/api/chat", Builtin(ApiChat));
      AddRoute("GET", "/api/conversations", Builtin(ApiConversations));
      AddRoute("GET", "/api/conversations/messages", Builtin(ApiConversationMessages));
      AddRoute("DELETE", "/api/conversations", Builtin(ApiDelete));
      AddRoute("GET", "/api/status", Builtin(ApiStatus));
      AddRoute("POST", "/v1/chat/completions", Builtin(OpenAIChat));
      AddRoute("GET", "/v1/models", Builtin(OpenAIModels));
      AddRoute("OPTIONS", "/api/chat", Preflight);
      AddRoute("OPTIONS", "/api/conversations", Preflight);
      AddRoute("OPTIONS", "/api/conversations", Preflight);
      AddRoute("OPTIONS", "/v1/chat/completions", Preflight);
      AddRoute("OPTIONS", "/v1/models", Preflight);
    }

    /** addRoute: registering an existing key replaces its route. */
    method AddRoute(verb: string, path: string, route: Route)
      modifies this`routes
      ensures routes == old(routes)[RouteKey(verb, path) := route]
    {
      routes := routes[RouteKey(verb, path) := route];
    }

    method SetAssistant(p: Option<Peer>)
      modifies this`assistant
      ensures assistant == p
    {
      assistant := p;
    }

    method SetStaticDirectory(dir: string)
      modifies this`staticDirectory
      ensures staticDirectory == dir
    {
      staticDirectory := dir;
    }

    /** A built-in handler on a request. */
    function Run(h: Handler, req: HttpRequest, env: Env): Turn
      reads this`assistant
    {
      match h
      case ApiChat => ChatTurn(req, assistant, env)
      case ApiDelete => DeleteTurn(req, assistant, env)
      case OpenAIChat => OpenAITurn(req, assistant, env)
      case _ => Turn(env.elsewhere(h, req), [])
    }

    /** handleRequest, before the CORS headers: the exact route of the key, its
        failure answered 500; no route, the static file. */
    function Routed(req: HttpRequest, env: Env): Turn
      reads this
    {
      var key := RouteKey(req.httpMethod, req.path);
      if key !in routes then Turn(StaticFile(staticDirectory, req.path, env.read), [])
      else match routes[key]
        case Builtin(h) => Run(h, req, env)
        case Preflight => Turn(DefaultResponse(), [])
        case Custom(respond) =>
          match respond(req)
          case Ok(r) => Turn(r, [])
          case Throw(_) => Turn(HandlerFailed(), [])
    }

    /** handleRequest. */
    method HandleRequest(req: HttpRequest, env: Env) returns (t: Turn)
      ensures t == Turn(Cors(Routed(req, env).response), Routed(req, env).calls)
    {
      var turn := Dispatch(req, env);
      t := Turn(Cors(turn.response), turn.calls);
    }

    /** The route lookup of handleRequest and the handler it runs. */
    method Dispatch(req: HttpRequest, env: Env) returns (turn: Turn)
      ensures turn == Routed(req, env)
    {
      var key := RouteKey(req.httpMethod, req.path);
      if key !in routes {
        return Turn(StaticFile(staticDirectory, req.path, env.read), []);
      }
      var route := routes[key];
      if route.Builtin? {
        turn := RunHandler(route.handler, req, env);
      } else if route.Preflight? {
        turn := Turn(DefaultResponse(), []);
      } else {
        var outcome := route.respond(req);
        if outcome.Ok? {
          turn := Turn(outcome.value, []);
        } else {
          turn := Turn(HandlerFailed(), []);
        }
      }
    }

    /** A built-in handler; the OpenAI-compatible one with its loop. */
    method RunHandler(h: Handler, req: HttpRequest, env: Env) returns (turn: Turn)
      ensures turn == Run(h, req, env)
    {
      match h
      case OpenAIChat => turn := HandleOpenAIChat(req, assistant, env);
      case _ => turn := Run(h, req, env);
    }

    /** A request with no exact route is a static-file request. */
    lemma MissServesFile(req: HttpRequest, env: Env)
      requires RouteKey(req.httpMethod, req.path) !in routes
      ensures Routed(req, env) == Turn(StaticFile(staticDirectory, req.path, env.read), [])
    {
    }

    /** A throwing handler is answered 500 "Internal Server Error". */
    lemma ThrowingRouteFails(req: HttpRequest, env: Env, what: string)
      requires RouteKey(req.httpMethod, req.path) in routes
      requires routes[RouteKey(req.httpMethod, req.path)].Custom?
      requires routes[RouteKey(req.httpMethod, req.path)].respond(req) == Throw(what)
      ensures Routed(req, env).response.status == 500
      ensures Routed(req, env).response.body == "Internal Server Error"
    {
    }
  }

  /** After the constructor every API path answers its preflight, and the chat
      route runs the chat handler. */
  lemma DefaultRouteTable()
    ensures forall path :: path in {"/api/chat", "/api/conversations", "/v1/chat/completions", "/v1/models"} ==>
              RouteKey("OPTIONS", path) in DefaultRoutes() && DefaultRoutes()[RouteKey("OPTIONS", path)].Preflight?
    ensures RouteKey("POST", "/api/chat") in DefaultRoutes() && DefaultRoutes()[RouteKey("POST", "/api/chat")] == Builtin(ApiChat)
  {
  }
}
