/** The LLM provider adapters: the choice of adapter, the request payloads and
    headers each provider gets, the decision trees that read its replies, and the
    chat-completion glue over an abstract transport. */
module Llm {
  import opened Wrappers
  import opened Strings
  import opened OrderedMap
  import opened Json
  import opened Types

  datatype Provider = OpenAI | Anthropic | Custom

  /** createClient: the adapter chosen from the provider name; every name gets one. */
  function ProviderFor(name: string): (p: Provider)
    ensures p == OpenAI <==> name == "openai"
    ensures p == Anthropic <==> name == "anthropic"
    ensures p == Custom <==> name != "openai" && name != "anthropic"
  {
    if name == "openai" then OpenAI else if name == "anthropic" then Anthropic else Custom
  }

  // ---------------------------------------------------------------------------
  // Transport

  /** What one transfer produced: curl's error text, or a status code and the body
      as the JSON parser sees it. */
  datatype Exchange = CurlFailed(error: string) | Completed(status: int, body: Body)

  /** HTTPResponse. */
  datatype HttpResult = HttpResult(success: bool, statusCode: int, body: Body, errorMessage: string)

  /** HTTPClient::post once the transfer is over: only a 2xx status is a success,
      and a completed transfer carries no error text. After a curl error the status
      is never assigned; 0 stands for it here. */
  function PostResult(e: Exchange): (h: HttpResult)
    ensures e.CurlFailed? ==> !h.success && h.errorMessage == e.error
    ensures e.Completed? ==> h.statusCode == e.status && h.body == e.body && h.errorMessage == ""
    ensures e.Completed? ==> (h.success <==> 200 <= e.status < 300)
  {
    match e
    case CurlFailed(err) => HttpResult(false, 0, Unparsable(""), err)
    case Completed(status, body) => HttpResult(200 <= status < 300, status, body, "")
  }

  /** The characters HeaderCallback trims from both ends of a key and a value. */
  const HeaderSpace: set<char> := {' ', '\t', '\r', '\n'}

  /** The key of a header line whose first ':' is at c: the text before it with
      the blanks around it removed. */
  function HeaderKey(line: string, c: nat): (key: string)
    requires c < |line| && ':' !in line[..c]
    ensures ':' !in key
    ensures Trimmed(line[..c], key, HeaderSpace, HeaderSpace)
  {
    Trim(line[..c], HeaderSpace, HeaderSpace)
  }

  /** The value of a header line whose first ':' is at c: the text after it with
      the blanks around it removed. */
  function HeaderValue(line: string, c: nat): (value: string)
    requires c < |line|
    ensures Trimmed(line[c + 1..], value, HeaderSpace, HeaderSpace)
  {
    Trim(line[c + 1..], HeaderSpace, HeaderSpace)
  }

  /** HeaderCallback on one received header line: a line with a ':' records its key
      under its value, replacing an earlier value of that key; a line without one
      (the status line, the blank line) is ignored. */
  function HeaderLine(m: OMap<string>, line: string): (r: OMap<string>)
    ensures FindChar(line, ':').None? ==> r == m
    ensures FindChar(line, ':').Some? ==>
      var c := FindChar(line, ':').value;
      && Get(r, HeaderKey(line, c)) == Some(HeaderValue(line, c))
      && (forall k :: k != HeaderKey(line, c) ==> Get(r, k) == Get(m, k))
  {
    match FindChar(line, ':')
    case None => m
    case Some(c) => Insert(m, HeaderKey(line, c), HeaderValue(line, c))
  }

  /** The response headers HeaderCallback collects from the lines, in arrival order. */
  function HeaderLines(m: OMap<string>, lines: seq<string>): OMap<string>
    decreases |lines|
  {
    if |lines| == 0 then m else HeaderLines(HeaderLine(m, lines[0]), lines[1..])
  }

  // ---------------------------------------------------------------------------
  // Request payloads

  /** One message as an object with its "content" and "role" (in key order). */
  function MessageJson(m: Message): Json
  {
    JObj([("content", JStr(m.content)), ("role", JStr(m.role))])
  }

  /** The assignments json_msg["role"] and json_msg["content"], in that order. */
  function MessagePairs(m: Message): seq<(string, Json)>
  {
    [("role", JStr(m.role)), ("content", JStr(m.content))]
  }

  /** The two assignments build exactly the message object: an increasing map that
      holds the role and the content and nothing else. */
  lemma MessageJsonFields(m: Message)
    ensures SetAll(MessagePairs(m)) == MessageJson(m)
    ensures Increasing(MessageJson(m).fields)
    ensures Get(MessageJson(m).fields, "role") == Some(JStr(m.role))
    ensures Get(MessageJson(m).fields, "content") == Some(JStr(m.content))
    ensures forall k :: HasKey(MessageJson(m).fields, k) ==> k == "role" || k == "content"
  {
    var ps := MessagePairs(m);
    assert StrLt("content", "role");
    assert SetAll(ps[..1]) == JObj([("role", JStr(m.role))]);
  }

  /** The messages array, built by pushing one object per message. */
  function MessagesJson(ms: seq<Message>): (r: seq<Json>)
    ensures |r| == |ms|
    ensures forall i :: 0 <= i < |ms| ==> r[i] == MessageJson(ms[i])
    decreases |ms|
  {
    if |ms| == 0 then [] else MessagesJson(ms[..|ms| - 1]) + [MessageJson(ms[|ms| - 1])]
  }

  /** The messages the Anthropic adapter sends in its array: the non-system ones. */
  function NonSystem(ms: seq<Message>): (r: seq<Message>)
    ensures |r| <= |ms|
    ensures forall i :: 0 <= i < |r| ==> r[i].role != "system" && r[i] in ms
    decreases |ms|
  {
    if |ms| == 0 then []
    else if ms[|ms| - 1].role == "system" then NonSystem(ms[..|ms| - 1])
    else NonSystem(ms[..|ms| - 1]) + [ms[|ms| - 1]]
  }

  /** Filtering distributes over concatenation, so the kept messages keep their order. */
  lemma {:induction false} NonSystemConcat(a: seq<Message>, b: seq<Message>)
    ensures NonSystem(a + b) == NonSystem(a) + NonSystem(b)
    decreases |b|
  {
    if |b| == 0 {
      assert a + b == a;
    } else {
      var b0 := b[..|b| - 1];
      NonSystemConcat(a, b0);
      assert (a + b)[..|a + b| - 1] == a + b0;
    }
  }

  /** Without system messages nothing is dropped. */
  lemma {:induction false} NonSystemKeepsAll(ms: seq<Message>)
    requires forall i :: 0 <= i < |ms| ==> ms[i].role != "system"
    ensures NonSystem(ms) == ms
    decreases |ms|
  {
    if |ms| > 0 {
      var prefix := ms[..|ms| - 1];
      NonSystemKeepsAll(prefix);
      assert ms == prefix + [ms[|ms| - 1]];
    }
  }

  /** A system message alone is dropped and any other message alone is kept. */
  lemma NonSystemSingle(m: Message)
    ensures NonSystem([m]) == if m.role == "system" then [] else [m]
  {
    assert [m][..0] == [];
  }

  /** The content of the last system message, "" when there is none. */
  function LastSystem(ms: seq<Message>): string
    decreases |ms|
  {
    if |ms| == 0 then ""
    else if ms[|ms| - 1].role == "system" then ms[|ms| - 1].content
    else LastSystem(ms[..|ms| - 1])
  }

  /** The system text is the content of the system message that no later message
      follows with role "system". */
  lemma {:induction false} LastSystemFound(ms: seq<Message>, k: nat)
    requires k < |ms| && ms[k].role == "system"
    requires forall i :: k < i < |ms| ==> ms[i].role != "system"
    ensures LastSystem(ms) == ms[k].content
    decreases |ms|
  {
    var n := |ms| - 1;
    if k < n {
      var prefix := ms[..n];
      forall i | k <= i < |prefix|
        ensures prefix[i] == ms[i]
      {
      }
      LastSystemFound(prefix, k);
    }
  }

  /** Without a system message the system text is "". */
  lemma {:induction false} NoSystemFound(ms: seq<Message>)
    requires forall i :: 0 <= i < |ms| ==> ms[i].role != "system"
    ensures LastSystem(ms) == ""
    decreases |ms|
  {
    if |ms| > 0 {
      var prefix := ms[..|ms| - 1];
      forall i | 0 <= i < |prefix|
        ensures prefix[i] == ms[i]
      {
      }
      NoSystemFound(prefix);
    }
  }

  /** The assignments of the OpenAI and custom payloads. */
  function ChatPairs(l: LLMConfig, items: seq<Json>): seq<(string, Json)>
  {
    [("model", JStr(l.modelName)), ("temperature", JFloat(l.temperature)),
     ("max_tokens", JInt(l.maxTokens)), ("messages", JArr(items))]
  }

  /** The assignments of the Anthropic payload: no temperature, and "system" only
      when the system text is non-empty. */
  function AnthropicPairs(l: LLMConfig, system: string, items: seq<Json>): seq<(string, Json)>
  {
    [("model", JStr(l.modelName)), ("max_tokens", JInt(l.maxTokens))]
    + (if system != "" then [("system", JStr(system))] else [])
    + [("messages", JArr(items))]
  }

  /** The OpenAI and custom payload object, in key order. */
  function ChatObject(l: LLMConfig, items: seq<Json>): Json
  {
    JObj([("max_tokens", JInt(l.maxTokens)), ("messages", JArr(items)),
          ("model", JStr(l.modelName)), ("temperature", JFloat(l.temperature))])
  }

  /** The Anthropic payload object, in key order. */
  function AnthropicObject(l: LLMConfig, system: string, items: seq<Json>): Json
  {
    JObj([("max_tokens", JInt(l.maxTokens)), ("messages", JArr(items)), ("model", JStr(l.modelName))]
         + (if system != "" then [("system", JStr(system))] else []))
  }

  /** buildRequestPayload, before dump(). */
  function Payload(kind: Provider, l: LLMConfig, ms: seq<Message>): Json
  {
    match kind
    case Anthropic => AnthropicObject(l, LastSystem(ms), MessagesJson(NonSystem(ms)))
    case _ => ChatObject(l, MessagesJson(ms))
  }

  /** The four assignments of the OpenAI and custom adapters build exactly the
      payload object. */
  lemma ChatAssigned(l: LLMConfig, items: seq<Json>)
    ensures SetAll(ChatPairs(l, items)) == ChatObject(l, items)
  {
    var p0, p1 := ("model", JStr(l.modelName)), ("temperature", JFloat(l.temperature));
    var p2, p3 := ("max_tokens", JInt(l.maxTokens)), ("messages", JArr(items));
    assert ChatPairs(l, items) == [p0, p1, p2] + [p3];
    assert [p0, p1, p2] == [p0, p1] + [p2] && [p0, p1] == [p0] + [p1] && [p0] == [] + [p0];
    SetAllSnoc([], p0);
    SetAllSnoc([p0], p1);
    SetAllSnoc([p0, p1], p2);
    SetAllSnoc([p0, p1, p2], p3);
    KeyOrder();
    InsertAfterOne(p0, p1.0, p1.1);
    InsertFront([p0, p1], p2.0, p2.1);
    InsertSecond(p2, p0, p1, p3.0, p3.1);
  }

  /** The Anthropic adapter's assignments build exactly its payload object, with
      and without the system text. */
  lemma AnthropicAssigned(l: LLMConfig, system: string, items: seq<Json>)
    ensures SetAll(AnthropicPairs(l, system, items)) == AnthropicObject(l, system, items)
  {
    var p0, p1 := ("model", JStr(l.modelName)), ("max_tokens", JInt(l.maxTokens));
    var p3 := ("messages", JArr(items));
    assert [p0, p1] == [p0] + [p1] && [p0] == [] + [p0];
    SetAllSnoc([], p0);
    SetAllSnoc([p0], p1);
    KeyOrder();
    InsertFront([p0], p1.0, p1.1);
    if system != "" {
      AnthropicWithSystem(l, system, items, p0, p1, p3);
    } else {
      AnthropicWithoutSystem(l, items, p0, p1, p3);
    }
  }

  /** The order of the payload keys. */
  lemma KeyOrder()
    ensures StrLt("max_tokens", "model") && !StrLt("temperature", "model")
    ensures !StrLt("messages", "max_tokens") && StrLt("messages", "model")
    ensures !StrLt("system", "max_tokens") && !StrLt("system", "model")
  {
    assert StrLt("max_tokens", "model");
    assert !StrLt("temperature", "model");
    assert !StrLt("messages", "max_tokens") && StrLt("messages", "model");
    assert !StrLt("system", "max_tokens") && !StrLt("system", "model");
  }

  lemma AnthropicWithoutSystem(l: LLMConfig, items: seq<Json>, p0: (string, Json), p1: (string, Json), p3: (string, Json))
    requires p0 == ("model", JStr(l.modelName)) && p1 == ("max_tokens", JInt(l.maxTokens)) && p3 == ("messages", JArr(items))
    requires SetAll([p0, p1]) == JObj([p1, p0])
    ensures SetAll(AnthropicPairs(l, "", items)) == AnthropicObject(l, "", items)
  {
    assert AnthropicPairs(l, "", items) == [p0, p1] + [p3];
    SetAllSnoc([p0, p1], p3);
    KeyOrder();
    InsertSecondOfTwo(p1, p0, p3.0, p3.1);
    EmptySuffix([p1, p3, p0]);
  }

  lemma EmptySuffix<T>(a: seq<T>)
    ensures a + [] == a
  {
  }

  lemma AnthropicWithSystem(l: LLMConfig, system: string, items: seq<Json>, p0: (string, Json), p1: (string, Json), p3: (string, Json))
    requires system != ""
    requires p0 == ("model", JStr(l.modelName)) && p1 == ("max_tokens", JInt(l.maxTokens)) && p3 == ("messages", JArr(items))
    requires SetAll([p0, p1]) == JObj([p1, p0])
    ensures SetAll(AnthropicPairs(l, system, items)) == AnthropicObject(l, system, items)
  {
    var p2 := ("system", JStr(system));
    assert AnthropicPairs(l, system, items) == [p0, p1, p2] + [p3];
    assert [p0, p1, p2] == [p0, p1] + [p2];
    SetAllSnoc([p0, p1], p2);
    SetAllSnoc([p0, p1, p2], p3);
    KeyOrder();
    InsertAfterTwo(p1, p0, p2.0, p2.1);
    InsertSecond(p1, p0, p2, p3.0, p3.1);
    Snoc3(p1, p3, p0, p2);
  }

  lemma Snoc3<T>(a: T, b: T, c: T, d: T)
    ensures [a, b, c] + [d] == [a, b, c, d]
  {
  }

  lemma ChatKeysDistinct(l: LLMConfig, items: seq<Json>)
    ensures DistinctKeys(ChatPairs(l, items))
  {
  }

  lemma AnthropicKeysDistinct(l: LLMConfig, system: string, items: seq<Json>)
    ensures DistinctKeys(AnthropicPairs(l, system, items))
  {
  }

  lemma ChatPairsKeys(l: LLMConfig, items: seq<Json>)
    ensures !HasKey(ChatPairs(l, items), "system")
  {
    var ps := ChatPairs(l, items);
    assert Keys(ps) == ["model", "temperature", "max_tokens", "messages"];
    HasKeyKeys(ps, "system");
  }

  lemma AnthropicPairsKeys(l: LLMConfig, system: string, items: seq<Json>)
    ensures !HasKey(AnthropicPairs(l, system, items), "temperature")
    ensures system == "" ==> !HasKey(AnthropicPairs(l, system, items), "system")
  {
    var ps := AnthropicPairs(l, system, items);
    if system == "" {
      assert Keys(ps) == ["model", "max_tokens", "messages"];
      HasKeyKeys(ps, "system");
    } else {
      assert Keys(ps) == ["model", "max_tokens", "system", "messages"];
    }
    HasKeyKeys(ps, "temperature");
  }

  lemma ChatPairsFields(l: LLMConfig, items: seq<Json>)
    ensures var j := SetAll(ChatPairs(l, items));
      && j.JObj?
      && Get(j.fields, "model") == Some(JStr(l.modelName))
      && Get(j.fields, "temperature") == Some(JFloat(l.temperature))
      && Get(j.fields, "max_tokens") == Some(JInt(l.maxTokens))
      && Get(j.fields, "messages") == Some(JArr(items))
      && !HasKey(j.fields, "system")
  {
    var ps := ChatPairs(l, items);
    ChatKeysDistinct(l, items);
    SetAllGet(ps, 0);
    SetAllGet(ps, 1);
    SetAllGet(ps, 2);
    SetAllGet(ps, 3);
    ChatPairsKeys(l, items);
    SetAllHasKey(ps, "system");
  }

  lemma AnthropicPairsFields(l: LLMConfig, system: string, items: seq<Json>)
    ensures var j := SetAll(AnthropicPairs(l, system, items));
      && j.JObj?
      && Get(j.fields, "model") == Some(JStr(l.modelName))
      && Get(j.fields, "max_tokens") == Some(JInt(l.maxTokens))
      && Get(j.fields, "messages") == Some(JArr(items))
      && Get(j.fields, "system") == (if system != "" then Some(JStr(system)) else None)
      && !HasKey(j.fields, "temperature")
  {
    var ps := AnthropicPairs(l, system, items);
    AnthropicKeysDistinct(l, system, items);
    SetAllGet(ps, 0);
    SetAllGet(ps, 1);
    SetAllGet(ps, |ps| - 1);
    if system != "" {
      SetAllGet(ps, 2);
    } else {
      SetAllHasKey(ps, "system");
    }
    AnthropicPairsKeys(l, system, items);
    SetAllHasKey(ps, "temperature");
  }

  /** What every payload holds: the model and token limit; the OpenAI and custom
      payloads send every message in order with the temperature, the Anthropic one
      sends the non-system messages in order, no temperature, and the last system
      text when it is non-empty. */
  lemma PayloadFields(kind: Provider, l: LLMConfig, ms: seq<Message>)
    ensures var j := Payload(kind, l, ms);
      && j.JObj?
      && Get(j.fields, "model") == Some(JStr(l.modelName))
      && Get(j.fields, "max_tokens") == Some(JInt(l.maxTokens))
      && (kind != Anthropic ==>
            && Get(j.fields, "temperature") == Some(JFloat(l.temperature))
            && Get(j.fields, "messages") == Some(JArr(MessagesJson(ms)))
            && !HasKey(j.fields, "system"))
      && (kind == Anthropic ==>
            && !HasKey(j.fields, "temperature")
            && Get(j.fields, "messages") == Some(JArr(MessagesJson(NonSystem(ms))))
            && Get(j.fields, "system") == (if LastSystem(ms) != "" then Some(JStr(LastSystem(ms))) else None))
  {
    if kind == Anthropic {
      AnthropicObjectFields(l, LastSystem(ms), MessagesJson(NonSystem(ms)));
    } else {
      ChatObjectFields(l, MessagesJson(ms));
    }
  }

  /** The fields of the OpenAI and custom payload object. */
  lemma ChatObjectFields(l: LLMConfig, items: seq<Json>)
    ensures var j := ChatObject(l, items);
      && j.JObj?
      && Get(j.fields, "model") == Some(JStr(l.modelName))
      && Get(j.fields, "temperature") == Some(JFloat(l.temperature))
      && Get(j.fields, "max_tokens") == Some(JInt(l.maxTokens))
      && Get(j.fields, "messages") == Some(JArr(items))
      && !HasKey(j.fields, "system")
  {
    ChatAssigned(l, items);
    ChatPairsFields(l, items);
  }

  /** The fields of the Anthropic payload object. */
  lemma AnthropicObjectFields(l: LLMConfig, system: string, items: seq<Json>)
    ensures var j := AnthropicObject(l, system, items);
      && j.JObj?
      && Get(j.fields, "model") == Some(JStr(l.modelName))
      && Get(j.fields, "max_tokens") == Some(JInt(l.maxTokens))
      && Get(j.fields, "messages") == Some(JArr(items))
      && Get(j.fields, "system") == (if system != "" then Some(JStr(system)) else None)
      && !HasKey(j.fields, "temperature")
  {
    AnthropicAssigned(l, system, items);
    AnthropicPairsFields(l, system, items);
  }

  // ---------------------------------------------------------------------------
  // Request headers

  /** The header names an adapter sets over the configured ones. */
  function AddedHeaders(kind: Provider, l: LLMConfig): set<string>
  {
    match kind
    case OpenAI => {"Authorization"}
    case Anthropic => {"x-api-key", "anthropic-version"}
    case Custom => if l.apiKey != "" then {"Authorization"} else {}
  }

  /** buildHeaders: the configured headers with the adapter's own put over them. */
  function BuildHeaders(kind: Provider, l: LLMConfig): (h: OMap<string>)
    ensures kind == OpenAI ==> Get(h, "Authorization") == Some("Bearer " + l.apiKey)
    ensures kind == Anthropic ==>
      Get(h, "x-api-key") == Some(l.apiKey) && Get(h, "anthropic-version") == Some("2023-06-01")
    ensures kind == Custom ==>
      Get(h, "Authorization") == if l.apiKey != "" then Some("Bearer " + l.apiKey) else Get(l.headers, "Authorization")
    ensures forall k :: k !in AddedHeaders(kind, l) ==> Get(h, k) == Get(l.headers, k)
    ensures Increasing(l.headers) ==> Increasing(h)
  {
    match kind
    case OpenAI => Insert(l.headers, "Authorization", "Bearer " + l.apiKey)
    case Anthropic => Insert(Insert(l.headers, "x-api-key", l.apiKey), "anthropic-version", "2023-06-01")
    case Custom =>
      if l.apiKey != "" then Insert(l.headers, "Authorization", "Bearer " + l.apiKey) else l.headers
  }

  // ---------------------------------------------------------------------------
  // Reading the replies

  const ParseFailurePrefix := "Failed to parse JSON response: "

  /** The response as the try block left it, with the exception that ended the
      block early, if one did. */
  type Attempt = (LLMResponse, Option<string>)

  /** The catch clause: a thrown exception marks the response failed with its text;
      whatever was assigned before the throw stays. */
  function Catch(a: Attempt): LLMResponse
  {
    match a.1
    case None => a.0
    case Some(w) => a.0.(success := false, errorMessage := ParseFailurePrefix + w)
  }

  /** doc["error"]["message"] as a string. */
  function ErrorField(doc: Json): Outcome<string>
  {
    var e :- At(doc, "error");
    var m :- At(e, "message");
    AsString(m)
  }

  /** The custom adapter's error text: the error itself when it is a string, its
      "message" otherwise. */
  function CustomErrorField(doc: Json): Outcome<string>
  {
    var e :- At(doc, "error");
    if e.JStr? then Ok(e.s) else (var m :- At(e, "message"); AsString(m))
  }

  /** doc["choices"][0]["message"]["content"] as a string. */
  function ChoiceContent(doc: Json): Outcome<string>
  {
    var cs :- At(doc, "choices");
    var c0 :- AtIndex(cs, 0);
    var m :- At(c0, "message");
    var s :- At(m, "content");
    AsString(s)
  }

  /** doc["content"][0]["text"] as a string. */
  function ContentText(doc: Json): Outcome<string>
  {
    var cs :- At(doc, "content");
    var c0 :- AtIndex(cs, 0);
    var t :- At(c0, "text");
    AsString(t)
  }

  /** The usage counters, read one after another as ints and stored as decimal
      strings under their own names; the first one that throws stops the rest. */
  function Counters(r: LLMResponse, usage: Json, keys: seq<string>): (a: Attempt)
    ensures a.0 == r.(metadata := a.0.metadata)
    decreases |keys|
  {
    if |keys| == 0 then (r, None)
    else match At(usage, keys[0])
      case Throw(w) => (r, Some(w))
      case Ok(v) =>
        match AsInt(v)
        case Throw(w) => (r, Some(w))
        case Ok(n) => Counters(r.(metadata := Insert(r.metadata, keys[0], IntToString(n))), usage, keys[1..])
  }

  /** usage holds an int under each key. */
  predicate IntsAt(usage: Json, keys: seq<string>)
  {
    usage.JObj? && forall i :: 0 <= i < |keys| ==> Get(usage.fields, keys[i]).Some? && Get(usage.fields, keys[i]).value.JInt?
  }

  /** When every counter is an int, none throws and each is stored as its decimal
      text; other metadata keys keep their values. */
  lemma {:induction false} CountersAllInts(r: LLMResponse, usage: Json, keys: seq<string>)
    requires IntsAt(usage, keys)
    ensures Counters(r, usage, keys).1 == None
    ensures forall i :: 0 <= i < |keys| ==>
      Get(Counters(r, usage, keys).0.metadata, keys[i]) == Some(IntToString(Get(usage.fields, keys[i]).value.i))
    ensures forall k :: k !in keys ==> Get(Counters(r, usage, keys).0.metadata, k) == Get(r.metadata, k)
    decreases |keys|
  {
    if |keys| > 0 {
      var n := Get(usage.fields, keys[0]).value.i;
      var r1 := r.(metadata := Insert(r.metadata, keys[0], IntToString(n)));
      var tail := keys[1..];
      assert IntsAt(usage, tail) by {
        forall i | 0 <= i < |tail| ensures Get(usage.fields, tail[i]).Some? && Get(usage.fields, tail[i]).value.JInt? {
          assert tail[i] == keys[i + 1];
        }
      }
      CountersAllInts(r1, usage, tail);
      var a := Counters(r, usage, keys);
      assert a == Counters(r1, usage, tail);
      forall i | 0 <= i < |keys| ensures Get(a.0.metadata, keys[i]) == Some(IntToString(Get(usage.fields, keys[i]).value.i)) {
        if i > 0 {
          assert keys[i] == tail[i - 1];
        } else if keys[0] !in tail {
        } else {
          var q :| 0 <= q < |tail| && tail[q] == keys[0];
        }
      }
      forall k | k !in keys ensures Get(a.0.metadata, k) == Get(r.metadata, k) {
        assert k != keys[0];
      }
    }
  }

  const OpenAIUsageKeys: seq<string> := ["prompt_tokens", "completion_tokens", "total_tokens"]
  const AnthropicUsageKeys: seq<string> := ["input_tokens", "output_tokens"]

  /** doc contains key with a non-empty value. */
  predicate NonEmptyAt(doc: Json, key: string)
  {
    Has(doc, key) && !IsEmpty(Member(doc, key))
  }

  /** A successful read of the reply text: success is set first, then the text,
      then the usage counters when the document has them. */
  function ReadContent(base: LLMResponse, doc: Json, text: Outcome<string>, usageKeys: seq<string>): (a: Attempt)
    ensures a.0.statusCode == base.statusCode && a.0.errorMessage == base.errorMessage
    ensures |usageKeys| == 0 ==> a.0.metadata == base.metadata
  {
    var r := base.(success := true);
    match text
    case Throw(w) => (r, Some(w))
    case Ok(s) =>
      var r1 := r.(content := s);
      if |usageKeys| > 0 && Has(doc, "usage") then Counters(r1, Member(doc, "usage"), usageKeys) else (r1, None)
  }

  /** The try block shared by the OpenAI and Anthropic adapters: an "error" key wins,
      then a non-empty list, else the adapter's "nothing there" message. */
  function ListAttempt(kind: Provider, base: LLMResponse, doc: Json): (a: Attempt)
    requires kind != Custom
    ensures a.0.statusCode == base.statusCode
    ensures Has(doc, "error") ==>
      a == match ErrorField(doc)
           case Ok(m) => (base.(success := false, errorMessage := m), None)
           case Throw(w) => (base.(success := false), Some(w))
    ensures a.0.success ==> !Has(doc, "error")
  {
    var list := if kind == OpenAI then "choices" else "content";
    if Has(doc, "error") then
      var r := base.(success := false);
      match ErrorField(doc)
      case Throw(w) => (r, Some(w))
      case Ok(m) => (r.(errorMessage := m), None)
    else if NonEmptyAt(doc, list) then
      if kind == OpenAI then ReadContent(base, doc, ChoiceContent(doc), OpenAIUsageKeys)
      else ReadContent(base, doc, ContentText(doc), AnthropicUsageKeys)
    else
      (base.(success := false,
             errorMessage := if kind == OpenAI then "No choices in response" else "No content in response"), None)
  }

  /** The custom adapter's try block: an error (a string or its message), then an
      OpenAI-style choice, then "content" (an array's first text, or the value
      itself), then "response"; no metadata is ever written. */
  function CustomAttempt(base: LLMResponse, doc: Json): (a: Attempt)
    ensures a.0.statusCode == base.statusCode && a.0.metadata == base.metadata
    ensures Has(doc, "error") ==>
      a == match CustomErrorField(doc)
           case Ok(m) => (base.(success := false, errorMessage := m), None)
           case Throw(w) => (base.(success := false), Some(w))
    ensures a.0.success ==> !Has(doc, "error")
  {
    if Has(doc, "error") then
      var r := base.(success := false);
      match CustomErrorField(doc)
      case Throw(w) => (r, Some(w))
      case Ok(m) => (r.(errorMessage := m), None)
    else if NonEmptyAt(doc, "choices") then ReadContent(base, doc, ChoiceContent(doc), [])
    else if Has(doc, "content") then
      ReadContent(base, doc, if Member(doc, "content").JArr? then ContentText(doc) else AsString(Member(doc, "content")), [])
    else if Has(doc, "response") then ReadContent(base, doc, AsString(Member(doc, "response")), [])
    else (base.(success := false, errorMessage := "Unknown response format"), None)
  }

  /** The text an "error" key yields for an adapter. */
  function ErrorText(kind: Provider, doc: Json): string
  {
    match (if kind == Custom then CustomErrorField(doc) else ErrorField(doc))
    case Ok(m) => m
    case Throw(w) => ParseFailurePrefix + w
  }

  /** parseResponse. The status code is always copied; a body that does not parse
      fails with the parser's message; an "error" key always fails, even beside a
      usable reply, with the adapter's error text; a success always comes from a
      parsed body without "error"; the custom adapter never writes metadata. */
  function ParseResponse(kind: Provider, h: HttpResult): (r: LLMResponse)
    ensures r.statusCode == h.statusCode
    ensures h.body.Unparsable? ==>
      r == LLMResponse(false, "", ParseFailurePrefix + h.body.what, h.statusCode, [])
    ensures h.body.Parsed? && Has(h.body.doc, "error") ==>
      r == LLMResponse(false, "", ErrorText(kind, h.body.doc), h.statusCode, [])
    ensures r.success ==> h.body.Parsed? && !Has(h.body.doc, "error")
    ensures kind == Custom ==> r.metadata == []
  {
    var base := BlankResponse(false).(statusCode := h.statusCode);
    match h.body
    case Unparsable(w) => Catch((base, Some(w)))
    case Parsed(doc) =>
      if kind == Custom then Catch(CustomAttempt(base, doc)) else Catch(ListAttempt(kind, base, doc))
  }

  /** For the OpenAI and Anthropic adapters without an "error" key: an empty or
      missing list fails with the adapter's message, and a list whose first entry
      holds a string reply succeeds with that text. */
  lemma ListReplies(kind: Provider, h: HttpResult, doc: Json)
    requires kind != Custom && h.body == Parsed(doc) && !Has(doc, "error")
    ensures var list := if kind == OpenAI then "choices" else "content";
      var text := if kind == OpenAI then ChoiceContent(doc) else ContentText(doc);
      var r := ParseResponse(kind, h);
      && (!NonEmptyAt(doc, list) ==>
            r == LLMResponse(false, "", if kind == OpenAI then "No choices in response" else "No content in response",
                             h.statusCode, []))
      && (NonEmptyAt(doc, list) && text.Ok? ==> r.content == text.value)
      && (NonEmptyAt(doc, list) && text.Ok? && !Has(doc, "usage") ==>
            r == LLMResponse(true, text.value, "", h.statusCode, []))
      && (NonEmptyAt(doc, list) && text.Throw? ==>
            r == LLMResponse(false, "", ParseFailurePrefix + text.what, h.statusCode, []))
  {
  }

  /** With int usage counters, a successful OpenAI reply records all three as
      decimal strings. */
  lemma OpenAIUsage(h: HttpResult, doc: Json)
    requires h.body == Parsed(doc) && !Has(doc, "error") && NonEmptyAt(doc, "choices")
    requires ChoiceContent(doc).Ok? && Has(doc, "usage") && IntsAt(Member(doc, "usage"), OpenAIUsageKeys)
    ensures var r := ParseResponse(OpenAI, h);
      && r.success && r.content == ChoiceContent(doc).value
      && forall i :: 0 <= i < 3 ==>
           Get(r.metadata, OpenAIUsageKeys[i]) == Some(IntToString(Get(Member(doc, "usage").fields, OpenAIUsageKeys[i]).value.i))
  {
    var base := BlankResponse(false).(statusCode := h.statusCode);
    var r1 := base.(success := true).(content := ChoiceContent(doc).value);
    CountersAllInts(r1, Member(doc, "usage"), OpenAIUsageKeys);
  }

  /** With int usage counters, a successful Anthropic reply records both as decimal
      strings. */
  lemma AnthropicUsage(h: HttpResult, doc: Json)
    requires h.body == Parsed(doc) && !Has(doc, "error") && NonEmptyAt(doc, "content")
    requires ContentText(doc).Ok? && Has(doc, "usage") && IntsAt(Member(doc, "usage"), AnthropicUsageKeys)
    ensures var r := ParseResponse(Anthropic, h);
      && r.success && r.content == ContentText(doc).value
      && forall i :: 0 <= i < 2 ==>
           Get(r.metadata, AnthropicUsageKeys[i]) == Some(IntToString(Get(Member(doc, "usage").fields, AnthropicUsageKeys[i]).value.i))
  {
    var base := BlankResponse(false).(statusCode := h.statusCode);
    var r1 := base.(success := true).(content := ContentText(doc).value);
    CountersAllInts(r1, Member(doc, "usage"), AnthropicUsageKeys);
  }

  /** The custom adapter's order of preference, for a document without "error". */
  lemma CustomReplies(h: HttpResult, doc: Json)
    requires h.body == Parsed(doc) && !Has(doc, "error")
    ensures var r := ParseResponse(Custom, h);
      && (NonEmptyAt(doc, "choices") && ChoiceContent(doc).Ok? ==>
            r == LLMResponse(true, ChoiceContent(doc).value, "", h.statusCode, []))
      && (!NonEmptyAt(doc, "choices") && Has(doc, "content") && Member(doc, "content").JStr? ==>
            r == LLMResponse(true, Member(doc, "content").s, "", h.statusCode, []))
      && (!NonEmptyAt(doc, "choices") && Has(doc, "content") && Member(doc, "content").JArr? && ContentText(doc).Ok? ==>
            r == LLMResponse(true, ContentText(doc).value, "", h.statusCode, []))
      && (!NonEmptyAt(doc, "choices") && !Has(doc, "content") && Has(doc, "response") && Member(doc, "response").JStr? ==>
            r == LLMResponse(true, Member(doc, "response").s, "", h.statusCode, []))
      && (!NonEmptyAt(doc, "choices") && !Has(doc, "content") && !Has(doc, "response") ==>
            r == LLMResponse(false, "", "Unknown response format", h.statusCode, []))
  {
  }

  // ---------------------------------------------------------------------------
  // The client

  /** The transport: endpoint, payload and request headers to the exchange. */
  type Transport = (string, Json, OMap<string>) -> Exchange

  const TransportFailurePrefix := "HTTP request failed: "

  /** The exchange chatCompletion gets for these messages. */
  function Send(kind: Provider, config: LLMConfig, ms: seq<Message>, post: Transport): HttpResult
  {
    PostResult(post(config.apiEndpoint, Payload(kind, config, ms), BuildHeaders(kind, config)))
  }

  /** chatCompletion of a client with this adapter and configuration: a failed
      exchange is reported with the transport's text and status and nothing parsed;
      otherwise the adapter reads the reply. */
  function Complete(kind: Provider, config: LLMConfig, ms: seq<Message>, post: Transport): (r: LLMResponse)
    ensures var h := Send(kind, config, ms, post);
      && (!h.success ==> r == LLMResponse(false, "", TransportFailurePrefix + h.errorMessage, h.statusCode, []))
      && (h.success ==> r == ParseResponse(kind, h))
      && r.statusCode == h.statusCode
  {
    var h := Send(kind, config, ms, post);
    if !h.success then
      BlankResponse(false).(errorMessage := TransportFailurePrefix + h.errorMessage, statusCode := h.statusCode)
    else ParseResponse(kind, h)
  }

  class LLMClient {
    /** The adapter, fixed when the client is made. */
    const kind: Provider
    var config: LLMConfig

    constructor (kind: Provider, config: LLMConfig)
      ensures this.kind == kind && this.config == config
    {
      this.kind := kind;
      this.config := config;
    }

    /** createClient. */
    static method CreateClient(config: LLMConfig) returns (c: LLMClient)
      ensures fresh(c) && c.kind == ProviderFor(config.provider) && c.config == config
    {
      c := new LLMClient(ProviderFor(config.provider), config);
    }

    /** updateConfig: the new configuration is used from now on, by the same adapter
        whatever its provider name says. */
    method UpdateConfig(config: LLMConfig)
      modifies this
      ensures this.config == config
    {
      this.config := config;
    }

    /** chatCompletion. */
    function ChatCompletion(ms: seq<Message>, post: Transport): LLMResponse
      reads this
    {
      Complete(kind, config, ms, post)
    }

    /** streamChatCompletion: the callback is invoked exactly once, with the reply or
        with "Error: " and the error text; the invocations are returned in order. */
    method StreamChatCompletion(ms: seq<Message>, post: Transport) returns (delivered: seq<string>)
      ensures var r := Complete(kind, config, ms, post);
        delivered == [if r.success then r.content else "Error: " + r.errorMessage]
    {
      var r := ChatCompletion(ms, post);
      if r.success {
        delivered := [r.content];
      } else {
        delivered := ["Error: " + r.errorMessage];
      }
    }
  }

  /** A reply with a non-2xx status is a failure with an empty transport text and is
      never parsed, even when its body holds a usable reply. */
  lemma Non2xxNotParsed(kind: Provider, config: LLMConfig, ms: seq<Message>, post: Transport, status: int, body: Body)
    requires post(config.apiEndpoint, Payload(kind, config, ms), BuildHeaders(kind, config)) == Completed(status, body)
    requires !(200 <= status < 300)
    ensures Complete(kind, config, ms, post) == LLMResponse(false, "", TransportFailurePrefix, status, [])
  {
  }

  /** Renaming the provider of an existing client does not change its adapter: an
      OpenAI client updated to an Anthropic configuration still sends a temperature. */
  method ProviderRenameKeepsAdapter(l: LLMConfig, ms: seq<Message>) returns (sendsTemperature: bool)
    ensures sendsTemperature
  {
    var c := LLMClient.CreateClient(l.(provider := "openai"));
    c.UpdateConfig(l.(provider := "anthropic"));
    PayloadFields(c.kind, c.config, ms);
    sendsTemperature := HasKey(Payload(c.kind, c.config, ms).fields, "temperature");
  }
}
