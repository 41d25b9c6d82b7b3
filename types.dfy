/** The shared records of the assistant (messages, conversations, configuration and
    LLM responses) with the defaults their declarations give. */
module Types {
  import opened OrderedMap

  /** A chat message. The creation timestamp is not modelled. */
  datatype Message = Message(id: string, conversationId: string, role: string, content: string)

  /** Message(role, content): a message not yet stored anywhere. */
  function NewMessage(role: string, content: string): (m: Message)
    ensures m.role == role && m.content == content
    ensures m.id == "" && m.conversationId == ""
  {
    Message("", "", role, content)
  }

  /** A stored conversation. Creation and update times are not modelled. */
  datatype Conversation = Conversation(id: string, title: string, messages: seq<Message>)

  datatype LLMConfig = LLMConfig(
    provider: string,
    apiEndpoint: string,
    apiKey: string,
    modelName: string,
    temperature: real,
    maxTokens: int,
    headers: OMap<string>)

  /** A value-initialised LLMConfig. */
  function DefaultLLMConfig(): (c: LLMConfig)
    ensures c.temperature == 0.7 && c.maxTokens == 1000 && c.headers == []
    ensures c.provider == "" && c.apiEndpoint == "" && c.apiKey == "" && c.modelName == ""
  {
    LLMConfig("", "", "", "", 0.7, 1000, [])
  }

  datatype PromptConfig = PromptConfig(
    systemPrompt: string,
    userPromptTemplate: string,
    contextTemplate: string,
    maxHistoryMessages: int)

  /** A value-initialised PromptConfig. */
  function DefaultPromptConfig(): (c: PromptConfig)
    ensures c.maxHistoryMessages == 10
    ensures c.systemPrompt == "" && c.userPromptTemplate == "" && c.contextTemplate == ""
  {
    PromptConfig("", "", "", 10)
  }

  /** The application configuration. The audio section is not modelled. */
  datatype AppConfig = AppConfig(
    llm: LLMConfig,
    prompt: PromptConfig,
    databasePath: string,
    logLevel: string,
    enableVoice: bool,
    autoSaveConversations: bool)

  /** A value-initialised AppConfig. */
  function DefaultAppConfig(): (c: AppConfig)
    ensures c.logLevel == "INFO" && c.enableVoice && c.autoSaveConversations
    ensures c.databasePath == "" && c.llm == DefaultLLMConfig() && c.prompt == DefaultPromptConfig()
  {
    AppConfig(DefaultLLMConfig(), DefaultPromptConfig(), "", "INFO", true, true)
  }

  /** The outcome of one LLM call. `success` has no default in the source, so every
      construction below gives it explicitly. */
  datatype LLMResponse = LLMResponse(
    success: bool,
    content: string,
    errorMessage: string,
    statusCode: int,
    metadata: OMap<string>)

  /** An LLMResponse with the given success flag and every other member at its
      default (status_code 0, strings and metadata empty). */
  function BlankResponse(success: bool): (r: LLMResponse)
    ensures r.success == success && r.statusCode == 0
    ensures r.content == "" && r.errorMessage == "" && r.metadata == []
  {
    LLMResponse(success, "", "", 0, [])
  }
}
