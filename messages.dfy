/** The messages the server reads and writes, in place of raw JSON-RPC objects.

    Inbound messages keep only the fields the dispatcher and the handlers look
    at; outbound messages are the fixed shapes the handlers build. */
module Messages {

  datatype Option<+T> = None | Some(value: T)

  /** A JSON-RPC id as the peer or the server chose it. */
  datatype Id = NumId(n: int) | StrId(s: string) | NullId

  /** The `content` of a sampling result: an object with optional `type` and
      `text`, or any other JSON value (null, a list, a string, a number). */
  datatype Content =
    | ContentObject(contentType: Option<string>, text: Option<string>)
    | ContentNotObject

  /** The `result` object of a sampling response; `content` may be absent. */
  datatype SamplingResult = SamplingResult(content: Option<Content>)

  /** The `params` of a `tools/call` request: `name` and the `arguments` object. */
  datatype CallParams = CallParams(name: Option<string>, arguments: Option<map<string, string>>)

  /** An inbound message. `None` means the key is absent (for `methodName`, also a
      JSON null, since the dispatcher reads it with `.get`); `error` holds the
      rendered text of the error value when the key is present. */
  datatype Message = Message(
    id: Option<Id>,
    methodName: Option<string>,
    params: Option<CallParams>,
    result: Option<SamplingResult>,
    error: Option<string>)

  /** The exception a handler raises partway through; the loop swallows it. */
  datatype Fault = KeyError(key: string) | AttributeError(name: string)

  // Outbound shapes

  datatype ContentBlock = ContentBlock(blockType: string, text: string)

  datatype PropertySchema = PropertySchema(name: string, propertyType: string, description: string)

  datatype Tool = Tool(name: string, description: string, properties: seq<PropertySchema>, required: seq<string>)

  datatype ServerInfo = ServerInfo(name: string, version: string)

  /** `prompts`, `resources` and `sampling` are advertised as null: false here. */
  datatype Capabilities = Capabilities(toolsListChanged: bool, prompts: bool, resources: bool, sampling: bool)

  datatype ResultPayload =
    | InitializeResult(protocolVersion: string, serverInfo: ServerInfo, capabilities: Capabilities)
    | ToolsListResult(tools: seq<Tool>)
    | NullResult
    | ToolCallResult(content: seq<ContentBlock>)

  datatype ErrorObject = ErrorObject(code: int, message: string)

  datatype SamplingMessage = SamplingMessage(role: string, content: ContentBlock)

  /** The generation temperature (a float) is not part of this model. */
  datatype SamplingParams = SamplingParams(messages: seq<SamplingMessage>, systemPrompt: string, maxTokens: int)

  /** An outbound message: a reply, an error reply, or a request to the peer. */
  datatype Outbound =
    | Response(id: Id, result: ResultPayload)
    | ErrorResponse(id: Id, error: ErrorObject)
    | Request(id: Id, methodName: string, params: SamplingParams)
  {
    /** The `method` field of the encoded message, absent on replies. */
    function Method(): Option<string> {
      if Request? then Some(methodName) else None
    }
  }

  // Method names

  const InitializeMethod: string := "initialize"
  const InitializedMethod: string := "notifications/initialized"
  const ToolsListMethod: string := "tools/list"
  const ToolsCallMethod: string := "tools/call"
  const PromptsListMethod: string := "prompts/list"
  const ResourcesListMethod: string := "resources/list"
  const ResourceTemplatesListMethod: string := "resources/templates/list"
  const SamplingMethod: string := "sampling/createMessage"

  // Fixed data

  const PoemToolName: string := "generate_poem"
  const TextArgument: string := "text_to_analyze"
  const InternalError: int := -32603
  const UnexpectedContentFormat: string := "Unexpected response format from sampling"
  const UnexpectedResponseFormat: string := "Unexpected sampling response format"
  const SystemPrompt: string := "You are a creative and imaginative poet."
  const MaxTokens: int := 100

  const PoemTool: Tool := Tool(
    PoemToolName,
    "Analyzes the received text and requests sampling to generate poetic expressions based on it using LLM.",
    [PropertySchema(TextArgument, "string", "Text to analyze and express poetically.")],
    [TextArgument])

  const InitializeInfo: ResultPayload := InitializeResult(
    "2025-06-18",
    ServerInfo("Python Sampler Server", "0.0.1"),
    Capabilities(false, false, false, false))

  const PromptHead: string := "Please create a short, poetic verse based on the theme '"
  const PromptTail: string := "'."

  /** The user prompt of a sampling request. */
  function Prompt(text: string): string {
    PromptHead + text + PromptTail
  }

  /** Distinct arguments give distinct prompts: the peer is asked about the
      argument itself. */
  lemma PromptInjective(t1: string, t2: string)
    ensures Prompt(t1) == Prompt(t2) <==> t1 == t2
  {
    if Prompt(t1) == Prompt(t2) {
      var p := Prompt(t1);
      assert t1 == p[|PromptHead|..|p| - |PromptTail|];
      assert t2 == Prompt(t2)[|PromptHead|..|p| - |PromptTail|];
    }
  }

  const PoemHead: string := "Poem based on '"
  const PoemSeparator: string := "':\n\n"

  /** The text of a successful tool reply. */
  function PoemReply(argument: string, poem: string): string {
    PoemHead + argument + PoemSeparator + poem
  }

  /** Given the argument, the reply text determines the poem. */
  lemma PoemReplyDeterminesPoem(argument: string, p1: string, p2: string)
    ensures PoemReply(argument, p1) == PoemReply(argument, p2) <==> p1 == p2
  {
    if PoemReply(argument, p1) == PoemReply(argument, p2) {
      var n := |PoemHead + argument + PoemSeparator|;
      assert p1 == PoemReply(argument, p1)[n..];
      assert p2 == PoemReply(argument, p2)[n..];
    }
  }

  /** Given the poem, the reply text determines the argument. */
  lemma PoemReplyDeterminesArgument(a1: string, a2: string, poem: string)
    ensures PoemReply(a1, poem) == PoemReply(a2, poem) <==> a1 == a2
  {
    if PoemReply(a1, poem) == PoemReply(a2, poem) {
      var r := PoemReply(a1, poem);
      assert a1 == r[|PoemHead|..|r| - |PoemSeparator| - |poem|];
      assert a2 == PoemReply(a2, poem)[|PoemHead|..|r| - |PoemSeparator| - |poem|];
    }
  }

  const SamplingFailedHead: string := "Sampling failed: "

  /** The message of the error reply for a sampling response carrying `error`. */
  function SamplingFailed(detail: string): string {
    SamplingFailedHead + detail
  }

  /** Distinct error details give distinct error messages. */
  lemma SamplingFailedInjective(d1: string, d2: string)
    ensures SamplingFailed(d1) == SamplingFailed(d2) <==> d1 == d2
  {
    if SamplingFailed(d1) == SamplingFailed(d2) {
      assert d1 == SamplingFailed(d1)[|SamplingFailedHead|..];
      assert d2 == SamplingFailed(d2)[|SamplingFailedHead|..];
    }
  }

  /** A field as an f-string renders it: an absent value prints as "None". */
  function Rendered(field: Option<string>): string {
    match field
    case None => "None"
    case Some(t) => t
  }

  /** The outbound request that asks the peer to sample a poem for `text`. */
  function SamplingRequestFor(ticket: int, text: string): Outbound {
    Request(
      NumId(ticket),
      SamplingMethod,
      SamplingParams([SamplingMessage("user", ContentBlock("text", Prompt(text)))], SystemPrompt, MaxTokens))
  }
}
