/** The dispatcher and its handlers as functions on the server's correlation
    state: each takes the state before a message and gives the state after it,
    the messages sent, and the exception raised partway through, if any. */
module Handlers {
  import opened Messages

  /** The value the ticket counter starts from. */
  const FirstTicket: int := 1000

  /** The server's fields: the next ticket id, ticket -> tool argument text,
      and ticket -> the original `tools/call` message. */
  datatype State = State(counter: int, sampling: map<int, string>, pending: map<int, Message>)

  /** What one handler call does. */
  datatype Outcome = Outcome(state: State, sent: seq<Outbound>, fault: Option<Fault>)

  /** What a sampling request leaves behind: the new state, the ticket it
      minted, and the request it sent. */
  datatype Minted = Minted(state: State, ticket: int, request: Outbound)

  /** The entries of the handler table. */
  datatype Handler = Initialize | Initialized | ToolsList | ToolsCall | EmptyList

  /** The state of a freshly constructed server. */
  function Initial(): State {
    State(FirstTicket, map[], map[])
  }

  /** The correlation invariant kept between steps: both maps hold the same
      tickets, every ticket was issued by the counter, and every stored
      request is a `tools/call` message. */
  ghost predicate Inv(s: State) {
    && s.sampling.Keys == s.pending.Keys
    && FirstTicket <= s.counter
    && (forall k :: k in s.sampling ==> FirstTicket <= k < s.counter)
    && (forall k :: k in s.pending ==> s.pending[k].methodName == Some(ToolsCallMethod))
  }

  function Quiet(s: State): Outcome {
    Outcome(s, [], None)
  }

  function Raise(s: State, fault: Fault): Outcome {
    Outcome(s, [], Some(fault))
  }

  function Emit(s: State, message: Outbound): Outcome {
    Outcome(s, [message], None)
  }

  /** The methods the handler table knows. */
  const AcceptedMethods: set<string> := {
    InitializeMethod, InitializedMethod, ToolsListMethod, ToolsCallMethod,
    PromptsListMethod, ResourcesListMethod, ResourceTemplatesListMethod }

  /** The handler table, looked up by exact name. */
  function GetHandler(name: string): (h: Option<Handler>)
    ensures h.Some? <==> name in AcceptedMethods
    ensures h == Some(EmptyList) <==>
              name in {PromptsListMethod, ResourcesListMethod, ResourceTemplatesListMethod}
  {
    if name == InitializeMethod then Some(Initialize)
    else if name == InitializedMethod then Some(Initialized)
    else if name == ToolsListMethod then Some(ToolsList)
    else if name == ToolsCallMethod then Some(ToolsCall)
    else if name == PromptsListMethod then Some(EmptyList)
    else if name == ResourcesListMethod then Some(EmptyList)
    else if name == ResourceTemplatesListMethod then Some(EmptyList)
    else None
  }

  /** Replies keyed by the request's `id`; a request without one raises. */
  function Reply(s: State, request: Message, result: ResultPayload): Outcome {
    match request.id
    case None => Raise(s, KeyError("id"))
    case Some(id) => Emit(s, Response(id, result))
  }

  function HandleInitialize(s: State, request: Message): Outcome {
    Reply(s, request, InitializeInfo)
  }

  function HandleInitialized(s: State, request: Message): Outcome {
    Quiet(s)
  }

  function HandleEmptyList(s: State, request: Message): Outcome {
    Reply(s, request, NullResult)
  }

  function HandleToolsList(s: State, request: Message): Outcome {
    Reply(s, request, ToolsListResult([PoemTool]))
  }

  /** Takes the current counter as the ticket, advances the counter, records
      the argument under the ticket and sends the sampling request. */
  function TriggerSampling(s: State, text: string): Minted {
    var ticket := s.counter;
    Minted(State(s.counter + 1, s.sampling[ticket := text], s.pending), ticket, SamplingRequestFor(ticket, text))
  }

  /** A `tools/call`: only the poem tool mints a ticket; its reply is deferred. */
  function HandleToolsCall(s: State, request: Message): Outcome {
    match request.params
    case None => Raise(s, KeyError("params"))
    case Some(params) =>
      match params.name
      case None => Raise(s, KeyError("name"))
      case Some(name) =>
        if name != PoemToolName then Quiet(s)
        else
          match params.arguments
          case None => Raise(s, KeyError("arguments"))
          case Some(arguments) =>
            if TextArgument !in arguments then Raise(s, KeyError(TextArgument))
            else
              var minted := TriggerSampling(s, arguments[TextArgument]);
              var t := minted.ticket;
              Outcome(minted.state.(pending := minted.state.pending[t := request]), [minted.request], None)
  }

  /** An error reply with the fixed code, addressed to the original caller. */
  function SendToolErrorResponse(s: State, original: Message, message: string): Outcome {
    match original.id
    case None => Raise(s, KeyError("id"))
    case Some(id) => Emit(s, ErrorResponse(id, ErrorObject(InternalError, message)))
  }

  /** The integer ticket an inbound `id` can name, if any. */
  function TicketOf(id: Option<Id>): Option<int> {
    match id
    case Some(NumId(n)) => Some(n)
    case _ => None
  }

  /** True when the `id` names a ticket in the argument map. */
  predicate IsPending(s: State, id: Option<Id>) {
    match TicketOf(id)
    case None => false
    case Some(k) => k in s.sampling
  }

  /** The reply to a sampling response: the ticket is popped from both maps
      first, then one success or error reply goes to the original caller. */
  function HandleSamplingResponse(s: State, response: Message): Outcome {
    match TicketOf(response.id)
    case None => Quiet(s)
    case Some(k) =>
      if k !in s.sampling then Quiet(s)
      else
        var originalText := s.sampling[k];
        var popped := s.(sampling := s.sampling - {k}, pending := s.pending - {k});
        if k !in s.pending then Quiet(popped)
        else
          var original := s.pending[k];
          if response.result.Some? && response.result.value.content.Some? then
            match response.result.value.content.value
            case ContentNotObject => Raise(popped, AttributeError("get"))
            case ContentObject(contentType, text) =>
              if contentType == Some("text") then
                match original.id
                case None => Raise(popped, KeyError("id"))
                case Some(id) =>
                  Emit(popped, Response(id, ToolCallResult([ContentBlock("text", PoemReply(originalText, Rendered(text)))])))
              else SendToolErrorResponse(popped, original, UnexpectedContentFormat)
          else if response.error.Some? then SendToolErrorResponse(popped, original, SamplingFailed(response.error.value))
          else SendToolErrorResponse(popped, original, UnexpectedResponseFormat)
  }

  function Invoke(h: Handler, s: State, request: Message): Outcome {
    match h
    case Initialize => HandleInitialize(s, request)
    case Initialized => HandleInitialized(s, request)
    case ToolsList => HandleToolsList(s, request)
    case ToolsCall => HandleToolsCall(s, request)
    case EmptyList => HandleEmptyList(s, request)
  }

  /** A non-empty `method` field, the test that routes to the handler table. */
  predicate HasMethod(m: Message) {
    m.methodName.Some? && m.methodName.value != ""
  }

  /** One pass of the loop body: method first, then a pending ticket, else an orphan. */
  function Step(s: State, m: Message): Outcome {
    if HasMethod(m) then
      match GetHandler(m.methodName.value)
      case None => Quiet(s)
      case Some(h) => Invoke(h, s, m)
    else if IsPending(s, m.id) then HandleSamplingResponse(s, m)
    else Quiet(s)
  }

  /** A read that yields nothing (a timeout, end of input, a line that does
      not decode) is a pass with no step. */
  function StepInput(s: State, input: Option<Message>): Outcome {
    match input
    case None => Quiet(s)
    case Some(m) => Step(s, m)
  }

  /** The state and the output stream after a finite series of reads. */
  datatype Session = Session(state: State, sent: seq<Outbound>)

  function Run(s: State, inputs: seq<Option<Message>>): Session {
    Fold(StepInput, s, inputs)
  }

  /** Reads handled one after another by `step`, left to right. */
  function Fold(step: (State, Option<Message>) -> Outcome, s: State, inputs: seq<Option<Message>>): Session
    decreases |inputs|
  {
    if inputs == [] then Session(s, [])
    else Then(step, Fold(step, s, inputs[..|inputs| - 1]), inputs[|inputs| - 1])
  }

  /** One more read after a session: the step's messages follow the earlier ones. */
  function Then(step: (State, Option<Message>) -> Outcome, before: Session, input: Option<Message>): Session {
    var o := step(before.state, input);
    Session(o.state, before.sent + o.sent)
  }

  /** The ticket ids of the sampling requests in an output stream, in order. */
  function TicketIds(sent: seq<Outbound>): seq<int> {
    if sent == [] then [] else RequestTicket(sent[0]) + TicketIds(sent[1..])
  }

  /** The ticket id of one outbound message, if it is a sampling request. */
  function RequestTicket(o: Outbound): seq<int> {
    match o
    case Request(NumId(n), _, _) => [n]
    case _ => []
  }

  /** The integers lo, lo + 1, ..., hi - 1. */
  function Interval(lo: int, hi: int): (r: seq<int>)
    requires lo <= hi
    ensures |r| == hi - lo
    ensures forall i :: 0 <= i < |r| ==> r[i] == lo + i
  {
    seq(hi - lo, i => lo + i)
  }
}
