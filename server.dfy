/** The server object: the ticket counter and the two correlation maps are
    fields updated in place, and `sent` is the output stream the server
    writes to. Every method is tied to the function in `Handlers` that
    specifies it, so the properties proved there hold of the object. */
module Server {
  import opened Messages
  import Handlers
  import Properties

  class MCPServer {
    var requestIdCounter: int
    var samplingRequests: map<int, string>
    var pendingToolRequests: map<int, Message>
    /** Every message written to the output, oldest first. */
    var sent: seq<Outbound>

    /** The correlation state held by the fields. */
    ghost function Snapshot(): Handlers.State
      reads this
    {
      Handlers.State(requestIdCounter, samplingRequests, pendingToolRequests)
    }

    ghost predicate Valid()
      reads this
    {
      Handlers.Inv(Snapshot())
    }

    constructor ()
      ensures Valid()
      ensures Snapshot() == Handlers.Initial() && sent == []
    {
      requestIdCounter := Handlers.FirstTicket;
      samplingRequests := map[];
      pendingToolRequests := map[];
      sent := [];
    }

    /** Writes one message to the output. */
    method SendMessage(message: Outbound)
      modifies this`sent
      ensures sent == old(sent) + [message]
    {
      sent := sent + [message];
    }

    /** One pass of the loop body for a decoded message: a non-empty method
        goes to the handler table, else a pending ticket id to the sampling
        response handler, else the message is dropped. The exception a handler
        raises is returned, as the loop catches and logs it. */
    method Step(request: Message) returns (fault: Option<Fault>)
      modifies this
      ensures var o := Handlers.Step(old(Snapshot()), request);
        Snapshot() == o.state && sent == old(sent) + o.sent && fault == o.fault
      ensures old(Valid()) ==> Valid()
    {
      ghost var before := Snapshot();
      var methodName := request.methodName;
      var requestId := request.id;
      if methodName.Some? && methodName.value != "" {
        var handler := Handlers.GetHandler(methodName.value);
        if handler.Some? {
          fault := CallHandler(handler.value, request);
        } else {
          fault := None;
        }
      } else if requestId.Some? && requestId.value.NumId? && requestId.value.n in samplingRequests {
        fault := HandleSamplingResponse(request);
      } else {
        fault := None;
      }
      if Handlers.Inv(before) {
        Properties.StepPreservesInv(before, request);
      }
    }

    /** One read: a message that was decoded is dispatched, and a read that
        yielded nothing goes round the loop again. */
    method Receive(input: Option<Message>) returns (fault: Option<Fault>)
      modifies this
      ensures var o := Handlers.StepInput(old(Snapshot()), input);
        Snapshot() == o.state && sent == old(sent) + o.sent && fault == o.fault
      ensures old(Valid()) ==> Valid()
    {
      if input.Some? {
        fault := Step(input.value);
      } else {
        fault := None;
      }
    }

    /** Reads a finite series of inputs, one step per decoded message; a read
        that yields nothing is skipped. */
    method Run(inputs: seq<Option<Message>>)
      requires Valid()
      modifies this
      ensures Valid()
      ensures var r := Handlers.Run(old(Snapshot()), inputs);
        Snapshot() == r.state && sent == old(sent) + r.sent
    {
      ghost var start := Snapshot();
      ghost var written := sent;
      ghost var session := Handlers.Session(start, []);
      var i := 0;
      while i < |inputs|
        invariant 0 <= i <= |inputs|
        invariant Valid()
        invariant session == Handlers.Run(start, inputs[..i])
        invariant Snapshot() == session.state && sent == written + session.sent
      {
        var input := inputs[i];
        ghost var o := Handlers.StepInput(session.state, input);
        var _ := Receive(input);
        assert Snapshot() == o.state && sent == written + (session.sent + o.sent);
        assert Handlers.Run(start, inputs[..i + 1]) == Handlers.Session(o.state, session.sent + o.sent) by {
          assert inputs[..i + 1] == inputs[..i] + [input];
          Properties.FoldLast(Handlers.StepInput, start, inputs[..i], input);
        }
        session := Handlers.Session(o.state, session.sent + o.sent);
        i := i + 1;
      }
      assert inputs[..i] == inputs;
    }

    method CallHandler(handler: Handlers.Handler, request: Message) returns (fault: Option<Fault>)
      modifies this
      ensures var o := Handlers.Invoke(handler, old(Snapshot()), request);
        Snapshot() == o.state && sent == old(sent) + o.sent && fault == o.fault
    {
      match handler
      case Initialize => fault := HandleInitialize(request);
      case Initialized => fault := HandleInitialized(request);
      case ToolsList => fault := HandleToolsList(request);
      case ToolsCall => fault := HandleToolsCall(request);
      case EmptyList => fault := HandleEmptyList(request);
    }

    method HandleInitialize(request: Message) returns (fault: Option<Fault>)
      modifies this`sent
      ensures var o := Handlers.HandleInitialize(old(Snapshot()), request);
        sent == old(sent) + o.sent && fault == o.fault
    {
      if request.id.None? {
        return Some(KeyError("id"));
      }
      SendMessage(Response(request.id.value, InitializeInfo));
      fault := None;
    }

    /** The handshake notification: nothing is sent. */
    method HandleInitialized(request: Message) returns (fault: Option<Fault>)
      ensures fault == None
    {
      fault := None;
    }

    method HandleEmptyList(request: Message) returns (fault: Option<Fault>)
      modifies this`sent
      ensures var o := Handlers.HandleEmptyList(old(Snapshot()), request);
        sent == old(sent) + o.sent && fault == o.fault
    {
      if request.id.None? {
        return Some(KeyError("id"));
      }
      SendMessage(Response(request.id.value, NullResult));
      fault := None;
    }

    method HandleToolsList(request: Message) returns (fault: Option<Fault>)
      modifies this`sent
      ensures var o := Handlers.HandleToolsList(old(Snapshot()), request);
        sent == old(sent) + o.sent && fault == o.fault
    {
      if request.id.None? {
        return Some(KeyError("id"));
      }
      SendMessage(Response(request.id.value, ToolsListResult([PoemTool])));
      fault := None;
    }

    /** Mints a ticket for a poem call and files the request under it; the
        reply to the caller waits for the sampling response. */
    method HandleToolsCall(request: Message) returns (fault: Option<Fault>)
      modifies this
      ensures var o := Handlers.HandleToolsCall(old(Snapshot()), request);
        Snapshot() == o.state && sent == old(sent) + o.sent && fault == o.fault
    {
      if request.params.None? {
        return Some(KeyError("params"));
      }
      var params := request.params.value;
      if params.name.None? {
        return Some(KeyError("name"));
      }
      fault := None;
      if params.name.value == PoemToolName {
        if params.arguments.None? {
          return Some(KeyError("arguments"));
        }
        var arguments := params.arguments.value;
        if TextArgument !in arguments {
          return Some(KeyError(TextArgument));
        }
        var text := arguments[TextArgument];
        var ticket := TriggerSampling(text);
        pendingToolRequests := pendingToolRequests[ticket := request];
      }
    }

    /** Takes the next ticket id, records the argument under it and sends the
        sampling request for it. */
    method TriggerSampling(text: string) returns (ticket: int)
      modifies this
      ensures ticket == old(requestIdCounter)
      ensures requestIdCounter == old(requestIdCounter) + 1
      ensures samplingRequests == old(samplingRequests)[ticket := text]
      ensures pendingToolRequests == old(pendingToolRequests)
      ensures sent == old(sent) + [SamplingRequestFor(ticket, text)]
    {
      ticket := requestIdCounter;
      requestIdCounter := requestIdCounter + 1;
      samplingRequests := samplingRequests[ticket := text];
      SendMessage(SamplingRequestFor(ticket, text));
    }

    /** Pops the ticket from both maps, then replies once to the original
        caller with the poem or with an error. */
    method HandleSamplingResponse(response: Message) returns (fault: Option<Fault>)
      modifies this
      ensures var o := Handlers.HandleSamplingResponse(old(Snapshot()), response);
        Snapshot() == o.state && sent == old(sent) + o.sent && fault == o.fault
    {
      fault := None;
      var requestId := Handlers.TicketOf(response.id);
      if requestId.None? || requestId.value !in samplingRequests {
        return;
      }
      var k := requestId.value;
      var originalText := samplingRequests[k];
      samplingRequests := samplingRequests - {k};
      var originalToolRequest: Option<Message> := None;
      if k in pendingToolRequests {
        originalToolRequest := Some(pendingToolRequests[k]);
      }
      pendingToolRequests := pendingToolRequests - {k};
      if originalToolRequest.None? {
        return;
      }
      var original := originalToolRequest.value;
      if response.result.Some? && response.result.value.content.Some? {
        var content := response.result.value.content.value;
        if content.ContentNotObject? {
          return Some(AttributeError("get"));
        }
        if content.contentType == Some("text") {
          if original.id.None? {
            return Some(KeyError("id"));
          }
          var poem := PoemReply(originalText, Rendered(content.text));
          SendMessage(Response(original.id.value, ToolCallResult([ContentBlock("text", poem)])));
        } else {
          fault := SendToolErrorResponse(original, UnexpectedContentFormat);
        }
      } else if response.error.Some? {
        fault := SendToolErrorResponse(original, SamplingFailed(response.error.value));
      } else {
        fault := SendToolErrorResponse(original, UnexpectedResponseFormat);
      }
    }

    /** Sends the error reply with the fixed code to the original caller. */
    method SendToolErrorResponse(original: Message, message: string) returns (fault: Option<Fault>)
      modifies this`sent
      ensures var o := Handlers.SendToolErrorResponse(old(Snapshot()), original, message);
        sent == old(sent) + o.sent && fault == o.fault
    {
      if original.id.None? {
        return Some(KeyError("id"));
      }
      SendMessage(ErrorResponse(original.id.value, ErrorObject(InternalError, message)));
      fault := None;
    }
  }
}
