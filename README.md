# MCPServer dispatcher and request correlation, in Dafny

This project models the core of `MCPServer` in `mcp_server.py`, a small Model Context
Protocol server. It exposes one tool, `generate_poem`. To answer a `tools/call` for that
tool, the server sends a `sampling/createMessage` request back to the peer and defers its
reply. When the peer's sampling response arrives, the server matches it to the waiting
call and answers the original caller.

The server keeps three pieces of state:

- the ticket counter `request_id_counter`, which starts at 1000;
- `sampling_requests`, mapping each ticket to the tool's argument text;
- `pending_tool_requests`, mapping each ticket to the original `tools/call` message.

Files:

- `messages.dfy` (module `Messages`) is the data model. It has one inbound `Message`
  record and one `Outbound` datatype for what the server writes. The `Outbound`
  variants are a reply, an error reply, and the sampling request. The module also holds
  the fixed method names, the tool descriptor, the initialize result, the prompt
  template, and the reply and error texts.
- `handlers.dfy` (module `Handlers`) specifies everything as functions on a `State`
  value: each handler, the dispatch step `Step`, and `Run`, which folds `Step` over a
  finite series of reads. Each function gives the new state, the messages sent, and the
  exception raised partway through, if any.
- `properties.dfy` (module `Properties`) holds the lemmas about those functions.
- `server.dfy` (module `Server`) is the class `MCPServer`. Its fields are the counter,
  the two maps, and the output stream `sent`. Its methods update those fields in place
  and append to `sent`, as `_send_message` does. Each method's `ensures` states that the
  new fields and output equal what the matching `Handlers` function gives.

How exceptions are modelled: some handlers raise partway through, for example a
`KeyError` on a missing `id` or `params`, or an `AttributeError` when `content` is not
an object. The loop catches and logs these. In the model, a handler that raises returns
the `Fault` and sends nothing more. Updates made before the raise stay in place. In
particular, when the sampling response's `content` is not an object, both map entries
have already been popped, so the ticket is used up and the caller gets no reply.

Points where the code's behaviour is easy to misread, which the model follows as written:

- Content that is not an object produces no error reply. The code raises at
  `mcp_server.py:179` after the pops, so the ticket is used up and no reply goes out.
- End of input does not end the loop. `_read_message` returns `None` and the loop goes
  round again. The model treats such a read as a pass with no step.
- A `method` field that is the empty string counts as "no method", because the code
  tests it for truthiness. Such a message can therefore resolve a ticket.
- A `tools/call` for the poem tool that has no `id` still mints a ticket. Its reply
  later raises `KeyError`, after the ticket has been popped.

## Model

| member | source | states |
|---|---|---|
| `Messages.PromptInjective` | mcp_server.py:224 | two prompts are equal exactly when the tool arguments are: the peer is asked about the argument itself |
| `Messages.PoemReplyDeterminesPoem` | mcp_server.py:190 | given the argument, the success text `Poem based on '<arg>':\n\n<poem>` determines the poem, in both directions |
| `Messages.PoemReplyDeterminesArgument` | mcp_server.py:190 | given the poem, the success text determines the argument, in both directions |
| `Messages.SamplingFailedInjective` | mcp_server.py:201 | two `Sampling failed: ` messages are equal exactly when their error details are |
| `Handlers.Initial` | mcp_server.py:11-14 | the state of a new server: counter 1000 and no tickets; its properties are stated on `Server.MCPServer.constructor` |
| `Handlers.HandleInitialize` | mcp_server.py:99-118 | the capabilities reply to the request id; stated by `Properties.ListingHandlers` |
| `Handlers.HandleInitialized` | mcp_server.py:120-121 | the handshake notification does nothing; stated by `Properties.ListingHandlers` |
| `Handlers.HandleEmptyList` | mcp_server.py:123-130 | the null-result reply of the three listing probes; stated by `Properties.ListingHandlers` |
| `Handlers.HandleToolsList` | mcp_server.py:132-155 | the one-tool list reply; stated by `Properties.ListingHandlers` |
| `Handlers.HandleToolsCall` | mcp_server.py:157-167 | a `tools/call`: raises on missing data, ignores other tools, mints a ticket for the poem tool; stated by `Properties.PoemCallMintsTicket`, `Properties.OtherToolIsInert`, `Properties.MalformedCallRaises` |
| `Handlers.TriggerSampling` | mcp_server.py:222-253 | takes the counter as the ticket, advances it, files the argument, builds the sampling request; stated by `Properties.PoemCallMintsTicket` and `Properties.StepTickets` |
| `Handlers.HandleSamplingResponse` | mcp_server.py:169-208 | pops the ticket from both maps, then replies once or raises; stated by `Properties.ResolvesTicket` and `Properties.ResolutionReply` |
| `Handlers.SendToolErrorResponse` | mcp_server.py:210-220 | the -32603 error reply to the original caller, or `KeyError` without an id; stated by `Properties.ResolutionReply` |
| `Handlers.Step` | mcp_server.py:27-41 | one decoded message: method first, then a pending ticket, else dropped; stated by `Properties.StepPreservesInv`, `Properties.MethodTakesPrecedence`, `Properties.OrphanIsInert` |
| `Handlers.StepInput` | mcp_server.py:22-25 | a read that yields nothing is a pass with no step; stated by `Server.MCPServer.Receive` |
| `Handlers.Run` | mcp_server.py:19-47 | the loop over a finite series of reads; stated by `Properties.RunPreservesInv`, `Properties.RunTickets`, `Properties.RunKeepsResolved` |
| `Handlers.Fold` | mcp_server.py:19-47 | reads handled left to right, each from the state the previous one left; stated by `Properties.FoldConcat` |
| `Handlers.GetHandler` | mcp_server.py:49-60 | a handler exists exactly for the seven accepted method names, and the three listing probes share the empty-list handler |
| `Properties.StepPreservesInv` | mcp_server.py:164-174 | every step keeps the invariant: both maps have the same keys, every key is in [1000, counter), and every stored request is a `tools/call` |
| `Properties.StepTickets` | mcp_server.py:226-227 | a step either leaves the counter alone and sends no sampling request, or advances it by one and sends exactly one sampling request, carrying the old counter |
| `Properties.MethodTakesPrecedence` | mcp_server.py:30-39 | a message with a non-empty method never removes or changes a ticket, even if its id names one; only `tools/call` can add one |
| `Properties.UnknownMethodIsInert` | mcp_server.py:30-36 | a method outside the handler table sends nothing and changes no state |
| `Properties.PoemCallMintsTicket` | mcp_server.py:157-167 | a poem `tools/call` sends exactly one `sampling/createMessage` with the new ticket id, a ticket no entry used before; it stores the argument and the request under that ticket and advances the counter by one |
| `Properties.OtherToolIsInert` | mcp_server.py:159-161 | a `tools/call` naming any other tool sends nothing and changes nothing |
| `Properties.MalformedCallRaises` | mcp_server.py:159-163 | a `tools/call` missing `params`, `name`, `arguments` or `text_to_analyze` raises `KeyError` before any state changes, and sends nothing |
| `Properties.ResolvesTicket` | mcp_server.py:169-176 | a method-less message naming a pending ticket removes that ticket from both maps and leaves all other tickets; it sends at most one message, always a reply to the original call's id, and sends nothing exactly when it raises |
| `Properties.ResolutionReply` | mcp_server.py:176-204 | the reply case by case: text content gives the poem reply; other content objects give -32603 with the format message; non-object content raises; an `error` gives -32603 `Sampling failed: ...`; neither gives -32603 with the shape message; an original call without id raises |
| `Properties.OrphanIsInert` | mcp_server.py:37-41 | a method-less message whose id names no pending ticket sends nothing and changes nothing |
| `Properties.NeverIssuedIsOrphan` | mcp_server.py:37-41 | under the invariant, an id below 1000 or at or above the counter is an orphan |
| `Properties.StepKeepsResolved` | mcp_server.py:164-174 | a ticket that was issued and is no longer pending is not pending after one more step either, since only the current counter can be added |
| `Properties.RunKeepsResolved` | mcp_server.py:19-41 | a ticket that was issued and is no longer pending stays so over any later series of reads |
| `Properties.ResolutionIsFinal` | mcp_server.py:37-41 | once a ticket is resolved, a later method-less message with the same id sends nothing and changes nothing, whatever reads came in between |
| `Properties.ListingHandlers` | mcp_server.py:99-155 | `initialize`, `tools/list` and the three listing probes reply once to the request id with their fixed result and touch no state, or raise without an id; `notifications/initialized` sends nothing |
| `Properties.RunPreservesInv` | mcp_server.py:19-41 | the invariant holds after any finite series of reads |
| `Properties.RunTickets` | mcp_server.py:226-227 | over any series of reads, the sampling requests sent carry exactly the ids from the starting counter up to the final counter, in order |
| `Properties.RunTicketsFresh` | mcp_server.py:249 | the ticket ids sent over a series of reads strictly increase, and none names a ticket pending at the start |
| `Properties.FoldConcat` | mcp_server.py:19-41 | running two series of reads one after the other equals running their concatenation: the second starts from the state the first leaves, and the outputs are joined |
| `Properties.RoundTrip` | mcp_server.py:157-194 | a poem call answered with text sends the sampling request, then one reply to the caller's id with the argument and poem; afterwards only the counter has changed |
| `Properties.ErrorRoundTrip` | mcp_server.py:198-220 | a poem call answered with an error sends one -32603 error reply to the caller's id, embedding the error detail |
| `Properties.ReverseOrderResolution` | mcp_server.py:164-190 | two outstanding poem calls get consecutive tickets; answered in reverse order, each caller still gets its own argument and poem, and no ticket is left |
| `Server.MCPServer.constructor` | mcp_server.py:11-14 | a new server has counter 1000, empty maps, no output, and satisfies the invariant |
| `Server.MCPServer.SendMessage` | mcp_server.py:62-70 | appends exactly one message to the output |
| `Server.MCPServer.Step` | mcp_server.py:27-41 | the fields and output after one message equal `Handlers.Step` of the old fields, and the invariant is kept |
| `Server.MCPServer.Receive` | mcp_server.py:22-25 | a read that yields no message changes nothing; a decoded message takes one step, with the effect `Handlers.StepInput` gives |
| `Server.MCPServer.Run` | mcp_server.py:19-47 | the fields and output after a series of reads equal `Handlers.Run` of the old fields, and the invariant holds throughout |
| `Server.MCPServer.CallHandler` | mcp_server.py:32-34 | calls the handler the table chose, with the effect `Handlers.Invoke` gives |
| `Server.MCPServer.HandleInitialize` | mcp_server.py:99-118 | sends the capabilities reply to the request id, or raises `KeyError` without one |
| `Server.MCPServer.HandleInitialized` | mcp_server.py:120-121 | raises nothing, sends nothing and changes nothing |
| `Server.MCPServer.HandleEmptyList` | mcp_server.py:123-130 | sends a reply with a null result to the request id, or raises without one |
| `Server.MCPServer.HandleToolsList` | mcp_server.py:132-155 | sends the one-tool list to the request id, or raises without one |
| `Server.MCPServer.HandleToolsCall` | mcp_server.py:157-167 | updates the fields and output as `Handlers.HandleToolsCall` does: a poem call mints a ticket; other tools change nothing; missing data raises first |
| `Server.MCPServer.TriggerSampling` | mcp_server.py:222-253 | returns the old counter as the ticket, advances the counter by one, stores the argument under the ticket and sends the sampling request for it |
| `Server.MCPServer.HandleSamplingResponse` | mcp_server.py:169-208 | pops the ticket from both maps, then does as `Handlers.HandleSamplingResponse`: one success or error reply, or a raise |
| `Server.MCPServer.SendToolErrorResponse` | mcp_server.py:210-220 | sends `{code: -32603, message}` to the original request's id, or raises `KeyError` without one |

## Left out

- Transport: the `select` wait with its 1.0 s timeout and fallback, `readline`, and the stdout write and flush are OS I/O. A read that yields nothing (timeout, end of input, a line that does not decode) is a `None` input, and there is no step for it.
- JSON encoding and decoding are library calls. `Message` and `Outbound` stand in for the JSON objects. The constant `"jsonrpc": "2.0"` field of outbound messages is not represented.
- Logging has no effect on control flow and is not modelled, including the warning for an unknown method that carries an `id`.
- The outer `while True`, `KeyboardInterrupt` and process exit are not modelled; `Run` covers a finite series of reads.
- The float `temperature` 0.7 of the sampling request is not modelled. The system prompt, `maxTokens` and the prompt template are kept as constants.
- The error detail in `Sampling failed: ...` is the Python rendering of the `error` value; it is an opaque string here.
- Ids are integers, strings or null. Float ids (which Python maps treat as equal to integers) and boolean ids are not modelled.
- `params`, `result` and `arguments` are modelled only as objects. Non-object values there (which raise `TypeError` or do substring checks) are not modelled. Argument values and content texts are strings; a missing `text` renders as `None`.
- `_send_message` is taken never to raise, and strings are sequences of Unicode scalar values. In the source the write can raise: a broken pipe, or a `UnicodeEncodeError` for a lone surrogate such as `"\ud800"`, which the JSON decoder accepts. When it raises inside `trigger_sampling`, the source has already advanced the counter (`mcp_server.py:227`) and filed the argument (`mcp_server.py:249`), but `mcp_server.py:167` never runs, which leaves a half ticket. A later reply to it reaches `mcp_server.py:205-206`: the ticket is popped and no reply is sent. The model files and answers such a request.
- The branch at `mcp_server.py:205-206`, where a ticket is in one map but not the other, is modelled in `Handlers.HandleSamplingResponse`. Under the invariant it is unreachable, because the model's writes never raise (see the line above).
