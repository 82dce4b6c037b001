/** What the dispatcher guarantees: the correlation invariant, how tickets are
    minted and resolved, where replies go, and which messages are inert. */
module Properties {
  import opened Messages
  import opened Handlers

  // One step

  /** Every step keeps the correlation invariant. */
  lemma StepPreservesInv(s: State, m: Message)
    requires Inv(s)
    ensures Inv(Step(s, m).state)
  {
  }

  /** The counter moves by exactly one when, and only when, a sampling
      request goes out, and that request carries the old counter. */
  lemma StepTickets(s: State, m: Message)
    ensures var o := Step(s, m);
      && (o.state.counter == s.counter || o.state.counter == s.counter + 1)
      && TicketIds(o.sent) == Interval(s.counter, o.state.counter)
  {
  }

  /** A message with a non-empty method goes to the handler table even when
      its id names a pending ticket: no ticket is removed or altered, and
      only a `tools/call` can add one. */
  lemma MethodTakesPrecedence(s: State, m: Message)
    requires Inv(s)
    requires HasMethod(m)
    ensures var o := Step(s, m);
      && (forall k :: k in s.sampling ==> k in o.state.sampling && o.state.sampling[k] == s.sampling[k])
      && (forall k :: k in s.pending ==> k in o.state.pending && o.state.pending[k] == s.pending[k])
      && (m.methodName.value != ToolsCallMethod ==> o.state == s)
  {
  }

  /** A method the table does not know does nothing and sends nothing. */
  lemma UnknownMethodIsInert(s: State, m: Message)
    requires HasMethod(m) && m.methodName.value !in AcceptedMethods
    ensures Step(s, m) == Quiet(s)
  {
  }

  /** A `tools/call` for the poem tool sends exactly one sampling request,
      addressed by a ticket no pending entry uses, and files the argument and
      the request under that ticket. */
  lemma PoemCallMintsTicket(s: State, m: Message, text: string)
    requires Inv(s)
    requires m.methodName == Some(ToolsCallMethod)
    requires m.params.Some? && m.params.value.name == Some(PoemToolName)
    requires m.params.value.arguments.Some?
    requires TextArgument in m.params.value.arguments.value && m.params.value.arguments.value[TextArgument] == text
    ensures var o := Step(s, m);
      && o.fault == None
      && |o.sent| == 1
      && o.sent[0].Method() == Some(SamplingMethod)
      && o.sent[0].id == NumId(s.counter)
      && o.sent[0] == SamplingRequestFor(s.counter, text)
      && s.counter !in s.sampling && s.counter !in s.pending
      && o.state == State(s.counter + 1, s.sampling[s.counter := text], s.pending[s.counter := m])
  {
  }

  /** A `tools/call` naming any other tool changes nothing and sends nothing. */
  lemma OtherToolIsInert(s: State, m: Message)
    requires m.methodName == Some(ToolsCallMethod)
    requires m.params.Some? && m.params.value.name.Some? && m.params.value.name.value != PoemToolName
    ensures Step(s, m) == Quiet(s)
  {
  }

  /** A `tools/call` without the data the handler reads raises before it
      touches any state. */
  lemma MalformedCallRaises(s: State, m: Message)
    requires m.methodName == Some(ToolsCallMethod)
    requires || m.params.None?
             || m.params.value.name.None?
             || (m.params.value.name == Some(PoemToolName)
                 && (m.params.value.arguments.None? || TextArgument !in m.params.value.arguments.value))
    ensures var o := Step(s, m); o.state == s && o.sent == [] && o.fault.Some? && o.fault.value.KeyError?
  {
  }

  /** A method-less message naming a pending ticket removes that ticket from
      both maps and no other; it sends at most one message, a reply addressed
      to the original `tools/call` id; it sends nothing exactly when it raises. */
  lemma ResolvesTicket(s: State, m: Message, k: int)
    requires Inv(s)
    requires !HasMethod(m) && m.id == Some(NumId(k)) && k in s.sampling
    ensures var o := Step(s, m);
      && o.state == State(s.counter, s.sampling - {k}, s.pending - {k})
      && |o.sent| <= 1
      && (o.sent == [] <==> o.fault.Some?)
      && (forall r :: r in o.sent ==> !r.Request? && s.pending[k].id == Some(r.id))
  {
  }

  /** The reply a resolved ticket produces, case by case. */
  lemma ResolutionReply(s: State, m: Message, k: int)
    requires Inv(s)
    requires !HasMethod(m) && m.id == Some(NumId(k)) && k in s.sampling
    ensures var o := Step(s, m);
      var original := s.pending[k];
      var argument := s.sampling[k];
      var withContent := m.result.Some? && m.result.value.content.Some?;
      && (withContent && m.result.value.content.value.ContentObject? ==>
            var c := m.result.value.content.value;
            && (c.contentType == Some("text") && original.id.Some? ==>
                  o.sent == [Response(original.id.value,
                                      ToolCallResult([ContentBlock("text", PoemReply(argument, Rendered(c.text)))]))])
            && (c.contentType != Some("text") && original.id.Some? ==>
                  o.sent == [ErrorResponse(original.id.value, ErrorObject(InternalError, UnexpectedContentFormat))]))
      && (withContent && m.result.value.content.value.ContentNotObject? ==>
            o.sent == [] && o.fault == Some(AttributeError("get")))
      && (!withContent && m.error.Some? && original.id.Some? ==>
            o.sent == [ErrorResponse(original.id.value, ErrorObject(InternalError, SamplingFailed(m.error.value)))])
      && (!withContent && m.error.None? && original.id.Some? ==>
            o.sent == [ErrorResponse(original.id.value, ErrorObject(InternalError, UnexpectedResponseFormat))])
      && (original.id.None? && !(withContent && m.result.value.content.value.ContentNotObject?) ==>
            o.sent == [] && o.fault == Some(KeyError("id")))
  {
  }

  /** A method-less message that names no pending ticket is an orphan. */
  lemma OrphanIsInert(s: State, m: Message)
    requires !HasMethod(m) && !IsPending(s, m.id)
    ensures Step(s, m) == Quiet(s)
  {
  }

  /** An id the counter never issued is never pending. */
  lemma NeverIssuedIsOrphan(s: State, m: Message, k: int)
    requires Inv(s)
    requires !HasMethod(m) && m.id == Some(NumId(k)) && (k < FirstTicket || s.counter <= k)
    ensures Step(s, m) == Quiet(s)
  {
  }

  /** A ticket that is issued and no longer pending stays that way for one
      more step: only the current counter can be added. */
  lemma StepKeepsResolved(s: State, m: Message, k: int)
    requires Inv(s) && k !in s.sampling && k < s.counter
    ensures var after := Step(s, m).state; k !in after.sampling && k < after.counter
  {
    var o := Step(s, m);
    if HasMethod(m) && m.methodName.value == ToolsCallMethod {
      assert o == HandleToolsCall(s, m);
    } else {
      assert o.state.sampling.Keys <= s.sampling.Keys && o.state.counter == s.counter;
    }
  }

  /** Once a ticket is resolved, it stays resolved over any later reads. */
  lemma {:induction false} RunKeepsResolved(s: State, inputs: seq<Option<Message>>, k: int)
    requires Inv(s) && k !in s.sampling && k < s.counter
    ensures var after := Run(s, inputs).state; k !in after.sampling && k < after.counter
    decreases |inputs|
  {
    if inputs != [] {
      var before := inputs[..|inputs| - 1];
      var input := inputs[|inputs| - 1];
      RunKeepsResolved(s, before, k);
      RunPreservesInv(s, before);
      if input.Some? {
        StepKeepsResolved(Run(s, before).state, input.value, k);
      }
    }
  }

  /** Once a ticket is resolved, a later method-less message with the same id
      is an orphan, whatever the first reply was and whatever came between. */
  lemma ResolutionIsFinal(s: State, m: Message, between: seq<Option<Message>>, again: Message, k: int)
    requires Inv(s)
    requires !HasMethod(m) && m.id == Some(NumId(k)) && k in s.sampling
    requires !HasMethod(again) && again.id == m.id
    ensures var after := Run(Step(s, m).state, between).state; Step(after, again) == Quiet(after)
  {
    var resolved := Step(s, m).state;
    ResolvesTicket(s, m, k);
    StepPreservesInv(s, m);
    RunKeepsResolved(resolved, between, k);
    OrphanIsInert(Run(resolved, between).state, again);
  }

  /** The handshake and listing requests answer once, keyed by the request id,
      and leave the correlation state alone; the notification answers nothing. */
  lemma ListingHandlers(s: State, m: Message)
    requires HasMethod(m)
    requires m.methodName.value in AcceptedMethods - {ToolsCallMethod}
    ensures var o := Step(s, m);
      && o.state == s
      && (m.methodName.value == InitializedMethod ==> o == Quiet(s))
      && (m.methodName.value != InitializedMethod && m.id.None? ==> o == Raise(s, KeyError("id")))
      && (m.methodName.value != InitializedMethod && m.id.Some? ==>
            && o.fault == None && |o.sent| == 1
            && o.sent[0].Response? && o.sent[0].id == m.id.value
            && (m.methodName.value == InitializeMethod ==> o.sent[0].result == InitializeInfo)
            && (m.methodName.value == ToolsListMethod ==>
                  && o.sent[0].result == ToolsListResult([PoemTool])
                  && o.sent[0].result.tools[0].name == PoemToolName
                  && o.sent[0].result.tools[0].required == [TextArgument])
            && (m.methodName.value in {PromptsListMethod, ResourcesListMethod, ResourceTemplatesListMethod} ==>
                  o.sent[0].result == NullResult))
  {
  }

  // Series of steps

  lemma TicketIdsAppend(a: seq<Outbound>, b: seq<Outbound>)
    ensures TicketIds(a + b) == TicketIds(a) + TicketIds(b)
    decreases |a|
  {
    if a == [] {
      assert a + b == b;
    } else {
      assert (a + b)[0] == a[0];
      assert (a + b)[1..] == a[1..] + b;
      TicketIdsAppend(a[1..], b);
    }
  }

  lemma IntervalSplit(lo: int, mid: int, hi: int)
    requires lo <= mid <= hi
    ensures Interval(lo, mid) + Interval(mid, hi) == Interval(lo, hi)
  {
  }

  lemma StepInputPreservesInv(s: State, input: Option<Message>)
    requires Inv(s)
    ensures Inv(StepInput(s, input).state)
  {
    if input.Some? {
      StepPreservesInv(s, input.value);
    }
  }

  /** The invariant holds after any series of reads. */
  lemma {:induction false} RunPreservesInv(s: State, inputs: seq<Option<Message>>)
    requires Inv(s)
    ensures Inv(Run(s, inputs).state)
    decreases |inputs|
  {
    if inputs != [] {
      var before := inputs[..|inputs| - 1];
      RunPreservesInv(s, before);
      StepInputPreservesInv(Run(s, before).state, inputs[|inputs| - 1]);
    }
  }

  /** Over any series of reads, the sampling requests sent carry exactly the
      ids from the starting counter up to the final one, in increasing order,
      so no ticket id is ever issued twice. */
  lemma {:induction false} RunTickets(s: State, inputs: seq<Option<Message>>)
    ensures var r := Run(s, inputs);
      && s.counter <= r.state.counter
      && TicketIds(r.sent) == Interval(s.counter, r.state.counter)
    decreases |inputs|
  {
    if inputs != [] {
      var before := inputs[..|inputs| - 1];
      var mid := Run(s, before);
      RunTickets(s, before);
      var input := inputs[|inputs| - 1];
      var o := StepInput(mid.state, input);
      if input.Some? {
        StepTickets(mid.state, input.value);
      }
      TicketIdsAppend(mid.sent, o.sent);
      IntervalSplit(s.counter, mid.state.counter, o.state.counter);
    }
  }

  /** Ticket ids sent over a series of reads are strictly increasing and none
      of them names a ticket that was pending at the start. */
  lemma RunTicketsFresh(s: State, inputs: seq<Option<Message>>)
    requires Inv(s)
    ensures var ids := TicketIds(Run(s, inputs).sent);
      && (forall i, j :: 0 <= i < j < |ids| ==> ids[i] < ids[j])
      && (forall i :: 0 <= i < |ids| ==> ids[i] !in s.sampling && ids[i] !in s.pending)
  {
    RunTickets(s, inputs);
  }

  /** Unfolds the last read of a series. */
  lemma FoldLast(step: (State, Option<Message>) -> Outcome, s: State, inputs: seq<Option<Message>>, input: Option<Message>)
    ensures Fold(step, s, inputs + [input]) == Then(step, Fold(step, s, inputs), input)
  {
    assert (inputs + [input])[..|inputs|] == inputs;
  }

  /** A step sees only the state, not the messages sent before it. */
  lemma ThenPrefix(step: (State, Option<Message>) -> Outcome, st: State, p: seq<Outbound>, q: seq<Outbound>, input: Option<Message>)
    ensures var t := Then(step, Session(st, q), input);
      Then(step, Session(st, p + q), input) == Session(t.state, p + t.sent)
  {
  }

  /** Unfolds a series of two reads. */
  lemma FoldPair(step: (State, Option<Message>) -> Outcome, s: State, x: Option<Message>, y: Option<Message>)
    ensures var o1 := step(s, x);
      var o2 := step(o1.state, y);
      Fold(step, s, [x, y]) == Session(o2.state, o1.sent + o2.sent)
  {
    var o1 := step(s, x);
    assert Fold(step, s, [x]) == Session(o1.state, o1.sent) by {
      assert [x] == [] + [x];
      FoldLast(step, s, [], x);
    }
    assert [x, y] == [x] + [y];
    FoldLast(step, s, [x], y);
  }

  /** A series of reads split in two: the second part starts from the state
      the first part leaves, and the output streams are concatenated. */
  lemma {:induction false} FoldConcat(step: (State, Option<Message>) -> Outcome, s: State,
                                      xs: seq<Option<Message>>, ys: seq<Option<Message>>)
    ensures var a := Fold(step, s, xs);
      var b := Fold(step, a.state, ys);
      Fold(step, s, xs + ys) == Session(b.state, a.sent + b.sent)
    decreases |ys|
  {
    var a := Fold(step, s, xs);
    if ys == [] {
      assert xs + ys == xs;
      assert a.sent + [] == a.sent;
    } else {
      var init, last := ys[..|ys| - 1], ys[|ys| - 1];
      var b := Fold(step, a.state, init);
      var t := Then(step, b, last);
      assert Fold(step, a.state, ys) == t by {
        assert init + [last] == ys;
        FoldLast(step, a.state, init, last);
      }
      assert Fold(step, s, xs + ys) == Then(step, Fold(step, s, xs + init), last) by {
        assert xs + ys == (xs + init) + [last];
        FoldLast(step, s, xs + init, last);
      }
      assert Fold(step, s, xs + init) == Session(b.state, a.sent + b.sent) by {
        FoldConcat(step, s, xs, init);
      }
      ThenPrefix(step, b.state, a.sent, b.sent, last);
    }
  }

  /** Unfolds a series of four reads as two pairs. */
  lemma FoldTwoThenTwo(step: (State, Option<Message>) -> Outcome, s: State,
                       w: Option<Message>, x: Option<Message>, y: Option<Message>, z: Option<Message>)
    ensures var a := Fold(step, s, [w, x]);
      var b := Fold(step, a.state, [y, z]);
      Fold(step, s, [w, x, y, z]) == Session(b.state, a.sent + b.sent)
  {
    assert [w, x] + [y, z] == [w, x, y, z];
    FoldConcat(step, s, [w, x], [y, z]);
  }

  // Round trips

  /** A poem call for `text` with id `id`. */
  function PoemCall(id: Id, text: string): Message {
    Message(Some(id), Some(ToolsCallMethod), Some(CallParams(Some(PoemToolName), Some(map[TextArgument := text]))), None, None)
  }

  /** The peer's successful sampling reply for ticket `k`. */
  function SampledText(k: int, poem: string): Message {
    Message(Some(NumId(k)), None, None, Some(SamplingResult(Some(ContentObject(Some("text"), Some(poem))))), None)
  }

  /** The peer's failed sampling reply for ticket `k`. */
  function SamplingError(k: int, detail: string): Message {
    Message(Some(NumId(k)), None, None, None, Some(detail))
  }

  /** The tool reply carrying a poem for `argument`. */
  function PoemResponse(id: Id, argument: string, poem: string): Outbound {
    Response(id, ToolCallResult([ContentBlock("text", PoemReply(argument, poem))]))
  }

  lemma PoemCallStep(s: State, id: Id, text: string)
    requires Inv(s)
    ensures var o := StepInput(s, Some(PoemCall(id, text)));
      && o.state == State(s.counter + 1, s.sampling[s.counter := text], s.pending[s.counter := PoemCall(id, text)])
      && o.sent == [SamplingRequestFor(s.counter, text)]
      && Inv(o.state)
  {
    PoemCallMintsTicket(s, PoemCall(id, text), text);
    StepPreservesInv(s, PoemCall(id, text));
  }

  lemma SampledTextStep(s: State, k: int, poem: string)
    requires Inv(s) && k in s.sampling && s.pending[k].id.Some?
    ensures var o := StepInput(s, Some(SampledText(k, poem)));
      && o.state == State(s.counter, s.sampling - {k}, s.pending - {k})
      && o.sent == [PoemResponse(s.pending[k].id.value, s.sampling[k], poem)]
      && Inv(o.state)
  {
    ResolutionReply(s, SampledText(k, poem), k);
    ResolvesTicket(s, SampledText(k, poem), k);
    StepPreservesInv(s, SampledText(k, poem));
  }

  lemma SamplingErrorStep(s: State, k: int, detail: string)
    requires Inv(s) && k in s.sampling && s.pending[k].id.Some?
    ensures var o := StepInput(s, Some(SamplingError(k, detail)));
      && o.state == State(s.counter, s.sampling - {k}, s.pending - {k})
      && o.sent == [ErrorResponse(s.pending[k].id.value, ErrorObject(InternalError, SamplingFailed(detail)))]
  {
    ResolutionReply(s, SamplingError(k, detail), k);
    ResolvesTicket(s, SamplingError(k, detail), k);
  }

  lemma UpdateThenRemove<V>(m: map<int, V>, k: int, v: V)
    requires k !in m
    ensures m[k := v] - {k} == m
  {
  }

  /** A poem call answered by a text reply yields the sampling request and then
      one tool reply to the caller's id holding the argument and the poem;
      the state is the starting one with the counter advanced. */
  lemma RoundTrip(s: State, id: Id, text: string, poem: string)
    requires Inv(s)
    ensures var r := Run(s, [Some(PoemCall(id, text)), Some(SampledText(s.counter, poem))]);
      && r.sent == [SamplingRequestFor(s.counter, text), PoemResponse(id, text, poem)]
      && r.state == s.(counter := s.counter + 1)
  {
    var k := s.counter;
    var call, answer := Some(PoemCall(id, text)), Some(SampledText(k, poem));
    FoldPair(StepInput, s, call, answer);
    PoemCallStep(s, id, text);
    var s1 := StepInput(s, call).state;
    SampledTextStep(s1, k, poem);
    UpdateThenRemove(s.sampling, k, text);
    UpdateThenRemove(s.pending, k, PoemCall(id, text));
  }

  /** A poem call answered by an error reply yields one error reply with the
      fixed code to the caller's id, embedding the upstream detail. */
  lemma ErrorRoundTrip(s: State, id: Id, text: string, detail: string)
    requires Inv(s)
    ensures var r := Run(s, [Some(PoemCall(id, text)), Some(SamplingError(s.counter, detail))]);
      && r.sent == [SamplingRequestFor(s.counter, text),
                    ErrorResponse(id, ErrorObject(InternalError, SamplingFailed(detail)))]
      && r.state == s.(counter := s.counter + 1)
  {
    var k := s.counter;
    var call, failed := Some(PoemCall(id, text)), Some(SamplingError(k, detail));
    FoldPair(StepInput, s, call, failed);
    PoemCallStep(s, id, text);
    var s1 := StepInput(s, call).state;
    SamplingErrorStep(s1, k, detail);
    UpdateThenRemove(s.sampling, k, text);
    UpdateThenRemove(s.pending, k, PoemCall(id, text));
  }

  // Interleaving

  lemma TwoPoemCalls(s: State, id1: Id, text1: string, id2: Id, text2: string)
    requires Inv(s)
    ensures var k := s.counter;
      var s2 := State(k + 2, s.sampling[k := text1][k + 1 := text2],
                      s.pending[k := PoemCall(id1, text1)][k + 1 := PoemCall(id2, text2)]);
      && Run(s, [Some(PoemCall(id1, text1)), Some(PoemCall(id2, text2))])
           == Session(s2, [SamplingRequestFor(k, text1), SamplingRequestFor(k + 1, text2)])
      && Inv(s2)
  {
    FoldPair(StepInput, s, Some(PoemCall(id1, text1)), Some(PoemCall(id2, text2)));
    PoemCallStep(s, id1, text1);
    PoemCallStep(StepInput(s, Some(PoemCall(id1, text1))).state, id2, text2);
  }

  lemma TwoAnswersReversed(s: State, k: int, id1: Id, text1: string, id2: Id, text2: string, poem1: string, poem2: string)
    requires Inv(s)
    requires k in s.sampling && s.sampling[k] == text1 && s.pending[k] == PoemCall(id1, text1)
    requires k + 1 in s.sampling && s.sampling[k + 1] == text2 && s.pending[k + 1] == PoemCall(id2, text2)
    ensures Run(s, [Some(SampledText(k + 1, poem2)), Some(SampledText(k, poem1))])
              == Session(State(s.counter, s.sampling - {k, k + 1}, s.pending - {k, k + 1}),
                         [PoemResponse(id2, text2, poem2), PoemResponse(id1, text1, poem1)])
  {
    FoldPair(StepInput, s, Some(SampledText(k + 1, poem2)), Some(SampledText(k, poem1)));
    SampledTextStep(s, k + 1, poem2);
    var s3 := StepInput(s, Some(SampledText(k + 1, poem2))).state;
    SampledTextStep(s3, k, poem1);
    assert s3.sampling - {k} == s.sampling - {k, k + 1};
    assert s3.pending - {k} == s.pending - {k, k + 1};
  }

  /** Two outstanding poem calls get consecutive tickets; answering them in
      the reverse order still replies to each original caller with its own
      argument and poem, and leaves no ticket behind. */
  lemma ReverseOrderResolution(s: State, id1: Id, text1: string, id2: Id, text2: string, poem1: string, poem2: string)
    requires Inv(s)
    ensures var k := s.counter;
      var r := Run(s, [Some(PoemCall(id1, text1)), Some(PoemCall(id2, text2)),
                       Some(SampledText(k + 1, poem2)), Some(SampledText(k, poem1))]);
      && r.sent == [SamplingRequestFor(k, text1), SamplingRequestFor(k + 1, text2),
                    PoemResponse(id2, text2, poem2), PoemResponse(id1, text1, poem1)]
      && r.state == s.(counter := k + 2)
  {
    var k := s.counter;
    var c1, c2 := Some(PoemCall(id1, text1)), Some(PoemCall(id2, text2));
    var a2, a1 := Some(SampledText(k + 1, poem2)), Some(SampledText(k, poem1));
    var q1, q2 := SamplingRequestFor(k, text1), SamplingRequestFor(k + 1, text2);
    var p2, p1 := PoemResponse(id2, text2, poem2), PoemResponse(id1, text1, poem1);
    var a := Run(s, [c1, c2]);
    var b := Run(a.state, [a2, a1]);
    assert a.sent == [q1, q2] by {
      TwoPoemCalls(s, id1, text1, id2, text2);
    }
    assert b == Session(s.(counter := k + 2), [p2, p1]) by {
      TwoPoemCalls(s, id1, text1, id2, text2);
      TwoAnswersReversed(a.state, k, id1, text1, id2, text2, poem1, poem2);
      assert k !in s.sampling && k + 1 !in s.sampling;
      UpdateTwiceThenRemove(s.sampling, k, text1, text2);
      UpdateTwiceThenRemove(s.pending, k, PoemCall(id1, text1), PoemCall(id2, text2));
    }
    assert Run(s, [c1, c2, a2, a1]) == Session(b.state, a.sent + b.sent) by {
      FoldTwoThenTwo(StepInput, s, c1, c2, a2, a1);
    }
    assert a.sent + b.sent == [q1, q2, p2, p1];
  }

  lemma UpdateTwiceThenRemove<V>(m: map<int, V>, k: int, v1: V, v2: V)
    requires k !in m && k + 1 !in m
    ensures m[k := v1][k + 1 := v2] - {k, k + 1} == m
  {
  }
}
