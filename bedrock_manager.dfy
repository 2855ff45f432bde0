/**
 * The inference-backend adapter (`BedrockManager`): building the request,
 * the buffered and the streamed call, folding the streamed events into one
 * assistant message, and the model-catalog lookup. The SDK's `send`, the
 * stream iterator and `JSON.parse` enter as function parameters; the
 * inference constants enter as one opaque `InferenceConfig` value.
 */
module Bedrock {
  import opened Common

  /** One element of the flattened tool list (`FlattenMCPTools`). */
  datatype FlatTool = FlatTool(name: string, description: Option<string>, inputSchema: Json)

  datatype StopReason =
    | EndTurn | ToolUseStop | MaxTokens | StopSequence | GuardrailIntervened | ContentFiltered

  /** The inference constants (maximum tokens, temperature, top-p). */
  datatype InferenceConfig = InferenceConfig(maxTokens: int, temperature: real, topP: real)

  datatype ToolSpec = ToolSpec(name: string, description: Option<string>, inputSchema: Json)

  datatype SystemBlock = SystemText(text: string)

  /** A `ConverseCommandInput`. */
  datatype ConverseInput = ConverseInput(
    modelId: string,
    messages: seq<Message>,
    inferenceConfig: InferenceConfig,
    toolConfig: Option<seq<ToolSpec>>,
    system: Option<seq<SystemBlock>>)

  /** A `ConverseCommandOutput`, reduced to its message and stop reason. */
  datatype ConverseOutput = ConverseOutput(message: Option<Message>, stopReason: StopReason)

  datatype BedrockError =
    | EmptyMessages
    | SendFailed
    | StreamUndefined
    | ToolInputParseFailed(toolName: string)
    | UnrecognizedModel(modelId: string)
    | CatalogFailed
    | StreamFailed

  // ---------------------------------------------------------------------
  // Request

  /** The tool specifications of the flattened tools, one per tool, in order. */
  function ToolSpecs(tools: seq<FlatTool>): (specs: seq<ToolSpec>)
    ensures |specs| == |tools|
    ensures forall i :: 0 <= i < |tools| ==>
              specs[i] == ToolSpec(tools[i].name, tools[i].description, tools[i].inputSchema)
  {
    seq(|tools|, i requires 0 <= i < |tools| => ToolSpec(tools[i].name, tools[i].description, tools[i].inputSchema))
  }

  /** The request `buildInputCommand` builds: tools only when there are some,
      a system block only for a non-empty prompt. */
  function Request(modelId: string, messages: seq<Message>, tools: Option<seq<FlatTool>>,
                   systemPrompt: Option<string>, inference: InferenceConfig): (input: ConverseInput)
    ensures input.modelId == modelId && input.messages == messages && input.inferenceConfig == inference
    ensures input.toolConfig.Some? <==> tools.Some? && |tools.value| > 0
    ensures input.toolConfig.Some? ==> input.toolConfig.value == ToolSpecs(tools.value)
    ensures input.system.Some? <==> systemPrompt.Some? && systemPrompt.value != ""
    ensures input.system.Some? ==> input.system.value == [SystemText(systemPrompt.value)]
  {
    ConverseInput(modelId, messages, inference,
                  if tools.Some? && |tools.value| > 0 then Some(ToolSpecs(tools.value)) else None,
                  if systemPrompt.Some? && systemPrompt.value != "" then Some([SystemText(systemPrompt.value)]) else None)
  }

  method BuildInputCommand(modelId: string, messages: seq<Message>, tools: Option<seq<FlatTool>>,
                           systemPrompt: Option<string>, inference: InferenceConfig)
    returns (input: ConverseInput)
    ensures input == Request(modelId, messages, tools, systemPrompt, inference)
  {
    input := ConverseInput(modelId, messages, inference, None, None);
    if tools.Some? && |tools.value| > 0 {
      var ts := tools.value;
      var specs := seq(|ts|, i requires 0 <= i < |ts| => ToolSpec(ts[i].name, ts[i].description, ts[i].inputSchema));
      input := input.(toolConfig := Some(specs));
    }
    if systemPrompt.Some? && systemPrompt.value != "" {
      input := input.(system := Some([SystemText(systemPrompt.value)]));
    }
  }

  // ---------------------------------------------------------------------
  // Buffered call

  /** `generateResponse`: fails on an empty message list before anything is
      sent; otherwise sends the built request once. `send` gives the
      backend's answer, `None` when the call rejects. `sent` is the request
      that went out, if any. */
  method GenerateResponse(modelId: string, messages: seq<Message>, tools: Option<seq<FlatTool>>,
                          systemPrompt: Option<string>, inference: InferenceConfig,
                          send: ConverseInput -> Option<ConverseOutput>)
    returns (r: Result<ConverseOutput, BedrockError>, sent: Option<ConverseInput>)
    ensures |messages| == 0 ==> r == Err(EmptyMessages) && sent == None
    ensures |messages| > 0 ==> sent == Some(Request(modelId, messages, tools, systemPrompt, inference))
    ensures sent.Some? && send(sent.value).None? ==> r == Err(SendFailed)
    ensures sent.Some? && send(sent.value).Some? ==> r == Ok(send(sent.value).value)
  {
    if |messages| == 0 {
      return Err(EmptyMessages), None;
    }
    var input := BuildInputCommand(modelId, messages, tools, systemPrompt, inference);
    sent := Some(input);
    match send(input) {
      case None => r := Err(SendFailed);
      case Some(out) => r := Ok(out);
    }
  }

  // ---------------------------------------------------------------------
  // Streamed call: the events and their fold

  datatype ToolStart = ToolStart(toolUseId: string, name: string)

  /** One event of the response stream. Each field is the part the loop
      inspects: `contentBlockDelta.delta.text`, `contentBlockStart.start.toolUse`,
      `contentBlockDelta.delta.toolUse.input` and `messageStop.stopReason`.
      An empty string stands for an absent one, as both are falsy in the source. */
  datatype StreamEvent = StreamEvent(
    deltaText: string,
    toolStart: Option<ToolStart>,
    deltaToolInput: string,
    stopReason: Option<StopReason>)

  /** What the stream call yields: a rejected send, a response without a
      stream, the events of a stream that ends normally, or the events a
      stream delivers before its iterator throws (an exception event of the
      service, a dropped connection). */
  datatype StreamReply =
    | SendRejected
    | StreamMissing
    | EventStream(events: seq<StreamEvent>)
    | EventStreamFailing(delivered: seq<StreamEvent>)

  /** A tool invocation being assembled: its id, its name and its input text so far. */
  datatype ToolUseRecord = ToolUseRecord(toolUseId: string, name: string, input: string)

  /** The loop's variables: `accumulatedText`, `toolUses`, `finalStopReason`,
      and the chunks handed to `onChunk`, in call order. */
  datatype StreamAcc = StreamAcc(text: string, toolUses: seq<ToolUseRecord>, stop: StopReason, chunks: seq<string>)

  const InitialAcc: StreamAcc := StreamAcc("", [], EndTurn, [])

  /** One turn of the `for await` loop, its four checks in source order. */
  function Step(acc: StreamAcc, ev: StreamEvent): StreamAcc
  {
    var a1 := if ev.deltaText != "" then acc.(text := acc.text + ev.deltaText, chunks := acc.chunks + [ev.deltaText]) else acc;
    var a2 := if ev.toolStart.Some? then
                a1.(toolUses := a1.toolUses + [ToolUseRecord(ev.toolStart.value.toolUseId, ev.toolStart.value.name, "")])
              else a1;
    var a3 := if ev.deltaToolInput != "" && |a2.toolUses| > 0 then
                var n := |a2.toolUses|;
                a2.(toolUses := a2.toolUses[n - 1 := a2.toolUses[n - 1].(input := a2.toolUses[n - 1].input + ev.deltaToolInput)])
              else a2;
    if ev.stopReason.Some? then a3.(stop := ev.stopReason.value) else a3
  }

  /** The loop's state after the given events. */
  function Fold(events: seq<StreamEvent>): StreamAcc
  {
    if events == [] then InitialAcc else Step(Fold(events[..|events| - 1]), events[|events| - 1])
  }

  /** The non-empty text deltas, in arrival order. */
  function TextDeltas(events: seq<StreamEvent>): seq<string>
  {
    if events == [] then []
    else
      var last := events[|events| - 1];
      TextDeltas(events[..|events| - 1]) + (if last.deltaText != "" then [last.deltaText] else [])
  }

  /** The tool starts, in arrival order. */
  function Starts(events: seq<StreamEvent>): seq<ToolStart>
  {
    if events == [] then []
    else
      var last := events[|events| - 1];
      Starts(events[..|events| - 1]) + (if last.toolStart.Some? then [last.toolStart.value] else [])
  }

  /** The non-empty tool-input deltas, in arrival order. */
  function ToolDeltas(events: seq<StreamEvent>): seq<string>
  {
    if events == [] then []
    else
      var last := events[|events| - 1];
      ToolDeltas(events[..|events| - 1]) + (if last.deltaToolInput != "" then [last.deltaToolInput] else [])
  }

  /** The stop reason of the last stop event, if any. */
  function LastStop(events: seq<StreamEvent>): Option<StopReason>
  {
    if events == [] then None
    else if events[|events| - 1].stopReason.Some? then events[|events| - 1].stopReason
    else LastStop(events[..|events| - 1])
  }

  function StopOrEndTurn(s: Option<StopReason>): StopReason
  {
    match s
    case Some(reason) => reason
    case None => EndTurn
  }

  /** The text and the stop reason the fold ends with: the concatenation of
      the non-empty deltas, each passed to `onChunk` once and in order; the
      last stop reason seen, `end_turn` when none arrived. */
  lemma {:induction false} FoldTextAndStop(events: seq<StreamEvent>)
    ensures Fold(events).chunks == TextDeltas(events)
    ensures Fold(events).text == Concat(TextDeltas(events))
    ensures Fold(events).stop == StopOrEndTurn(LastStop(events))
  {
    if events != [] {
      var pre := events[..|events| - 1];
      var last := events[|events| - 1];
      FoldTextAndStop(pre);
      if last.deltaText != "" {
        var ds := TextDeltas(pre);
        assert (ds + [last.deltaText])[..|ds|] == ds;
      }
    }
  }

  /** One record per tool start, in start order, with the id and the name of that start. */
  lemma {:induction false} FoldRecordsFollowStarts(events: seq<StreamEvent>)
    ensures |Fold(events).toolUses| == |Starts(events)|
    ensures forall k :: 0 <= k < |Starts(events)| ==>
              Fold(events).toolUses[k].toolUseId == Starts(events)[k].toolUseId &&
              Fold(events).toolUses[k].name == Starts(events)[k].name
  {
    if events != [] {
      var pre := events[..|events| - 1];
      FoldRecordsFollowStarts(pre);
      StepKeepsIdentities(Fold(pre), events[|events| - 1]);
    }
  }

  /** A step keeps the id and the name of every record. A tool start
      leaves the earlier records as they are and appends one record with
      its id and name, whose input starts empty and so holds just the
      event's own tool-input fragment. */
  lemma StepKeepsIdentities(acc: StreamAcc, ev: StreamEvent)
    ensures |Step(acc, ev).toolUses| == |acc.toolUses| + (if ev.toolStart.Some? then 1 else 0)
    ensures forall k :: 0 <= k < |acc.toolUses| ==>
              Step(acc, ev).toolUses[k].toolUseId == acc.toolUses[k].toolUseId &&
              Step(acc, ev).toolUses[k].name == acc.toolUses[k].name
    ensures ev.toolStart.Some? ==>
              Step(acc, ev).toolUses[..|acc.toolUses|] == acc.toolUses &&
              Step(acc, ev).toolUses[|acc.toolUses|] ==
                ToolUseRecord(ev.toolStart.value.toolUseId, ev.toolStart.value.name, ev.deltaToolInput)
  {
  }

  /** The input of a record is the tool-input fragments from its start up
      to the next start: a start followed by events without a start
      appends exactly one record, with the start's id and name and those
      fragments in arrival order, and leaves every earlier record as it was. */
  lemma FoldRecordInput(pre: seq<StreamEvent>, start: StreamEvent, post: seq<StreamEvent>)
    requires start.toolStart.Some?
    requires forall i :: 0 <= i < |post| ==> post[i].toolStart.None?
    ensures Fold(pre + [start] + post).toolUses ==
            Fold(pre).toolUses +
              [ToolUseRecord(start.toolStart.value.toolUseId, start.toolStart.value.name,
                             start.deltaToolInput + Concat(ToolDeltas(post)))]
  {
    var before := Fold(pre).toolUses;
    var started := pre + [start];
    var r0 := ToolUseRecord(start.toolStart.value.toolUseId, start.toolStart.value.name, start.deltaToolInput);
    FoldSnoc(pre, start);
    StepKeepsIdentities(Fold(pre), start);
    SnocOf(Fold(started).toolUses, before, r0);
    FoldAppendsToNewest(started, post);
    NewestGainsAfterStart(before, r0, Fold(started + post).toolUses, Concat(ToolDeltas(post)));
  }

  lemma FoldSnoc(pre: seq<StreamEvent>, ev: StreamEvent)
    ensures Fold(pre + [ev]) == Step(Fold(pre), ev)
  {
    assert (pre + [ev])[..|pre|] == pre;
  }

  lemma SnocOf<T>(s: seq<T>, init: seq<T>, x: T)
    requires |s| == |init| + 1 && s[..|init|] == init && s[|init|] == x
    ensures s == init + [x]
  {
  }

  /** When the newest record is the one just started, gaining `extra`
      fixes that record's whole input. */
  lemma NewestGainsAfterStart(before: seq<ToolUseRecord>, r0: ToolUseRecord, after: seq<ToolUseRecord>, extra: string)
    requires NewestGains(before + [r0], after, extra)
    ensures after == before + [r0.(input := r0.input + extra)]
  {
    assert (before + [r0])[..|before|] == before;
    SnocOf(after, before, r0.(input := r0.input + extra));
  }

  /** `after` is `before` with `extra` appended to the input of its newest
      record, or both are empty. */
  predicate NewestGains(before: seq<ToolUseRecord>, after: seq<ToolUseRecord>, extra: string)
  {
    && |after| == |before|
    && (|before| > 0 ==>
          after[..|before| - 1] == before[..|before| - 1] &&
          after[|before| - 1] == before[|before| - 1].(input := before[|before| - 1].input + extra))
  }

  lemma NewestGainsTrans(a: seq<ToolUseRecord>, b: seq<ToolUseRecord>, c: seq<ToolUseRecord>, x: string, y: string)
    requires NewestGains(a, b, x) && NewestGains(b, c, y)
    ensures NewestGains(a, c, x + y)
  {
    if |a| > 0 {
      var n := |a| - 1;
      assert a[n].input + x + y == a[n].input + (x + y);
    }
  }

  /** An event without a tool start adds its tool-input delta to the newest record, if there is one. */
  lemma StepWithoutStart(acc: StreamAcc, ev: StreamEvent)
    requires ev.toolStart.None?
    ensures NewestGains(acc.toolUses, Step(acc, ev).toolUses, if |acc.toolUses| > 0 then ev.deltaToolInput else "")
  {
    if |acc.toolUses| > 0 && ev.deltaToolInput == "" {
      var n := |acc.toolUses| - 1;
      assert acc.toolUses[n].(input := acc.toolUses[n].input + "") == acc.toolUses[n];
    }
  }

  /** Events without a tool start touch only the newest record: every
      earlier record is unchanged, the newest gains the tool-input deltas in
      arrival order, and with no record at all the deltas are dropped. */
  lemma {:induction false} FoldAppendsToNewest(pre: seq<StreamEvent>, post: seq<StreamEvent>)
    requires forall i :: 0 <= i < |post| ==> post[i].toolStart.None?
    ensures NewestGains(Fold(pre).toolUses, Fold(pre + post).toolUses,
                        if |Fold(pre).toolUses| > 0 then Concat(ToolDeltas(post)) else "")
    decreases |post|
  {
    var before := Fold(pre).toolUses;
    if post == [] {
      assert pre + post == pre;
      if |before| > 0 {
        var n := |before| - 1;
        assert before[n].(input := before[n].input + "") == before[n];
      }
    } else {
      var post' := post[..|post| - 1];
      var last := post[|post| - 1];
      assert (pre + post)[..|pre + post| - 1] == pre + post';
      FoldAppendsToNewest(pre, post');
      var mid := Fold(pre + post');
      StepWithoutStart(mid, last);
      var x := if |before| > 0 then Concat(ToolDeltas(post')) else "";
      var y := if |mid.toolUses| > 0 then last.deltaToolInput else "";
      NewestGainsTrans(before, mid.toolUses, Fold(pre + post).toolUses, x, y);
      if |before| > 0 {
        var ds := ToolDeltas(post');
        if last.deltaToolInput != "" {
          assert ToolDeltas(post) == ds + [last.deltaToolInput];
          assert (ds + [last.deltaToolInput])[..|ds|] == ds;
        } else {
          assert ToolDeltas(post) == ds;
        }
      }
    }
  }

  // ---------------------------------------------------------------------
  // Streamed call: assembling the message

  /** The input a record turns into: `{}` for an empty text, else the parse of the text. */
  function ParsedInput(rec: ToolUseRecord, parse: string -> Option<Json>): Option<Json>
  {
    if rec.input == "" then Some(EmptyObject) else parse(rec.input)
  }

  function TextPart(text: string): seq<ContentBlock>
  {
    if text != "" then [Text(text)] else []
  }

  /** The outcome `constructStreamResponse` must have: an error naming the
      first record whose input does not parse, if there is one; otherwise an
      assistant message holding the text block (only for non-empty text)
      followed by one tool-use block per record, in record order. */
  ghost predicate DescribesStream(r: Result<ConverseOutput, BedrockError>, text: string,
                                  toolUses: seq<ToolUseRecord>, stop: StopReason,
                                  parse: string -> Option<Json>)
  {
    && (r.Err? <==> exists i :: 0 <= i < |toolUses| && ParsedInput(toolUses[i], parse).None?)
    && (r.Err? ==> exists i :: 0 <= i < |toolUses| && ParsedInput(toolUses[i], parse).None? &&
                      (forall j :: 0 <= j < i ==> ParsedInput(toolUses[j], parse).Some?) &&
                      r.error == ToolInputParseFailed(toolUses[i].name))
    && (r.Ok? ==>
          && r.value.stopReason == stop
          && r.value.message.Some?
          && r.value.message.value.role == Assistant
          && |r.value.message.value.content| == |TextPart(text)| + |toolUses|
          && r.value.message.value.content[..|TextPart(text)|] == TextPart(text)
          && forall i :: 0 <= i < |toolUses| ==>
               r.value.message.value.content[|TextPart(text)| + i] ==
                 ToolUse(toolUses[i].toolUseId, toolUses[i].name, ParsedInput(toolUses[i], parse).value))
  }

  /** `constructStreamResponse`. */
  method ConstructStreamResponse(text: string, toolUses: seq<ToolUseRecord>, stop: StopReason,
                                 parse: string -> Option<Json>)
    returns (r: Result<ConverseOutput, BedrockError>)
    ensures DescribesStream(r, text, toolUses, stop, parse)
  {
    var content: seq<ContentBlock> := [];
    if text != "" {
      content := content + [Text(text)];
    }
    var k := 0;
    while k < |toolUses|
      invariant 0 <= k <= |toolUses|
      invariant |content| == |TextPart(text)| + k
      invariant content[..|TextPart(text)|] == TextPart(text)
      invariant forall j :: 0 <= j < k ==> ParsedInput(toolUses[j], parse).Some?
      invariant forall j :: 0 <= j < k ==>
                  content[|TextPart(text)| + j] ==
                    ToolUse(toolUses[j].toolUseId, toolUses[j].name, ParsedInput(toolUses[j], parse).value)
    {
      var rec := toolUses[k];
      var input: Json;
      if rec.input != "" {
        var parsed := parse(rec.input);
        if parsed.None? {
          return Err(ToolInputParseFailed(rec.name));
        }
        input := parsed.value;
      } else {
        input := EmptyObject;
      }
      content := content + [ToolUse(rec.toolUseId, rec.name, input)];
      k := k + 1;
    }
    r := Ok(ConverseOutput(Some(Message(Assistant, content)), stop));
  }

  /** The `for await` loop of `generateStreamResponse` over the events. */
  method ConsumeStream(events: seq<StreamEvent>)
    returns (accumulatedText: string, toolUses: seq<ToolUseRecord>, finalStopReason: StopReason, chunks: seq<string>)
    ensures StreamAcc(accumulatedText, toolUses, finalStopReason, chunks) == Fold(events)
  {
    chunks := [];
    accumulatedText := "";
    toolUses := [];
    finalStopReason := EndTurn;
    var i := 0;
    while i < |events|
      invariant 0 <= i <= |events|
      invariant StreamAcc(accumulatedText, toolUses, finalStopReason, chunks) == Fold(events[..i])
    {
      var ev := events[i];
      ghost var prev := StreamAcc(accumulatedText, toolUses, finalStopReason, chunks);
      if ev.deltaText != "" {
        accumulatedText := accumulatedText + ev.deltaText;
        chunks := chunks + [ev.deltaText];
      }
      if ev.toolStart.Some? {
        toolUses := toolUses + [ToolUseRecord(ev.toolStart.value.toolUseId, ev.toolStart.value.name, "")];
      }
      if ev.deltaToolInput != "" && |toolUses| > 0 {
        var n := |toolUses|;
        toolUses := toolUses[n - 1 := toolUses[n - 1].(input := toolUses[n - 1].input + ev.deltaToolInput)];
      }
      if ev.stopReason.Some? {
        finalStopReason := ev.stopReason.value;
      }
      assert StreamAcc(accumulatedText, toolUses, finalStopReason, chunks) == Step(prev, ev);
      assert events[..i + 1][..i] == events[..i];
      i := i + 1;
    }
    assert events[..|events|] == events;
  }

  /** `generateStreamResponse`: fails on an empty message list before
      anything is sent, fails when the call rejects or yields no stream, and
      otherwise folds the events and assembles the message. A stream that
      throws part-way rejects the call after `onChunk` has already been
      called for the text deltas delivered before it. `chunks` are the
      `onChunk` calls in order. */
  method GenerateStreamResponse(modelId: string, messages: seq<Message>, tools: Option<seq<FlatTool>>,
                                systemPrompt: Option<string>, inference: InferenceConfig,
                                send: ConverseInput -> StreamReply, parse: string -> Option<Json>)
    returns (r: Result<ConverseOutput, BedrockError>, sent: Option<ConverseInput>, chunks: seq<string>)
    ensures |messages| == 0 ==> r == Err(EmptyMessages) && chunks == [] && sent == None
    ensures |messages| > 0 ==> sent == Some(Request(modelId, messages, tools, systemPrompt, inference))
    ensures sent.Some? && send(sent.value) == SendRejected ==> r == Err(SendFailed) && chunks == []
    ensures sent.Some? && send(sent.value) == StreamMissing ==> r == Err(StreamUndefined) && chunks == []
    ensures sent.Some? && send(sent.value).EventStream? ==>
              var acc := Fold(send(sent.value).events);
              chunks == acc.chunks && DescribesStream(r, acc.text, acc.toolUses, acc.stop, parse)
    ensures sent.Some? && send(sent.value).EventStreamFailing? ==>
              r == Err(StreamFailed) && chunks == Fold(send(sent.value).delivered).chunks
  {
    chunks := [];
    if |messages| == 0 {
      return Err(EmptyMessages), None, chunks;
    }
    var input := BuildInputCommand(modelId, messages, tools, systemPrompt, inference);
    sent := Some(input);
    var reply := send(input);
    if reply == SendRejected {
      return Err(SendFailed), sent, chunks;
    }
    if reply == StreamMissing {
      return Err(StreamUndefined), sent, chunks;
    }
    var accumulatedText, toolUses, finalStopReason;
    if reply.EventStreamFailing? {
      accumulatedText, toolUses, finalStopReason, chunks := ConsumeStream(reply.delivered);
      return Err(StreamFailed), sent, chunks;
    }
    accumulatedText, toolUses, finalStopReason, chunks := ConsumeStream(reply.events);
    r := ConstructStreamResponse(accumulatedText, toolUses, finalStopReason, parse);
  }

  // ---------------------------------------------------------------------
  // Model catalog

  datatype ModelSummary = ModelSummary(modelId: string, lifecycleStatus: Option<string>,
                                       responseStreamingSupported: Option<bool>)

  /** What the catalog call yields: a rejected call, or its `modelSummaries` (possibly absent). */
  datatype CatalogReply = CatalogRejected | Catalog(modelSummaries: Option<seq<ModelSummary>>)

  predicate IsActive(m: ModelSummary)
  {
    m.lifecycleStatus == Some("ACTIVE")
  }

  /** The models whose lifecycle status is `ACTIVE`, in catalog order. */
  function FilterActive(models: seq<ModelSummary>): (r: seq<ModelSummary>)
    ensures |r| <= |models|
    ensures forall m :: m in r <==> m in models && IsActive(m)
    ensures |models| == 1 ==> r == (if IsActive(models[0]) then models else [])
  {
    if models == [] then []
    else (if IsActive(models[0]) then [models[0]] else []) + FilterActive(models[1..])
  }

  /** `filter` keeps catalog order and repeats: filtering a concatenation
      concatenates the filterings. */
  lemma {:induction false} FilterActiveAppend(a: seq<ModelSummary>, b: seq<ModelSummary>)
    ensures FilterActive(a + b) == FilterActive(a) + FilterActive(b)
    decreases |a|
  {
    if a == [] {
      assert a + b == b;
    } else {
      assert (a + b)[0] == a[0] && (a + b)[1..] == a[1..] + b;
      FilterActiveAppend(a[1..], b);
    }
  }

  /** `getActiveFoundationModels`: `[]` when the summaries are absent. */
  function GetActiveFoundationModels(reply: CatalogReply): (r: Result<seq<ModelSummary>, BedrockError>)
    ensures reply == CatalogRejected <==> r.Err?
    ensures reply == Catalog(None) ==> r == Ok([])
    ensures reply.Catalog? && reply.modelSummaries.Some? ==>
              r.Ok? && forall m :: m in r.value <==> m in reply.modelSummaries.value && IsActive(m)
    ensures reply.Catalog? && reply.modelSummaries.Some? ==> r == Ok(FilterActive(reply.modelSummaries.value))
  {
    match reply
    case CatalogRejected => Err(CatalogFailed)
    case Catalog(None) => Ok([])
    case Catalog(Some(models)) => Ok(FilterActive(models))
  }

  /** `Array.prototype.find` on the model id: the first match. */
  function FindModel(models: seq<ModelSummary>, modelId: string): (r: Option<nat>)
    ensures r.Some? ==> r.value < |models| && models[r.value].modelId == modelId &&
                        forall j :: 0 <= j < r.value ==> models[j].modelId != modelId
    ensures r.None? ==> forall j :: 0 <= j < |models| ==> models[j].modelId != modelId
  {
    if models == [] then None
    else if models[0].modelId == modelId then Some(0)
    else match FindModel(models[1..], modelId)
         case None => None
         case Some(k) => Some(k + 1)
  }

  /** `isResponseStreamingSupported`: the streaming flag of the first active
      model with that id, `false` when the flag is absent; an error when no
      active model has that id or the catalog call fails. */
  function IsResponseStreamingSupported(modelId: string, reply: CatalogReply): (r: Result<bool, BedrockError>)
    ensures reply == CatalogRejected ==> r == Err(CatalogFailed)
    ensures reply.Catalog? ==>
              (r.Ok? <==> exists m :: m in ActiveOf(reply) && m.modelId == modelId)
    ensures reply.Catalog? && r.Err? ==> r.error == UnrecognizedModel(modelId)
  {
    match GetActiveFoundationModels(reply)
    case Err(e) => Err(e)
    case Ok(models) =>
      match FindModel(models, modelId)
      case None => Err(UnrecognizedModel(modelId))
      case Some(k) =>
        Ok(match models[k].responseStreamingSupported case Some(b) => b case None => false)
  }

  /** The active models of a successful catalog reply. */
  function ActiveOf(reply: CatalogReply): seq<ModelSummary>
  {
    match reply
    case CatalogRejected => []
    case Catalog(None) => []
    case Catalog(Some(models)) => FilterActive(models)
  }

  /** The first match among the active models is the first active model listed with the id. */
  lemma {:induction false} FindFirstActive(models: seq<ModelSummary>, modelId: string, k: nat)
    requires k < |models| && IsActive(models[k]) && models[k].modelId == modelId
    requires forall j :: 0 <= j < k && IsActive(models[j]) ==> models[j].modelId != modelId
    ensures FindModel(FilterActive(models), modelId).Some?
    ensures FilterActive(models)[FindModel(FilterActive(models), modelId).value] == models[k]
    decreases k
  {
    var rest := FilterActive(models[1..]);
    if k == 0 {
      assert FilterActive(models) == [models[0]] + rest;
    } else {
      FindFirstActive(models[1..], modelId, k - 1);
      if IsActive(models[0]) {
        assert FilterActive(models) == [models[0]] + rest;
        assert FilterActive(models)[1..] == rest;
      } else {
        assert FilterActive(models) == rest;
      }
    }
  }

  /** The flag comes from the first active model listed with the id; an absent flag reads `false`. */
  lemma StreamingFlagOfFirstMatch(models: seq<ModelSummary>, modelId: string, k: nat)
    requires k < |models| && IsActive(models[k]) && models[k].modelId == modelId
    requires forall j :: 0 <= j < k && IsActive(models[j]) ==> models[j].modelId != modelId
    ensures IsResponseStreamingSupported(modelId, Catalog(Some(models))) ==
              Ok(match models[k].responseStreamingSupported case Some(b) => b case None => false)
  {
    FindFirstActive(models, modelId, k);
  }
}
