/**
 * The browser chat playground (`ChatPlayground`): the transcript it keeps
 * and sends back as history, the streaming bubble it fills from the
 * server-sent events of `/chat`, and the splitter that cuts the response
 * stream into `data: <json>` frames. The page's DOM, `fetch`, the stream
 * reader and `JSON.parse` are outside; the response enters as the list of
 * decoded chunks it delivers and `JSON.parse` as a function `parse`.
 */
module Playground {
  import opened Common

  /** A parsed event, by its `type`; `TextEvent("")` also stands for a text
      event whose `message` is missing or falsy, since the code reads
      `message || ''`. Objects of any other type are `OtherEvent`. */
  datatype PlayEvent =
    | Thinking
    | TextEvent(message: string)
    | Stop
    | ErrorEvent(message: string)
    | OtherEvent

  // ---------------------------------------------------------------------
  // Merging a text event into the streaming content

  /** The content after a text event `newText` arrives while the bubble
      shows `current`: a longer text that extends the current one replaces
      it, an exact repetition is dropped, anything else is appended. */
  function MergeText(current: string, newText: string): string
  {
    if |newText| > |current| then
      if current != "" && current <= newText then newText else current + newText
    else if |newText| == |current| && newText == current then current
    else current + newText
  }

  /** Merging never loses text already shown, always ends with the newest
      text, and leaves the content as it was exactly when the newest text
      is empty or a repetition of it. */
  lemma MergeTextShape(current: string, newText: string)
    ensures current <= MergeText(current, newText)
    ensures var r := MergeText(current, newText);
            |newText| <= |r| && r[|r| - |newText|..] == newText
    ensures MergeText(current, newText) == current <==> newText == "" || newText == current
  {
    var r := MergeText(current, newText);
    if r == current + newText {
      assert r[|r| - |newText|..] == newText;
      if r == current {
        assert |newText| == 0;
      }
    }
  }

  /** The content after a series of text events. */
  function MergeAll(current: string, texts: seq<string>): string
  {
    if texts == [] then current
    else MergeText(MergeAll(current, texts[..|texts| - 1]), texts[|texts| - 1])
  }

  /** Text events that each repeat the whole text so far and add to it
      (cumulative snapshots) leave exactly the last snapshot. */
  lemma {:induction false} CumulativeSnapshots(current: string, texts: seq<string>)
    requires |texts| > 0
    requires current < texts[0]
    requires forall i :: 0 < i < |texts| ==> texts[i - 1] < texts[i]
    ensures MergeAll(current, texts) == texts[|texts| - 1]
    decreases |texts|
  {
    var n := |texts|;
    var pre := texts[..n - 1];
    if n > 1 {
      CumulativeSnapshots(current, pre);
      assert MergeAll(current, pre) == texts[n - 2];
    }
  }

  /** Text events that are plain pieces (deltas) are concatenated, as long as
      no piece repeats or extends the whole text so far. */
  lemma {:induction false} DeltaPieces(current: string, texts: seq<string>)
    requires forall i :: 0 <= i < |texts| ==> !(current + Concat(texts[..i]) <= texts[i])
    ensures MergeAll(current, texts) == current + Concat(texts)
    decreases |texts|
  {
    var n := |texts|;
    if n == 0 {
      assert current + Concat(texts) == current;
    } else {
      var pre, last := texts[..n - 1], texts[n - 1];
      DeltaPrefix(current, texts);
      DeltaPieces(current, pre);
      MergeAppends(current + Concat(pre), last);
      AppendAssoc(current, Concat(pre), last);
    }
  }

  lemma DeltaPrefix(current: string, texts: seq<string>)
    requires |texts| > 0
    requires forall i :: 0 <= i < |texts| ==> !(current + Concat(texts[..i]) <= texts[i])
    ensures var pre := texts[..|texts| - 1];
            (forall i :: 0 <= i < |pre| ==> !(current + Concat(pre[..i]) <= pre[i])) &&
            !(current + Concat(pre) <= texts[|texts| - 1])
  {
    var pre := texts[..|texts| - 1];
    forall i | 0 <= i < |pre| ensures !(current + Concat(pre[..i]) <= pre[i]) {
      assert pre[..i] == texts[..i];
      assert pre[i] == texts[i];
    }
    assert texts[..|texts| - 1] == pre;
  }

  lemma MergeAppends(soFar: string, newText: string)
    requires !(soFar <= newText)
    ensures MergeText(soFar, newText) == soFar + newText
  {
  }

  /** Two consequences of the rule for streams of pieces: a piece equal to
      the whole text so far is dropped, and a piece that happens to extend it
      replaces it. */
  lemma PiecesCanBeLost()
    ensures MergeAll("", ["ha", "ha"]) == "ha"
    ensures MergeAll("", ["a", "ab"]) == "ab"
  {
    assert ["ha", "ha"][..1] == ["ha"];
    assert ["a", "ab"][..1] == ["a"];
    assert "a" <= "ab";
  }

  // ---------------------------------------------------------------------
  // Events and the transcript

  /** What the events act on: the transcript (`chatHistory`), whether a
      streaming bubble is open (`currentAssistantBubble`), and the content
      streamed into it (`assistantContent`). */
  datatype ChatView = ChatView(history: seq<Message>, bubbleOpen: bool, content: string)

  /** The transcript after finalising a bubble: its content is added as an
      assistant message unless it is blank. */
  function WithReply(history: seq<Message>, content: string): seq<Message>
  {
    if IsBlank(content) then history else history + [TextMessage(Assistant, content)]
  }

  /** `handleStreamEvent` on the state it changes. */
  function ApplyEvent(v: ChatView, ev: PlayEvent, isFirstText: bool): ChatView
  {
    match ev
    case Thinking =>
      if v.bubbleOpen then ChatView(WithReply(v.history, v.content), false, "") else v
    case TextEvent(newText) =>
      ChatView(v.history, true, MergeText(if isFirstText then "" else v.content, newText))
    case Stop =>
      ChatView(WithReply(v.history, v.content), false, v.content)
    case ErrorEvent(_) => v
    case OtherEvent => v
  }

  /** An assistant reply the playground records: one non-blank text block. */
  predicate IsReply(m: Message)
  {
    m.role == Assistant && |m.content| == 1 && m.content[0].Text? && !IsBlank(m.content[0].text)
  }

  /** `after` keeps `before` and adds only assistant replies. */
  predicate Extends(before: seq<Message>, after: seq<Message>)
  {
    before <= after && forall k :: |before| <= k < |after| ==> IsReply(after[k])
  }

  lemma ExtendsTrans(a: seq<Message>, b: seq<Message>, c: seq<Message>)
    requires Extends(a, b) && Extends(b, c)
    ensures Extends(a, c)
  {
    forall k | |a| <= k < |c| ensures IsReply(c[k]) {
      if k < |b| {
        assert c[k] == b[k];
      }
    }
  }

  /** Every event keeps the transcript and adds at most one assistant
      reply, which holds exactly the content that was streamed. */
  lemma ApplyEventExtends(v: ChatView, ev: PlayEvent, isFirstText: bool)
    ensures Extends(v.history, ApplyEvent(v, ev, isFirstText).history)
    ensures |ApplyEvent(v, ev, isFirstText).history| <= |v.history| + 1
    ensures |ApplyEvent(v, ev, isFirstText).history| == |v.history| + 1 ==>
              ApplyEvent(v, ev, isFirstText).history[|v.history|] == TextMessage(Assistant, v.content)
  {
  }

  /** A text event always leaves a bubble open; `stop` and a `thinking`
      event always leave it closed. */
  lemma ApplyEventBubble(v: ChatView, ev: PlayEvent, isFirstText: bool)
    ensures ev.TextEvent? ==> ApplyEvent(v, ev, isFirstText).bubbleOpen
    ensures ev.Stop? || ev.Thinking? ==> !ApplyEvent(v, ev, isFirstText).bubbleOpen
    ensures ev.TextEvent? && !isFirstText ==> v.content <= ApplyEvent(v, ev, isFirstText).content
  {
    if ev.TextEvent? {
      MergeTextShape(if isFirstText then "" else v.content, ev.message);
    }
  }

  // ---------------------------------------------------------------------
  // Cutting the stream into frames

  /** The separator of server-sent events. */
  const RealDelimiter: string := "\n\n"

  /** The same separator written with escaped newlines (backslash, `n`,
      backslash, `n`), used when a buffer holds only that form. */
  const EscapedDelimiter: string := "\\n\\n"

  const DataPrefix: string := "data: "

  /** The separator chosen for a buffer. */
  function Delimiter(buffer: string): (d: string)
    ensures d == RealDelimiter || d == EscapedDelimiter
  {
    if !Contains(buffer, RealDelimiter) && Contains(buffer, EscapedDelimiter)
    then EscapedDelimiter else RealDelimiter
  }

  /** Whenever a buffer holds either separator, it holds the chosen one. */
  lemma DelimiterFound(buffer: string)
    requires Contains(buffer, RealDelimiter) || Contains(buffer, EscapedDelimiter)
    ensures Contains(buffer, Delimiter(buffer))
  {
  }

  /** The complete frames of a buffer: all parts but the last. */
  function Frames(buffer: string): seq<string>
  {
    var parts := Split(buffer, Delimiter(buffer));
    parts[..|parts| - 1]
  }

  /** What stays in the buffer: the last, possibly incomplete part. */
  function Remainder(buffer: string): string
  {
    var parts := Split(buffer, Delimiter(buffer));
    parts[|parts| - 1]
  }

  /** The frames and the remainder are the buffer cut at the chosen
      separator: joined they give it back, and neither the remainder nor
      any frame holds that separator. */
  lemma FramesRemainder(buffer: string)
    ensures Join(Frames(buffer) + [Remainder(buffer)], Delimiter(buffer)) == buffer
    ensures !Contains(Remainder(buffer), Delimiter(buffer))
    ensures forall k :: 0 <= k < |Frames(buffer)| ==> !Contains(Frames(buffer)[k], Delimiter(buffer))
  {
    var d := Delimiter(buffer);
    var parts := Split(buffer, d);
    SplitJoin(buffer, d);
    InitLast(parts);
  }

  lemma InitLast<T>(p: seq<T>)
    requires |p| > 0
    ensures p[..|p| - 1] + [p[|p| - 1]] == p
    ensures forall k :: 0 <= k < |p| - 1 ==> p[..|p| - 1][k] == p[k]
  {
  }

  /** The JSON text of a frame: a non-blank frame that starts with `data: `
      carries what follows the prefix; any other frame carries nothing. */
  function FramePayload(line: string): Option<string>
  {
    if IsBlank(line) then None
    else if DataPrefix <= line then Some(line[|DataPrefix|..])
    else None
  }

  /** Every frame written as `data: <text>` yields exactly `<text>`. */
  lemma DataFramePayload(payload: string)
    ensures FramePayload(DataPrefix + payload) == Some(payload)
  {
    var line := DataPrefix + payload;
    BlankIffAllWhitespace(line);
    assert line[0] == 'd' && !IsWhitespace(line[0]);
    assert DataPrefix <= line;
  }

  /** The state the frame loop carries besides the view: `isFirstText`, and
      whether handling a frame has thrown, which ends both loops. */
  datatype Reader = Reader(isFirstText: bool, aborted: bool, view: ChatView)

  /** One frame of the inner loop. `parse` is `JSON.parse` followed by the
      read of `type`; it is `None` when either throws (a `null` payload
      included). The handler of that error names a constant declared
      inside the `try`, so the handler itself throws: the frame loop, the
      read loop and `startStreaming` end there. */
  function HandleFrame(rd: Reader, line: string, parse: string -> Option<PlayEvent>): Reader
  {
    if rd.aborted then rd
    else
      match FramePayload(line)
      case None => rd
      case Some(json) =>
        match parse(json)
        case None => rd.(aborted := true)
        case Some(ev) => Reader(rd.isFirstText && !ev.TextEvent?, false, ApplyEvent(rd.view, ev, rd.isFirstText))
  }

  function HandleFrames(rd: Reader, lines: seq<string>, parse: string -> Option<PlayEvent>): Reader
  {
    if lines == [] then rd
    else HandleFrame(HandleFrames(rd, lines[..|lines| - 1], parse), lines[|lines| - 1], parse)
  }

  lemma {:induction false} HandleFramesAppend(rd: Reader, a: seq<string>, b: seq<string>,
                                              parse: string -> Option<PlayEvent>)
    ensures HandleFrames(rd, a + b, parse) == HandleFrames(HandleFrames(rd, a, parse), b, parse)
    decreases |b|
  {
    if b == [] {
      assert a + b == a;
    } else {
      var b' := b[..|b| - 1];
      assert (a + b)[..|a + b| - 1] == a + b';
      HandleFramesAppend(rd, a, b', parse);
    }
  }

  /** Once a frame has thrown, no later frame changes anything. */
  lemma {:induction false} HandleFramesAborted(rd: Reader, lines: seq<string>, parse: string -> Option<PlayEvent>)
    requires rd.aborted
    ensures HandleFrames(rd, lines, parse) == rd
    decreases |lines|
  {
    if lines != [] {
      HandleFramesAborted(rd, lines[..|lines| - 1], parse);
    }
  }

  /** The frames after the one that threw are not handled: the result is
      the state reached at that frame. */
  lemma HandleFramesStop(rd: Reader, lines: seq<string>, j: nat, parse: string -> Option<PlayEvent>)
    requires j <= |lines| && HandleFrames(rd, lines[..j], parse).aborted
    ensures HandleFrames(rd, lines, parse) == HandleFrames(rd, lines[..j], parse)
  {
    assert lines == lines[..j] + lines[j..];
    HandleFramesAppend(rd, lines[..j], lines[j..], parse);
    HandleFramesAborted(HandleFrames(rd, lines[..j], parse), lines[j..], parse);
  }

  /** The buffer and the frame-loop state between two reads. */
  datatype StreamState = StreamState(buffer: string, reader: Reader)

  /** One read of the outer loop: append the chunk, cut the buffer, handle
      its complete frames in order and keep the remainder. After a frame
      has thrown nothing more is read. */
  function Feed(st: StreamState, chunk: string, parse: string -> Option<PlayEvent>): StreamState
  {
    if st.reader.aborted then st
    else
      var buffer := st.buffer + chunk;
      StreamState(Remainder(buffer), HandleFrames(st.reader, Frames(buffer), parse))
  }

  function FeedAll(st: StreamState, chunks: seq<string>, parse: string -> Option<PlayEvent>): StreamState
  {
    if chunks == [] then st
    else Feed(FeedAll(st, chunks[..|chunks| - 1], parse), chunks[|chunks| - 1], parse)
  }

  lemma FeedAllSnoc(st: StreamState, chunks: seq<string>, k: nat, parse: string -> Option<PlayEvent>)
    requires k < |chunks|
    ensures FeedAll(st, chunks[..k + 1], parse) == Feed(FeedAll(st, chunks[..k], parse), chunks[k], parse)
  {
    assert chunks[..k + 1][..k] == chunks[..k];
  }

  /** Once a frame has thrown, no later chunk is read. */
  lemma {:induction false} FeedAllAborted(st: StreamState, chunks: seq<string>, parse: string -> Option<PlayEvent>)
    requires st.reader.aborted
    ensures FeedAll(st, chunks, parse) == st
    decreases |chunks|
  {
    if chunks != [] {
      FeedAllAborted(st, chunks[..|chunks| - 1], parse);
    }
  }

  lemma {:induction false} FeedAllAppend(st: StreamState, a: seq<string>, b: seq<string>,
                                         parse: string -> Option<PlayEvent>)
    ensures FeedAll(st, a + b, parse) == FeedAll(FeedAll(st, a, parse), b, parse)
    decreases |b|
  {
    if b == [] {
      assert a + b == a;
    } else {
      var b' := b[..|b| - 1];
      assert (a + b)[..|a + b| - 1] == a + b';
      FeedAllAppend(st, a, b', parse);
    }
  }

  /** The chunks after the read in which a frame threw are not read: the
      result is the state reached at that read. */
  lemma FeedAllStop(st: StreamState, chunks: seq<string>, k: nat, parse: string -> Option<PlayEvent>)
    requires k <= |chunks| && FeedAll(st, chunks[..k], parse).reader.aborted
    ensures FeedAll(st, chunks, parse) == FeedAll(st, chunks[..k], parse)
  {
    assert chunks == chunks[..k] + chunks[k..];
    FeedAllAppend(st, chunks[..k], chunks[k..], parse);
    FeedAllAborted(FeedAll(st, chunks[..k], parse), chunks[k..], parse);
  }

  /** The state at the start of `startStreaming`. */
  function StreamStart(v: ChatView): StreamState
  {
    StreamState("", Reader(true, false, v))
  }

  /** `startStreaming` throws: the request fails, or handling a frame throws. */
  predicate StreamThrows(v: ChatView, response: Option<seq<string>>, parse: string -> Option<PlayEvent>)
  {
    response.None? || FeedAll(StreamStart(v), response.value, parse).reader.aborted
  }

  /** The view after `startStreaming` with a given response. */
  function Streamed(v: ChatView, response: Option<seq<string>>, parse: string -> Option<PlayEvent>): ChatView
  {
    match response
    case None => v
    case Some(chunks) => FeedAll(StreamStart(v), chunks, parse).reader.view
  }

  /** The stream only ever adds assistant replies to the transcript. */
  lemma {:induction false} HandleFramesExtends(rd: Reader, lines: seq<string>, parse: string -> Option<PlayEvent>)
    ensures Extends(rd.view.history, HandleFrames(rd, lines, parse).view.history)
    ensures HandleFrames(rd, lines, parse).isFirstText ==> rd.isFirstText
    decreases |lines|
  {
    if lines != [] {
      var mid := HandleFrames(rd, lines[..|lines| - 1], parse);
      HandleFramesExtends(rd, lines[..|lines| - 1], parse);
      var line := lines[|lines| - 1];
      if !mid.aborted && FramePayload(line).Some? && parse(FramePayload(line).value).Some? {
        var ev := parse(FramePayload(line).value).value;
        ApplyEventExtends(mid.view, ev, mid.isFirstText);
        ExtendsTrans(rd.view.history, mid.view.history, HandleFrames(rd, lines, parse).view.history);
      }
    }
  }

  /** Reading the whole response keeps the transcript, adds only assistant
      replies, and once a text event has been seen `isFirstText` stays false. */
  lemma {:induction false} FeedAllExtends(st: StreamState, chunks: seq<string>, parse: string -> Option<PlayEvent>)
    ensures Extends(st.reader.view.history, FeedAll(st, chunks, parse).reader.view.history)
    ensures FeedAll(st, chunks, parse).reader.isFirstText ==> st.reader.isFirstText
    decreases |chunks|
  {
    if chunks != [] {
      var mid := FeedAll(st, chunks[..|chunks| - 1], parse);
      FeedAllExtends(st, chunks[..|chunks| - 1], parse);
      HandleFramesExtends(mid.reader, Frames(mid.buffer + chunks[|chunks| - 1]), parse);
      ExtendsTrans(st.reader.view.history, mid.reader.view.history, FeedAll(st, chunks, parse).reader.view.history);
    }
  }

  lemma StreamedExtends(v: ChatView, response: Option<seq<string>>, parse: string -> Option<PlayEvent>)
    ensures Extends(v.history, Streamed(v, response, parse).history)
  {
    if response.Some? {
      FeedAllExtends(StreamStart(v), response.value, parse);
    }
  }

  // ---------------------------------------------------------------------
  // Independence from how the stream is cut into chunks

  predicate NoBackslash(s: string)
  {
    '\\' !in s
  }

  /** Without backslashes the escaped separator cannot occur, so the real
      separator is chosen. */
  lemma RealChosen(s: string)
    requires NoBackslash(s)
    ensures !Contains(s, EscapedDelimiter) && Delimiter(s) == RealDelimiter
  {
    forall j | 0 <= j && j + 4 <= |s| ensures !OccursAt(s, EscapedDelimiter, j) {
      assert s[j] in s;
      assert s[j..j + 4][0] == s[j];
    }
  }

  /** The last part and all other parts of the split of `s` at the real separator. */
  function Tail(s: string): string
  {
    var p := Split(s, RealDelimiter);
    p[|p| - 1]
  }

  function Heads(s: string): seq<string>
  {
    var p := Split(s, RealDelimiter);
    p[..|p| - 1]
  }

  lemma HeadsTailAppend(x: string, c: string)
    ensures Heads(x + c) == Heads(x) + Heads(Tail(x) + c)
    ensures Tail(x + c) == Tail(Tail(x) + c)
  {
    SplitAppend(x, c, RealDelimiter);
    var p := Split(x, RealDelimiter);
    InitAppend(Split(x + c, RealDelimiter), p[..|p| - 1], Split(Tail(x) + c, RealDelimiter));
  }

  lemma InitAppend<T>(s: seq<T>, a: seq<T>, q: seq<T>)
    requires |q| > 0 && s == a + q
    ensures s[..|s| - 1] == a + q[..|q| - 1] && s[|s| - 1] == q[|q| - 1]
  {
    assert s[..|s| - 1] == a + q[..|q| - 1];
  }

  /** For a stream that never holds the escaped separator, however it is
      cut into chunks, the frames handled are the frames of the whole stream,
      in order (up to the one that throws), and unless a frame threw the
      buffer keeps the stream's unterminated end. Every buffer is a piece
      of the stream, so the real separator is always the one chosen. */
  lemma {:induction false} ChunkingInvariant(buffer: string, rd: Reader, chunks: seq<string>,
                                             parse: string -> Option<PlayEvent>)
    requires !Contains(buffer, RealDelimiter)
    requires !Contains(buffer + Concat(chunks), EscapedDelimiter)
    ensures var whole := buffer + Concat(chunks);
            var st := FeedAll(StreamState(buffer, rd), chunks, parse);
            st.reader == HandleFrames(rd, Heads(whole), parse) &&
            (!st.reader.aborted ==> st.buffer == Tail(whole))
    decreases |chunks|
  {
    if chunks == [] {
      assert buffer + Concat(chunks) == buffer;
      TailWithoutSeparator(buffer);
    } else {
      var pre := chunks[..|chunks| - 1];
      var c := chunks[|chunks| - 1];
      var x := buffer + Concat(pre);
      AppendAssoc(buffer, Concat(pre), c);
      assert buffer + Concat(chunks) == x + c;
      NotInPrefix(x, c, EscapedDelimiter);
      ChunkingInvariant(buffer, rd, pre, parse);
      var mid := FeedAll(StreamState(buffer, rd), pre, parse);
      assert mid.reader == HandleFrames(rd, Heads(x), parse);
      HeadsTailAppend(x, c);
      HandleFramesAppend(rd, Heads(x), Heads(Tail(x) + c), parse);
      if mid.reader.aborted {
        HandleFramesAborted(mid.reader, Heads(Tail(x) + c), parse);
      } else {
        TailThenChunk(x, c);
      }
    }
  }

  /** What does not occur in a string does not occur in its prefix. */
  lemma NotInPrefix(x: string, c: string, d: string)
    requires !Contains(x + c, d)
    ensures !Contains(x, d)
  {
    if Contains(x, d) {
      InfixOccurs("", x, c);
      assert "" + x + c == x + c;
      ContainsWithin(x + c, x, d);
    }
  }

  /** The kept remainder followed by the next chunk is a suffix of the
      stream so far, so it lacks the escaped separator when the stream does. */
  lemma TailThenChunk(x: string, c: string)
    requires !Contains(x + c, EscapedDelimiter)
    ensures !Contains(Tail(x) + c, EscapedDelimiter)
  {
    var t := Tail(x);
    SplitLastSuffix(x, RealDelimiter);
    var h := x[..|x| - |t|];
    assert x == h + t;
    assert h + (t + c) + "" == x + c;
    if Contains(t + c, EscapedDelimiter) {
      InfixOccurs(h, t + c, "");
      ContainsWithin(x + c, t + c, EscapedDelimiter);
    }
  }

  /** A buffer without a separator is all tail. */
  lemma TailWithoutSeparator(buffer: string)
    requires !Contains(buffer, RealDelimiter)
    ensures Tail(buffer) == buffer && Heads(buffer) == []
  {
    assert Split(buffer, RealDelimiter) == [buffer];
  }

  /** With backslashes the chunking matters: a frame whose payload holds an
      escaped newline pair is handled whole when it arrives in one chunk
      with its separator, but is cut at the escaped pair when the chunk ends
      before the separator; the first piece, `data: x`, is not valid JSON,
      so handling it throws and the stream ends without the event (and
      without reading the second chunk). */
  lemma EscapedPairDependsOnChunking(rd: Reader, parse: string -> Option<PlayEvent>, t: string)
    requires !rd.aborted
    requires parse("x\\n\\ny") == Some(TextEvent(t))
    requires parse("x") == None
    ensures FeedAll(StreamState("", rd), ["data: x\\n\\ny\n\n"], parse) ==
            StreamState("", Reader(false, false, ApplyEvent(rd.view, TextEvent(t), rd.isFirstText)))
    ensures FeedAll(StreamState("", rd), ["data: x\\n\\ny", "\n\n"], parse) ==
            StreamState("y", rd.(aborted := true))
  {
    OneChunkFeed(rd, parse, t);
    TwoChunksFeed(rd, parse);
  }

  lemma OneChunkFeed(rd: Reader, parse: string -> Option<PlayEvent>, t: string)
    requires !rd.aborted
    requires parse("x\\n\\ny") == Some(TextEvent(t))
    ensures FeedAll(StreamState("", rd), ["data: x\\n\\ny\n\n"], parse) ==
            StreamState("", Reader(false, false, ApplyEvent(rd.view, TextEvent(t), rd.isFirstText)))
  {
    var c1: string := "data: x\\n\\ny";
    OneChunk(c1);
    assert "data: x\\n\\ny\n\n" == c1 + "\n\n";
    FeedSingleFrame(rd, c1 + "\n\n", "x\\n\\ny", parse);
  }

  lemma TwoChunksFeed(rd: Reader, parse: string -> Option<PlayEvent>)
    requires !rd.aborted
    requires parse("x") == None
    ensures FeedAll(StreamState("", rd), ["data: x\\n\\ny", "\n\n"], parse) ==
            StreamState("y", rd.(aborted := true))
  {
    var c1: string := "data: x\\n\\ny";
    FirstOfTwoChunks(c1);
    DataFramePayload("x");
    FeedFirstFrameThrows(rd, c1, "\n\n", "data: x", "y", parse);
  }

  /** Feeding one chunk that holds exactly one complete frame. */
  lemma FeedSingleFrame(rd: Reader, chunk: string, payload: string, parse: string -> Option<PlayEvent>)
    requires !rd.aborted
    requires Frames(chunk) == [DataPrefix + payload] && Remainder(chunk) == ""
    ensures parse(payload).Some? ==>
              FeedAll(StreamState("", rd), [chunk], parse) ==
              StreamState("", Reader(rd.isFirstText && !parse(payload).value.TextEvent?, false,
                                     ApplyEvent(rd.view, parse(payload).value, rd.isFirstText)))
  {
    var st0 := StreamState("", rd);
    var f := DataPrefix + payload;
    assert "" + chunk == chunk;
    OneFrameHandled(rd, f, parse);
    assert Feed(st0, chunk, parse) == StreamState("", HandleFrame(rd, f, parse));
    assert FeedAll(st0, [chunk], parse) == Feed(st0, chunk, parse) by {
      assert [chunk][..0] == [];
    }
    DataFramePayload(payload);
  }

  lemma OneFrameHandled(rd: Reader, f: string, parse: string -> Option<PlayEvent>)
    ensures HandleFrames(rd, [f], parse) == HandleFrame(rd, f, parse)
  {
    assert [f][..0] == [];
  }

  /** Feeding two chunks when the one frame of the first throws: the
      second chunk is never read. */
  lemma FeedFirstFrameThrows(rd: Reader, c1: string, c2: string, f1: string, r1: string,
                             parse: string -> Option<PlayEvent>)
    requires !rd.aborted
    requires Frames(c1) == [f1] && Remainder(c1) == r1
    requires HandleFrame(rd, f1, parse) == rd.(aborted := true)
    ensures FeedAll(StreamState("", rd), [c1, c2], parse) == StreamState(r1, rd.(aborted := true))
  {
    var st0 := StreamState("", rd);
    var st1 := StreamState(r1, rd.(aborted := true));
    OneFrameHandled(rd, f1, parse);
    assert "" + c1 == c1;
    assert Feed(st0, c1, parse) == st1;
    assert [c1, c2][..1] == [c1];
    assert FeedAll(st0, [c1], parse) == st1 by {
      assert [c1][..0] == [];
    }
  }

  lemma OneChunk(c1: string)
    requires c1 == "data: x\\n\\ny"
    ensures c1 == DataPrefix + "x\\n\\ny"
    ensures Frames(c1 + "\n\n") == [c1] && Remainder(c1 + "\n\n") == ""
  {
    var whole := c1 + "\n\n";
    assert whole[..|c1|] == c1 && whole[|c1| + 2..] == "";
    assert '\n' !in c1;
    FirstOccurrence(whole, RealDelimiter, |c1|);
    assert IndexOf("", RealDelimiter) == None;
    SplitAt(whole, RealDelimiter, |c1|);
  }

  lemma FirstOfTwoChunks(c1: string)
    requires c1 == "data: x\\n\\ny"
    ensures Delimiter(c1) == EscapedDelimiter
    ensures Frames(c1) == ["data: x"] && Remainder(c1) == "y"
    ensures "data: x" == DataPrefix + "x"
  {
    assert '\n' !in c1;
    MissingFirstChar(c1, RealDelimiter);
    assert c1[..7] == "data: x" && c1[7..11] == EscapedDelimiter && c1[11..] == "y";
    assert '\\' !in c1[..7];
    FirstOccurrence(c1, EscapedDelimiter, 7);
    assert '\\' !in "y";
    MissingFirstChar("y", EscapedDelimiter);
    SplitAt(c1, EscapedDelimiter, 7);
  }

  // ---------------------------------------------------------------------
  // The page controller

  /** The body of the `/chat` request: the query and the transcript before it. */
  datatype ChatRequest = ChatRequest(query: string, histories: seq<Message>)

  /** JavaScript's `a.slice(0, -1)`: all elements but the last. */
  function DropLast<T>(s: seq<T>): (r: seq<T>)
    ensures |s| > 0 ==> r + [s[|s| - 1]] == s
    ensures |s| == 0 ==> r == []
  {
    if |s| == 0 then [] else s[..|s| - 1]
  }

  lemma DropLastSnoc<T>(s: seq<T>, x: T)
    ensures DropLast(s + [x]) == s
  {
    assert (s + [x])[..|s|] == s;
  }

  class ChatPlayground {
    /** The transcript sent back as history. */
    var chatHistory: seq<Message>
    var isProcessing: bool
    /** Whether `currentAssistantBubble` is set. */
    var bubbleOpen: bool
    var assistantContent: string
    /** The value of the message field. */
    var inputText: string
    /** The `disabled` flags of the message field, the send button, and the
        suggestion and reset buttons. */
    var inputDisabled: bool
    var sendDisabled: bool
    var suggestionsDisabled: bool

    function View(): ChatView
      reads this
    {
      ChatView(chatHistory, bubbleOpen, assistantContent)
    }

    /** The controls other than the view, which streaming leaves alone. */
    function Controls(): (bool, string, bool, bool, bool)
      reads this
    {
      (isProcessing, inputText, inputDisabled, sendDisabled, suggestionsDisabled)
    }

    /** A fresh page: empty transcript, no bubble, every control enabled. */
    constructor ()
      ensures chatHistory == [] && !isProcessing && !bubbleOpen && assistantContent == ""
      ensures inputText == "" && !inputDisabled && !sendDisabled && !suggestionsDisabled
    {
      chatHistory := [];
      isProcessing := false;
      bubbleOpen := false;
      assistantContent := "";
      inputText := "";
      inputDisabled := false;
      sendDisabled := false;
      suggestionsDisabled := false;
    }

    /** The send button is usable exactly when the field holds non-blank
        text and no request is in flight. */
    method UpdateSendButtonState()
      modifies this
      ensures sendDisabled == (IsBlank(inputText) || isProcessing)
      ensures View() == old(View())
      ensures isProcessing == old(isProcessing) && inputText == old(inputText)
      ensures inputDisabled == old(inputDisabled) && suggestionsDisabled == old(suggestionsDisabled)
    {
      var hasText := !IsBlank(inputText);
      var canSend := hasText && !isProcessing;
      sendDisabled := !canSend;
    }

    method DisableAllInputs()
      modifies this
      ensures inputDisabled && sendDisabled && suggestionsDisabled
      ensures View() == old(View())
      ensures isProcessing == old(isProcessing) && inputText == old(inputText)
    {
      inputDisabled := true;
      sendDisabled := true;
      suggestionsDisabled := true;
    }

    method EnableAllInputs()
      modifies this
      ensures !inputDisabled && !suggestionsDisabled
      ensures sendDisabled == (IsBlank(inputText) || isProcessing)
      ensures View() == old(View())
      ensures isProcessing == old(isProcessing) && inputText == old(inputText)
    {
      inputDisabled := false;
      UpdateSendButtonState();
      suggestionsDisabled := false;
    }

    /** `handleStreamEvent`: one parsed event applied to the view. */
    method HandleStreamEvent(ev: PlayEvent, isFirstText: bool)
      modifies this
      ensures View() == ApplyEvent(old(View()), ev, isFirstText)
      ensures Controls() == old(Controls())
    {
      match ev {
        case Thinking =>
          if bubbleOpen {
            bubbleOpen := false;
            if !IsBlank(assistantContent) {
              chatHistory := chatHistory + [TextMessage(Assistant, assistantContent)];
            }
            assistantContent := "";
          }
        case TextEvent(message) =>
          if isFirstText || !bubbleOpen {
            bubbleOpen := true;
            if isFirstText {
              assistantContent := "";
            }
          }
          var newText := message;
          if |newText| > |assistantContent| {
            if assistantContent != "" && assistantContent <= newText {
              assistantContent := newText;
            } else {
              assistantContent := assistantContent + newText;
            }
          } else if |newText| == |assistantContent| && newText == assistantContent {
          } else {
            assistantContent := assistantContent + newText;
          }
        case Stop =>
          bubbleOpen := false;
          if !IsBlank(assistantContent) {
            chatHistory := chatHistory + [TextMessage(Assistant, assistantContent)];
          }
        case ErrorEvent(_) =>
        case OtherEvent =>
      }
    }

    /** `startStreaming`: sends the query with the transcript before it, then
        reads the response chunk by chunk. `response` is `None` when the
        request fails, the status is not OK or there is no body reader; the
        method then throws before reading, which leaves the view as it was.
        It also throws, after the frames before it, at the first frame whose
        handling throws; `threw` says whether it threw. */
    method StartStreaming(message: string, response: Option<seq<string>>,
                          parse: string -> Option<PlayEvent>)
      returns (request: ChatRequest, threw: bool)
      modifies this
      ensures request == ChatRequest(message, DropLast(old(chatHistory)))
      ensures View() == Streamed(old(View()), response, parse)
      ensures threw == StreamThrows(old(View()), response, parse)
      ensures Controls() == old(Controls())
    {
      request := ChatRequest(message, DropLast(chatHistory));
      if response.None? {
        return request, true;
      }
      var chunks := response.value;
      ghost var start := StreamStart(View());
      var isFirstText := true;
      var buffer := "";
      var failed := false;
      var k := 0;
      while k < |chunks| && !failed
        invariant 0 <= k <= |chunks|
        invariant StreamState(buffer, Reader(isFirstText, failed, View())) == FeedAll(start, chunks[..k], parse)
        invariant Controls() == old(Controls())
      {
        buffer, isFirstText, failed := ReadChunk(buffer, isFirstText, chunks[k], parse);
        FeedAllSnoc(start, chunks, k, parse);
        k := k + 1;
      }
      if failed {
        FeedAllStop(start, chunks, k, parse);
      } else {
        assert chunks[..k] == chunks;
      }
      threw := failed;
    }

    /** One pass of the outer loop of `startStreaming`: the chunk is
        appended to the buffer, the buffer is cut at the chosen separator,
        the complete frames are handled and the rest is kept; `failed` says
        whether a frame threw. */
    method ReadChunk(buffer: string, isFirstText: bool, chunk: string, parse: string -> Option<PlayEvent>)
      returns (rest: string, isFirst: bool, failed: bool)
      modifies this
      ensures StreamState(rest, Reader(isFirst, failed, View())) ==
              Feed(StreamState(buffer, Reader(isFirstText, false, old(View()))), chunk, parse)
      ensures Controls() == old(Controls())
    {
      var joined := buffer + chunk;
      var delimiter := RealDelimiter;
      if !Contains(joined, delimiter) && Contains(joined, EscapedDelimiter) {
        delimiter := EscapedDelimiter;
      }
      assert delimiter == Delimiter(joined);
      var lines := Split(joined, delimiter);
      rest := lines[|lines| - 1];
      lines := lines[..|lines| - 1];
      assert rest == Remainder(joined) && lines == Frames(joined);
      isFirst, failed := HandleLines(lines, isFirstText, parse);
    }

    /** The inner loop of `startStreaming`: the complete frames of one read,
        in order, up to the first whose handling throws; it returns the new
        `isFirstText` and whether a frame threw. */
    method HandleLines(lines: seq<string>, isFirstText: bool, parse: string -> Option<PlayEvent>)
      returns (isFirst: bool, failed: bool)
      modifies this
      ensures Reader(isFirst, failed, View()) == HandleFrames(Reader(isFirstText, false, old(View())), lines, parse)
      ensures Controls() == old(Controls())
    {
      ghost var rd0 := Reader(isFirstText, false, View());
      isFirst := isFirstText;
      failed := false;
      var j := 0;
      while j < |lines| && !failed
        invariant 0 <= j <= |lines|
        invariant Reader(isFirst, failed, View()) == HandleFrames(rd0, lines[..j], parse)
        invariant Controls() == old(Controls())
      {
        var line := lines[j];
        ghost var prev := Reader(isFirst, failed, View());
        if !IsBlank(line) {
          if DataPrefix <= line {
            var jsonStr := line[6..];
            var eventData := parse(jsonStr);
            if eventData.Some? {
              HandleStreamEvent(eventData.value, isFirst);
              if eventData.value.TextEvent? && isFirst {
                isFirst := false;
              }
            } else {
              failed := true;
            }
          }
        }
        assert Reader(isFirst, failed, View()) == HandleFrame(prev, line, parse);
        assert lines[..j + 1][..j] == lines[..j];
        j := j + 1;
      }
      if failed {
        HandleFramesStop(rd0, lines, j, parse);
      } else {
        assert lines[..j] == lines;
      }
    }

    /** `sendMessage`: a blank field or a request in flight does nothing.
        Otherwise the trimmed text joins the transcript as a user message,
        the field is cleared, the query is streamed with the transcript
        before it, and the page returns to idle with no bubble. When
        streaming throws, the transcript keeps what was streamed before the
        failure and a connection error is shown (`errorShown`), on the page
        only. */
    method SendMessage(response: Option<seq<string>>, parse: string -> Option<PlayEvent>)
      returns (request: Option<ChatRequest>, errorShown: bool)
      modifies this
      ensures IsBlank(old(inputText)) || old(isProcessing) ==>
                request.None? && !errorShown && View() == old(View()) && Controls() == old(Controls())
      ensures !IsBlank(old(inputText)) && !old(isProcessing) ==>
                var message := Trim(old(inputText));
                var sent := old(chatHistory) + [TextMessage(User, message)];
                && request == Some(ChatRequest(message, old(chatHistory)))
                && errorShown == StreamThrows(ChatView(sent, old(bubbleOpen), old(assistantContent)), response, parse)
                && chatHistory == Streamed(ChatView(sent, old(bubbleOpen), old(assistantContent)), response, parse).history
                && Extends(sent, chatHistory)
                && !isProcessing && !bubbleOpen && assistantContent == ""
                && inputText == "" && !inputDisabled && !suggestionsDisabled && sendDisabled
    {
      var message := Trim(inputText);
      if message == "" || isProcessing {
        return None, false;
      }
      isProcessing := true;
      DisableAllInputs();
      chatHistory := chatHistory + [TextMessage(User, message)];
      ghost var sent := chatHistory;
      inputText := "";
      ghost var v := View();
      assert v == ChatView(old(chatHistory) + [TextMessage(User, message)], old(bubbleOpen), old(assistantContent));
      var req, threw := StartStreaming(message, response, parse);
      // The `catch`: the thinking indicator is removed and the error is
      // added to the page, neither of which touches the state modelled here.
      errorShown := threw;
      DropLastSnoc(old(chatHistory), TextMessage(User, message));
      StreamedExtends(v, response, parse);
      ghost var streamed := chatHistory;
      assert streamed == Streamed(v, response, parse).history;
      request := Some(req);
      FinishSending();
      assert chatHistory == streamed;
    }

    /** The `finally` block of `sendMessage`. */
    method FinishSending()
      modifies this
      ensures chatHistory == old(chatHistory) && inputText == old(inputText)
      ensures !isProcessing && !bubbleOpen && assistantContent == ""
      ensures !inputDisabled && !suggestionsDisabled && sendDisabled == IsBlank(inputText)
    {
      isProcessing := false;
      EnableAllInputs();
      bubbleOpen := false;
      assistantContent := "";
    }

    /** `sendSuggestion`: ignored while a request is in flight; otherwise the
        suggestion is put in the field and sent. A blank suggestion stays in
        the field, and the send button keeps its state, since setting the
        field's value raises no input event. */
    method SendSuggestion(text: string, response: Option<seq<string>>, parse: string -> Option<PlayEvent>)
      returns (request: Option<ChatRequest>, errorShown: bool)
      modifies this
      ensures old(isProcessing) ==>
                request.None? && !errorShown && View() == old(View()) && Controls() == old(Controls())
      ensures !old(isProcessing) && IsBlank(text) ==>
                && request.None? && !errorShown && View() == old(View())
                && !isProcessing && inputText == text && inputDisabled == old(inputDisabled)
                && sendDisabled == old(sendDisabled) && suggestionsDisabled == old(suggestionsDisabled)
      ensures !old(isProcessing) && !IsBlank(text) ==>
                var message := Trim(text);
                var sent := old(chatHistory) + [TextMessage(User, message)];
                && request == Some(ChatRequest(message, old(chatHistory)))
                && errorShown == StreamThrows(ChatView(sent, old(bubbleOpen), old(assistantContent)), response, parse)
                && chatHistory == Streamed(ChatView(sent, old(bubbleOpen), old(assistantContent)), response, parse).history
                && Extends(sent, chatHistory)
                && !isProcessing && !bubbleOpen && assistantContent == ""
                && inputText == "" && !inputDisabled && !suggestionsDisabled && sendDisabled
    {
      if isProcessing {
        return None, false;
      }
      inputText := text;
      request, errorShown := SendMessage(response, parse);
    }

    /** `resetChat`: ends a request in flight (re-enabling the controls) and
        empties the transcript and the bubble. */
    method ResetChat()
      modifies this
      ensures chatHistory == [] && !bubbleOpen && assistantContent == "" && !isProcessing
      ensures inputText == old(inputText)
      ensures old(isProcessing) ==>
                !inputDisabled && !suggestionsDisabled && sendDisabled == IsBlank(inputText)
      ensures !old(isProcessing) ==>
                inputDisabled == old(inputDisabled) && sendDisabled == old(sendDisabled) &&
                suggestionsDisabled == old(suggestionsDisabled)
    {
      if isProcessing {
        isProcessing := false;
        EnableAllInputs();
      }
      chatHistory := [];
      bubbleOpen := false;
      assistantContent := "";
    }
  }
}
