/**
 * The two ends of POST /api/stream put together: the frames generate_stream
 * writes (web_server.py), one JSON line each, read back by the page's reader
 * loop (static/script.js). PageAfter reads the frames as whole lines; the
 * chunk-level lemmas at the end show that this is what the reader sees when
 * every chunk it receives ends at a line boundary, and LineCutAcrossChunksIsLost
 * shows what is lost when one does not. The page's buffer then ends equal to
 * the reply the server stores.
 */
module ServerToPage {
  import opened Wrappers
  import opened StreamProtocol
  import opened StreamReducer
  import opened ReplyStream

  /** The event the page parses from a frame's JSON line; "start" and "end" have no case in its dispatch. */
  function FrameEvent(f: Frame): StreamEvent
  {
    match f
    case StartFrame(_) => Other
    case ContentFrame(content) => Content(content)
    case ToolCallFrame(name, args, id) => ToolCall(name, args, id)
    case ToolResultFrame(id, result) => ToolResult(id, result)
    case FinalFrame(content) => Final(content)
    case EndFrame => Other
    case ErrorFrame(error) => Error(error)
  }

  /** The lines the page reads from a body of frames. */
  function FrameLines(frames: seq<Frame>): (ls: seq<Line>)
    ensures |ls| == |frames|
    ensures forall k :: 0 <= k < |frames| ==> ls[k] == Event(FrameEvent(frames[k]))
  {
    if frames == [] then [] else FrameLines(frames[..|frames| - 1]) + [Event(FrameEvent(frames[|frames| - 1]))]
  }

  /** The page state after reading `frames` from the start, each frame as one whole line. */
  function PageAfter(frames: seq<Frame>): ReplyState
  {
    Reduce(Initial, FrameLines(frames))
  }

  /** The page's buffer holds what the server has accumulated so far. */
  predicate Agrees(e: Emitted) {
    PageAfter(e.frames).buffer == e.fullResponse
  }

  lemma PageAfterSnoc(frames: seq<Frame>, f: Frame)
    ensures PageAfter(frames + [f]) == Apply(PageAfter(frames), FrameEvent(f))
  {
    assert (frames + [f])[..|frames|] == frames;
    var ls := FrameLines(frames + [f]);
    assert ls[..|ls| - 1] == FrameLines(frames);
  }

  /** A frame that is neither "content" nor "final" leaves the page's buffer alone. */
  lemma OtherFrameKeepsBuffer(frames: seq<Frame>, f: Frame)
    requires !f.ContentFrame? && !f.FinalFrame?
    ensures PageAfter(frames + [f]).buffer == PageAfter(frames).buffer
  {
    PageAfterSnoc(frames, f);
  }

  lemma {:induction false} DeltasAgree(e: Emitted, deltas: seq<string>)
    requires Agrees(e)
    ensures Agrees(OnDeltas(e, deltas))
    decreases |deltas|
  {
    if deltas != [] {
      var prev := OnDeltas(e, deltas[..|deltas| - 1]);
      DeltasAgree(e, deltas[..|deltas| - 1]);
      var d := deltas[|deltas| - 1];
      if d != "" {
        PageAfterSnoc(prev.frames, ContentFrame(d));
      }
    }
  }

  lemma {:induction false} ToolEventsAgree(e: Emitted, events: seq<ToolEvent>)
    requires Agrees(e)
    ensures Agrees(OnToolEvents(e, events))
    decreases |events|
  {
    if events != [] {
      var prev := OnToolEvents(e, events[..|events| - 1]);
      ToolEventsAgree(e, events[..|events| - 1]);
      match events[|events| - 1]
      case CallStarted(name, args, id) => OtherFrameKeepsBuffer(prev.frames, ToolCallFrame(name, args, id));
      case CallReturned(id, result) => OtherFrameKeepsBuffer(prev.frames, ToolResultFrame(id, result));
    }
  }

  lemma NodeAgrees(e: Emitted, node: AgentNode)
    requires Agrees(e)
    ensures Agrees(OnNode(e, node)) && Agrees(OnNodeAsWritten(e, node))
  {
    match node
    case ModelRequestNode(deltas) => DeltasAgree(e, deltas);
    case CallToolsNode(events) => ToolEventsAgree(e, events);
    case EndNode(output) =>
      if output != "" && output != e.fullResponse {
        PageAfterSnoc(e.frames, FinalFrame(output));
      }
    case UserPromptNode =>
  }

  lemma {:induction false} NodesAgree(e: Emitted, nodes: seq<AgentNode>)
    requires Agrees(e)
    ensures Agrees(OnNodes(e, nodes)) && Agrees(OnNodesAsWritten(e, nodes))
    decreases |nodes|
  {
    if nodes != [] {
      var init := nodes[..|nodes| - 1];
      NodesAgree(e, init);
      NodeAgrees(OnNodes(e, init), nodes[|nodes| - 1]);
      NodeAgrees(OnNodesAsWritten(e, init), nodes[|nodes| - 1]);
    }
  }

  lemma CloseAgrees(e: Emitted, crash: Option<string>)
    requires Agrees(e)
    ensures Agrees(Close(e, crash))
  {
    OtherFrameKeepsBuffer(e.frames, if crash.Some? then ErrorFrame(crash.value) else EndFrame);
  }

  /**
   * Whatever the agent does and however its run ends, the page's buffer after
   * the whole body equals the reply the server stores, with either node dispatch.
   */
  lemma PageBufferIsStoredReply(conversationId: string, nodes: seq<AgentNode>, crash: Option<string>)
    ensures PageAfter(Generate(conversationId, nodes, crash).frames).buffer == Generate(conversationId, nodes, crash).fullResponse
    ensures PageAfter(GenerateAsWritten(conversationId, nodes, crash).frames).buffer
         == GenerateAsWritten(conversationId, nodes, crash).fullResponse
  {
    var start := Emitted([StartFrame(conversationId)], "");
    OtherFrameKeepsBuffer([], StartFrame(conversationId));
    assert [] + [StartFrame(conversationId)] == [StartFrame(conversationId)];
    NodesAgree(start, nodes);
    CloseAgrees(OnNodes(start, nodes), crash);
    CloseAgrees(OnNodesAsWritten(start, nodes), crash);
  }

  /**
   * The response body: each frame as its JSON text from `encode`
   * (json.dumps), followed by '\n'.
   */
  function Body(frames: seq<Frame>, encode: Frame -> string): string
  {
    if frames == [] then "" else Body(frames[..|frames| - 1], encode) + encode(frames[|frames| - 1]) + "\n"
  }

  /**
   * json.dumps writes a frame as one non-blank line without a raw newline,
   * and JSON.parse reads that line back as the frame's event.
   */
  ghost predicate RoundTrips(encode: Frame -> string, parse: string -> Option<StreamEvent>)
  {
    forall f :: '\n' !in encode(f) && !IsBlank(encode(f)) && parse(encode(f)) == Some(FrameEvent(f))
  }

  /** Split on '\n', the body gives back each frame's line, then an empty remainder. */
  lemma {:induction false} BodySplit(frames: seq<Frame>, encode: Frame -> string, parse: string -> Option<StreamEvent>)
    requires RoundTrips(encode, parse)
    ensures |SplitLines(Body(frames, encode))| == |frames| + 1
    ensures forall k :: 0 <= k < |frames| ==> SplitLines(Body(frames, encode))[k] == encode(frames[k])
    ensures SplitLines(Body(frames, encode))[|frames|] == ""
    decreases |frames|
  {
    if frames != [] {
      var init, f := frames[..|frames| - 1], frames[|frames| - 1];
      var e := encode(f);
      TerminatedLine(e);
      if init == [] {
        assert Body(frames, encode) == e + "\n";
      } else {
        BodySplit(init, encode, parse);
        var p := Body(init[..|init| - 1], encode) + encode(init[|init| - 1]);
        assert Body(init, encode) == p + "\n" + "";
        SplitAtNewline(p, "");
        assert Body(frames, encode) == p + "\n" + (e + "\n");
        SplitAtNewline(p, e + "\n");
        forall k | 0 <= k < |frames| ensures SplitLines(Body(frames, encode))[k] == encode(frames[k]) {
          if k < |init| {
            assert SplitLines(Body(init, encode))[k] == SplitLines(p)[k];
            assert frames[k] == init[k];
          }
        }
      }
    }
  }

  /** The page reads a frame's JSON line as the frame's event. */
  lemma FrameLineIsEvent(f: Frame, encode: Frame -> string, parse: string -> Option<StreamEvent>)
    requires RoundTrips(encode, parse)
    ensures Classify(encode(f), parse) == Event(FrameEvent(f))
  {
  }

  /** The page reads the whole body as the frames' lines followed by one blank line. */
  lemma BodyLines(frames: seq<Frame>, encode: Frame -> string, parse: string -> Option<StreamEvent>)
    requires RoundTrips(encode, parse)
    ensures ChunkLines(Body(frames, encode), parse) == FrameLines(frames) + [Blank]
  {
    BodySplit(frames, encode, parse);
    FrameRawsClassify(SplitLines(Body(frames, encode)), frames, encode, parse);
  }

  /** Raw lines holding the frames' encodings and then an empty remainder classify as the frames' lines and a blank. */
  lemma FrameRawsClassify(raws: seq<string>, frames: seq<Frame>, encode: Frame -> string,
                          parse: string -> Option<StreamEvent>)
    requires RoundTrips(encode, parse)
    requires |raws| == |frames| + 1 && raws[|frames|] == ""
    requires forall k :: 0 <= k < |frames| ==> raws[k] == encode(frames[k])
    ensures ClassifyAll(raws, parse) == FrameLines(frames) + [Blank]
  {
    var ls := ClassifyAll(raws, parse);
    var fl := FrameLines(frames);
    forall k | 0 <= k < |frames| ensures ls[k] == fl[k] {
      FrameLineIsEvent(frames[k], encode, parse);
    }
    assert ls[|frames|] == Blank;
  }

  /**
   * However the reader's chunks cut the body, as long as each cut falls at a
   * line boundary the page ends where reading the frames as whole lines ends.
   */
  lemma ChunkedBodyReadsAsFrames(frames: seq<Frame>, encode: Frame -> string, parse: string -> Option<StreamEvent>,
                                 chunks: seq<string>)
    requires RoundTrips(encode, parse)
    requires LineAligned(chunks) && Joined(chunks) == Body(frames, encode)
    ensures ProcessChunks(Initial, chunks, parse) == PageAfter(frames)
  {
    ChunksAtLineBoundaries(Initial, chunks, parse);
    BodyLines(frames, encode, parse);
    var ls := FrameLines(frames);
    assert (ls + [Blank])[..|ls|] == ls;
  }

  /**
   * The whole exchange as the page runs it: the body arrives in line-aligned
   * chunks, and the buffer ends equal to the reply the server stores, with
   * either node dispatch.
   */
  lemma ChunkedPageBufferIsStoredReply(conversationId: string, nodes: seq<AgentNode>, crash: Option<string>,
                                       encode: Frame -> string, parse: string -> Option<StreamEvent>,
                                       chunks: seq<string>, fixed: bool)
    requires RoundTrips(encode, parse) && LineAligned(chunks)
    requires var e := if fixed then Generate(conversationId, nodes, crash) else GenerateAsWritten(conversationId, nodes, crash);
      Joined(chunks) == Body(e.frames, encode)
    ensures var e := if fixed then Generate(conversationId, nodes, crash) else GenerateAsWritten(conversationId, nodes, crash);
      Run(chunks, parse).buffer == e.fullResponse
  {
    var e := if fixed then Generate(conversationId, nodes, crash) else GenerateAsWritten(conversationId, nodes, crash);
    ChunkedBodyReadsAsFrames(e.frames, encode, parse, chunks);
    PageBufferIsStoredReply(conversationId, nodes, crash);
  }

  /** A body without a "final" frame gives the page no "final" line. */
  lemma NoFinalLines(frames: seq<Frame>)
    requires NoFinalFrame(frames)
    ensures NoFinal(FrameLines(frames))
  {
    var ls := FrameLines(frames);
    forall k | 0 <= k < |ls| ensures !(ls[k].Event? && ls[k].event.Final?) {
      assert ls[k] == Event(FrameEvent(frames[k]));
      assert !frames[k].FinalFrame?;
    }
  }

  /**
   * As the server is written it never sends "final", so the page always ends
   * on its fallback: the stored reply rendered as Markdown, even after an
   * "error" line.
   */
  lemma AsWrittenPageShowsStoredReply(conversationId: string, nodes: seq<AgentNode>, crash: Option<string>)
    ensures var e := GenerateAsWritten(conversationId, nodes, crash);
      Finish(PageAfter(e.frames)).view == Markdown(e.fullResponse)
  {
    var e := GenerateAsWritten(conversationId, nodes, crash);
    var start := Emitted([StartFrame(conversationId)], "");
    AsWrittenNeverFinal(start, nodes);
    var body := OnNodesAsWritten(start, nodes);
    NoFinalFrameAppend(body.frames, if crash.Some? then ErrorFrame(crash.value) else EndFrame);
    var ls := FrameLines(e.frames);
    NoFinalLines(e.frames);
    FallbackShowsContent(ls);
    BufferIsContentConcat(Initial, ls);
    PageBufferIsStoredReply(conversationId, nodes, crash);
  }

  /** The same with the body arriving in line-aligned chunks: the page ends showing the stored reply. */
  lemma ChunkedAsWrittenPageShowsStoredReply(conversationId: string, nodes: seq<AgentNode>, crash: Option<string>,
                                             encode: Frame -> string, parse: string -> Option<StreamEvent>,
                                             chunks: seq<string>)
    requires RoundTrips(encode, parse) && LineAligned(chunks)
    requires Joined(chunks) == Body(GenerateAsWritten(conversationId, nodes, crash).frames, encode)
    ensures Run(chunks, parse).view == Markdown(GenerateAsWritten(conversationId, nodes, crash).fullResponse)
  {
    ChunkedBodyReadsAsFrames(GenerateAsWritten(conversationId, nodes, crash).frames, encode, parse, chunks);
    AsWrittenPageShowsStoredReply(conversationId, nodes, crash);
  }
}
