/**
 * The body of POST /api/stream (web_server.py, generate_stream): the frames the
 * server writes while the agent runs, and `full_response`, the reply text it
 * stores afterwards. The agent run is abstract: the sequence of graph nodes it
 * yields, each with what its own stream delivers.
 *
 * The source tests the node kind with `elif agent.is_call_tools_node:` (no call),
 * which is always true, so every node that is not a model request is streamed as
 * a tool-call node; an end node has no stream, the attribute error is caught, and
 * the branch that emits the `final` frame is never reached. OnNodeAsWritten,
 * GenerateAsWritten and the loop GenerateStream model that, and the server model
 * (module ChatServer) runs this dispatch as written. OnNode, OnEnd and Generate
 * model the evidently intended dispatch: they are the corrected half of the
 * finding about web_server.py:718 and are used only to state it.
 */
module ReplyStream {
  import opened Wrappers

  /** An event of a tool-call node's stream. */
  datatype ToolEvent =
    | CallStarted(toolName: string, args: string, toolCallId: string)   // FunctionToolCallEvent
    | CallReturned(toolCallId: string, result: string)                  // FunctionToolResultEvent

  /** A node of the agent graph, with the part of its stream the server reads. */
  datatype AgentNode =
    | UserPromptNode
    | ModelRequestNode(deltas: seq<string>)   // the text deltas of its stream, in order
    | CallToolsNode(events: seq<ToolEvent>)
    | EndNode(output: string)                 // run.result.output, "" when absent

  /** One JSON line of the response body. */
  datatype Frame =
    | StartFrame(conversationId: string)
    | ContentFrame(content: string)
    | ToolCallFrame(toolName: string, args: string, toolCallId: string)
    | ToolResultFrame(toolCallId: string, result: string)
    | FinalFrame(content: string)
    | EndFrame
    | ErrorFrame(error: string)

  /** The frames written so far and `full_response`. */
  datatype Emitted = Emitted(frames: seq<Frame>, fullResponse: string)

  /** A text delta: a non-empty one is appended to the reply and written as a content frame. */
  function OnDelta(e: Emitted, content: string): Emitted
  {
    if content != "" then Emitted(e.frames + [ContentFrame(content)], e.fullResponse + content) else e
  }

  function OnDeltas(e: Emitted, deltas: seq<string>): Emitted
  {
    if deltas == [] then e else OnDelta(OnDeltas(e, deltas[..|deltas| - 1]), deltas[|deltas| - 1])
  }

  /** A tool event becomes its frame; the reply text is untouched. */
  function OnToolEvent(e: Emitted, ev: ToolEvent): (r: Emitted)
    ensures r.fullResponse == e.fullResponse
    ensures ev.CallStarted? ==> r.frames == e.frames + [ToolCallFrame(ev.toolName, ev.args, ev.toolCallId)]
    ensures ev.CallReturned? ==> r.frames == e.frames + [ToolResultFrame(ev.toolCallId, ev.result)]
  {
    match ev
    case CallStarted(name, args, id) => e.(frames := e.frames + [ToolCallFrame(name, args, id)])
    case CallReturned(id, result) => e.(frames := e.frames + [ToolResultFrame(id, result)])
  }

  function OnToolEvents(e: Emitted, events: seq<ToolEvent>): Emitted
  {
    if events == [] then e else OnToolEvent(OnToolEvents(e, events[..|events| - 1]), events[|events| - 1])
  }

  /**
   * The end node: a final frame is written only for a non-empty result that
   * differs from the reply so far, and the reply becomes that result.
   */
  function OnEnd(e: Emitted, output: string): (r: Emitted)
    ensures r.fullResponse == if output != "" then output else e.fullResponse
    ensures r.frames == e.frames || r.frames == e.frames + [FinalFrame(output)]
    ensures r.frames != e.frames <==> output != "" && output != e.fullResponse
  {
    if output != "" && output != e.fullResponse then Emitted(e.frames + [FinalFrame(output)], output) else e
  }

  /** The intended dispatch: `is_model_request_node(node)`, `is_call_tools_node(node)`, `is_end_node(node)`. */
  function OnNode(e: Emitted, node: AgentNode): Emitted
  {
    match node
    case ModelRequestNode(deltas) => OnDeltas(e, deltas)
    case CallToolsNode(events) => OnToolEvents(e, events)
    case EndNode(output) => OnEnd(e, output)
    case UserPromptNode => e
  }

  /**
   * The dispatch as written: every node that is not a model request takes the
   * tool-call branch; a node without a stream raises there and is skipped.
   */
  function OnNodeAsWritten(e: Emitted, node: AgentNode): Emitted
  {
    match node
    case ModelRequestNode(deltas) => OnDeltas(e, deltas)
    case CallToolsNode(events) => OnToolEvents(e, events)
    case _ => e
  }

  function OnNodes(e: Emitted, nodes: seq<AgentNode>): Emitted
  {
    if nodes == [] then e else OnNode(OnNodes(e, nodes[..|nodes| - 1]), nodes[|nodes| - 1])
  }

  function OnNodesAsWritten(e: Emitted, nodes: seq<AgentNode>): Emitted
  {
    if nodes == [] then e else OnNodeAsWritten(OnNodesAsWritten(e, nodes[..|nodes| - 1]), nodes[|nodes| - 1])
  }

  /** The last frame: "end" after a completed run, "error" when the run raised `crash`. */
  function Close(e: Emitted, crash: Option<string>): Emitted
  {
    Emitted(e.frames + [if crash.Some? then ErrorFrame(crash.value) else EndFrame], e.fullResponse)
  }

  /** The whole response body and the stored reply, with the intended node dispatch. */
  function Generate(conversationId: string, nodes: seq<AgentNode>, crash: Option<string>): Emitted
  {
    Close(OnNodes(Emitted([StartFrame(conversationId)], ""), nodes), crash)
  }

  /** The whole response body and the stored reply, as the source dispatches nodes. */
  function GenerateAsWritten(conversationId: string, nodes: seq<AgentNode>, crash: Option<string>): Emitted
  {
    Close(OnNodesAsWritten(Emitted([StartFrame(conversationId)], ""), nodes), crash)
  }

  /**
   * generate_stream as written: the frames in the order they are yielded, and
   * `full_response` when it ends. Only model-request and tool-call nodes add
   * anything; the stored reply is the text deltas run together and no "final"
   * frame is ever yielded.
   */
  method GenerateStream(conversationId: string, nodes: seq<AgentNode>, crash: Option<string>)
    returns (frames: seq<Frame>, fullResponse: string)
    ensures Emitted(frames, fullResponse) == GenerateAsWritten(conversationId, nodes, crash)
    ensures fullResponse == AllDeltas(nodes)
    ensures NoFinalFrame(frames)
  {
    frames := [StartFrame(conversationId)];
    fullResponse := "";
    ghost var start := Emitted(frames, fullResponse);
    for i := 0 to |nodes|
      invariant Emitted(frames, fullResponse) == OnNodesAsWritten(start, nodes[..i])
    {
      ghost var before := Emitted(frames, fullResponse);
      match nodes[i] {
      case ModelRequestNode(deltas) =>
        for j := 0 to |deltas|
          invariant Emitted(frames, fullResponse) == OnDeltas(before, deltas[..j])
        {
          var content := deltas[j];
          if content != "" {
            fullResponse := fullResponse + content;
            frames := frames + [ContentFrame(content)];
          }
          assert deltas[..j + 1][..j] == deltas[..j];
        }
        assert deltas[..|deltas|] == deltas;
      case CallToolsNode(events) =>
        for j := 0 to |events|
          invariant Emitted(frames, fullResponse) == OnToolEvents(before, events[..j])
        {
          match events[j] {
          case CallStarted(name, args, id) =>
            frames := frames + [ToolCallFrame(name, args, id)];
          case CallReturned(id, result) =>
            frames := frames + [ToolResultFrame(id, result)];
          }
          assert events[..j + 1][..j] == events[..j];
        }
        assert events[..|events|] == events;
      case EndNode(_) =>
      case UserPromptNode =>
      }
      assert nodes[..i + 1][..i] == nodes[..i];
    }
    assert nodes[..|nodes|] == nodes;
    frames := frames + [if crash.Some? then ErrorFrame(crash.value) else EndFrame];
    AsWrittenReplyIsDeltas(conversationId, nodes, crash);
  }

  // ---------------------------------------------------------------------------
  // Properties

  /** All text deltas of all model-request nodes, in order. */
  function AllDeltas(nodes: seq<AgentNode>): string
  {
    if nodes == [] then "" else AllDeltas(nodes[..|nodes| - 1]) + NodeText(nodes[|nodes| - 1])
  }

  /** The text deltas of one node, run together. */
  function NodeText(node: AgentNode): string
  {
    match node
    case ModelRequestNode(deltas) => Concat(deltas)
    case _ => ""
  }

  function Concat(deltas: seq<string>): string
  {
    if deltas == [] then "" else Concat(deltas[..|deltas| - 1]) + deltas[|deltas| - 1]
  }

  predicate NoFinalFrame(frames: seq<Frame>) {
    forall k :: 0 <= k < |frames| ==> !frames[k].FinalFrame?
  }

  predicate NoEndNode(nodes: seq<AgentNode>) {
    forall k :: 0 <= k < |nodes| ==> !nodes[k].EndNode?
  }

  lemma NoFinalFrameAppend(a: seq<Frame>, f: Frame)
    requires NoFinalFrame(a) && !f.FinalFrame?
    ensures NoFinalFrame(a + [f])
  {
    assert forall k :: 0 <= k < |a| ==> (a + [f])[k] == a[k];
  }

  /** As written, the whole stream stores the concatenation of all deltas and carries no "final" frame. */
  lemma AsWrittenReplyIsDeltas(conversationId: string, nodes: seq<AgentNode>, crash: Option<string>)
    ensures GenerateAsWritten(conversationId, nodes, crash).fullResponse == AllDeltas(nodes)
    ensures NoFinalFrame(GenerateAsWritten(conversationId, nodes, crash).frames)
  {
    var body := OnNodesAsWritten(Emitted([StartFrame(conversationId)], ""), nodes);
    AsWrittenNeverFinal(Emitted([StartFrame(conversationId)], ""), nodes);
    NoFinalFrameAppend(body.frames, if crash.Some? then ErrorFrame(crash.value) else EndFrame);
  }

  /** Deltas append their concatenation to the reply and write no final frame. */
  lemma {:induction false} DeltasAppend(e: Emitted, deltas: seq<string>)
    requires NoFinalFrame(e.frames)
    ensures OnDeltas(e, deltas).fullResponse == e.fullResponse + Concat(deltas)
    ensures NoFinalFrame(OnDeltas(e, deltas).frames)
    decreases |deltas|
  {
    if deltas != [] {
      var d := deltas[|deltas| - 1];
      DeltasAppend(e, deltas[..|deltas| - 1]);
      if d != "" {
        NoFinalFrameAppend(OnDeltas(e, deltas[..|deltas| - 1]).frames, ContentFrame(d));
      }
    }
  }

  /** Tool events write no final frame and leave the reply as it is. */
  lemma {:induction false} ToolEventsKeepReply(e: Emitted, events: seq<ToolEvent>)
    requires NoFinalFrame(e.frames)
    ensures OnToolEvents(e, events).fullResponse == e.fullResponse
    ensures NoFinalFrame(OnToolEvents(e, events).frames)
    decreases |events|
  {
    if events != [] {
      var prev := OnToolEvents(e, events[..|events| - 1]);
      ToolEventsKeepReply(e, events[..|events| - 1]);
      match events[|events| - 1]
      case CallStarted(name, args, id) => NoFinalFrameAppend(prev.frames, ToolCallFrame(name, args, id));
      case CallReturned(id, result) => NoFinalFrameAppend(prev.frames, ToolResultFrame(id, result));
    }
  }

  /**
   * As written, no run ever writes a final frame, and the stored reply is every
   * text delta of every model request, whatever the agent's final output is.
   */
  lemma {:induction false} AsWrittenNeverFinal(e: Emitted, nodes: seq<AgentNode>)
    requires NoFinalFrame(e.frames)
    ensures OnNodesAsWritten(e, nodes).fullResponse == e.fullResponse + AllDeltas(nodes)
    ensures NoFinalFrame(OnNodesAsWritten(e, nodes).frames)
    decreases |nodes|
  {
    if nodes != [] {
      var prev := OnNodesAsWritten(e, nodes[..|nodes| - 1]);
      AsWrittenNeverFinal(e, nodes[..|nodes| - 1]);
      match nodes[|nodes| - 1]
      case ModelRequestNode(deltas) => DeltasAppend(prev, deltas);
      case CallToolsNode(events) => ToolEventsKeepReply(prev, events);
      case _ =>
    }
  }

  /** With the intended dispatch and no end node, the reply is likewise the concatenated deltas. */
  lemma {:induction false} WithoutEndReplyIsDeltas(e: Emitted, nodes: seq<AgentNode>)
    requires NoFinalFrame(e.frames)
    requires NoEndNode(nodes)
    ensures OnNodes(e, nodes).fullResponse == e.fullResponse + AllDeltas(nodes)
    ensures NoFinalFrame(OnNodes(e, nodes).frames)
    decreases |nodes|
  {
    if nodes != [] {
      var prev := OnNodes(e, nodes[..|nodes| - 1]);
      var init := nodes[..|nodes| - 1];
      assert NoEndNode(init) by {
        forall k | 0 <= k < |init| ensures !init[k].EndNode? {
          assert init[k] == nodes[k];
        }
      }
      WithoutEndReplyIsDeltas(e, nodes[..|nodes| - 1]);
      assert !nodes[|nodes| - 1].EndNode?;
      match nodes[|nodes| - 1]
      case ModelRequestNode(deltas) => DeltasAppend(prev, deltas);
      case CallToolsNode(events) => ToolEventsKeepReply(prev, events);
      case UserPromptNode =>
    }
  }

  /** With the intended dispatch, a run that ends with the agent's output stores exactly that output. */
  lemma EndNodeDecidesReply(e: Emitted, nodes: seq<AgentNode>, output: string)
    requires output != ""
    ensures OnNodes(e, nodes + [EndNode(output)]).fullResponse == output
  {
    assert (nodes + [EndNode(output)])[..|nodes|] == nodes;
  }

  /**
   * A text preamble before a tool call: as written, the stored reply is both
   * texts run together and no final frame is written; with the intended dispatch
   * the final frame carries the agent's answer and only the answer is stored.
   */
  lemma PreambleIsStoredAsWritten()
    ensures GenerateAsWritten("c", PreambleRun, None).fullResponse == PreambleText + AnswerText
    ensures NoFinalFrame(GenerateAsWritten("c", PreambleRun, None).frames)
    ensures Generate("c", PreambleRun, None).fullResponse == AnswerText
    ensures FinalFrame(AnswerText) in Generate("c", PreambleRun, None).frames
  {
    PreambleDeltas();
    AsWrittenReplyIsDeltas("c", PreambleRun, None);
    PreambleCorrected();
  }

  /** The text the model streams before it calls a tool. */
  const PreambleText := "Let me search. "

  /** The text the model streams after the tool call, which is also the agent's result. */
  const AnswerText := "Answer"

  /** A model request streaming the preamble, a tool call, a model request streaming the answer, and the end node. */
  const PreambleRun := [ModelRequestNode([PreambleText]), CallToolsNode([]),
                        ModelRequestNode([AnswerText]), EndNode(AnswerText)]

  /** The deltas of the preamble run, up to the end node and in all. */
  lemma PreambleDeltas()
    ensures AllDeltas(PreambleRun[..3]) == PreambleText + AnswerText
    ensures AllDeltas(PreambleRun) == PreambleText + AnswerText
  {
    SingleDeltaText(PreambleText);
    SingleDeltaText(AnswerText);
    FourNodeDeltas(PreambleRun);
  }

  /** The deltas of a four-node run, up to its third node and in all. */
  lemma FourNodeDeltas(nodes: seq<AgentNode>)
    requires |nodes| == 4
    ensures AllDeltas(nodes[..0]) == ""
    ensures AllDeltas(nodes[..3]) == AllDeltas(nodes[..0]) + NodeText(nodes[0]) + NodeText(nodes[1]) + NodeText(nodes[2])
    ensures AllDeltas(nodes) == AllDeltas(nodes[..3]) + NodeText(nodes[3])
  {
    assert nodes[..0] == [] && nodes[..4] == nodes;
    AllDeltasPrefix(nodes, 0);
    AllDeltasPrefix(nodes, 1);
    AllDeltasPrefix(nodes, 2);
    AllDeltasPrefix(nodes, 3);
  }

  /** A model request streaming one delta contributes exactly that delta. */
  lemma SingleDeltaText(delta: string)
    ensures NodeText(ModelRequestNode([delta])) == delta
  {
    assert [delta][..0] == [];
    assert Concat([delta]) == Concat([]) + delta;
  }

  /** Each longer prefix adds the deltas of its last node. */
  lemma AllDeltasPrefix(nodes: seq<AgentNode>, k: nat)
    requires k < |nodes|
    ensures AllDeltas(nodes[..k + 1]) == AllDeltas(nodes[..k]) + NodeText(nodes[k])
  {
    assert nodes[..k + 1][..k] == nodes[..k];
  }

  /** With the intended dispatch, the end node of the preamble run writes its result as the final frame. */
  lemma PreambleCorrected()
    ensures Generate("c", PreambleRun, None).fullResponse == AnswerText
    ensures FinalFrame(AnswerText) in Generate("c", PreambleRun, None).frames
  {
    var nodes := PreambleRun;
    var start := Emitted([StartFrame("c")], "");
    PreambleDeltas();
    var before := OnNodes(start, nodes[..3]);
    WithoutEndReplyIsDeltas(start, nodes[..3]) by {
      assert NoEndNode(nodes[..3]);
    }
    assert before.fullResponse == PreambleText + AnswerText;
    assert nodes[..|nodes| - 1] == nodes[..3];
    var last := OnNodes(start, nodes);
    assert last == OnEnd(before, AnswerText);
    assert last.frames == before.frames + [FinalFrame(AnswerText)];
    assert (last.frames + [EndFrame])[|before.frames|] == FinalFrame(AnswerText);
  }
}
