/**
 * One streamed reply as the page runs it (static/script.js, handleStreamRequest):
 * the mutable `buffer` and `hasFinalContent`, what the markdown container shows,
 * and the tool-card registry, updated line by line while chunks arrive.
 */
module StreamSession {
  import opened Wrappers
  import opened StreamProtocol
  import opened ToolCards
  import opened StreamReducer

  /** Decimal digits of a status code, as a template literal prints it. */
  function DecimalText(n: nat): (t: string)
    ensures |t| >= 1
    ensures forall k :: 0 <= k < |t| ==> '0' <= t[k] <= '9'
  {
    if n < 10 then [(('0' as int) + n) as char]
    else DecimalText(n / 10) + [(('0' as int) + n % 10) as char]
  }

  const MaintenanceHeader := "⚠️ **服务器正在维护中**\n\n"
  const RequestErrorHeader := "⚠️ **请求错误 ("
  /** Shown under the maintenance header when the error body names no detail. */
  const RestartingText := "服务器正在重启或维护中，请稍后再试。"

  /**
   * The text shown for a response that is not ok. `body` is the parsed error
   * body's `detail` ("" when absent), or None when the body is not JSON, in
   * which case the detail is "未知错误".
   */
  function RequestFailureText(status: nat, body: Option<string>, statusText: string): (t: string)
    ensures status == 503 ==> MaintenanceHeader <= t
    ensures status != 503 ==> RequestErrorHeader + DecimalText(status) + ")**\n\n" <= t
    ensures status != 503 ==> !(MaintenanceHeader <= t)
    ensures body.Some? && body.value != "" ==> |body.value| <= |t| && t[|t| - |body.value|..] == body.value
    ensures body.None? ==> |UnknownErrorText| <= |t| && t[|t| - |UnknownErrorText|..] == UnknownErrorText
    ensures status == 503 && body == Some("") ==> t == MaintenanceHeader + RestartingText
    ensures status != 503 && body == Some("") ==> |statusText| <= |t| && t[|t| - |statusText|..] == statusText
  {
    var detail := body.GetOr(UnknownErrorText);
    if status == 503 then
      MaintenanceHeader + (if detail != "" then detail else RestartingText)
    else
      var t := RequestErrorHeader + DecimalText(status) + ")**\n\n" + (if detail != "" then detail else statusText);
      assert t[5] == RequestErrorHeader[5] != MaintenanceHeader[5];
      t
  }

  /** How a thrown exception ended the request (the catch block). */
  datatype Failure =
    | Aborted                  // AbortError: a newer request or a conversation switch cancelled it
    | FetchFailed              // TypeError "Failed to fetch": the server cannot be reached
    | Thrown(message: string)  // any other exception

  const UnreachableText := "⚠️ **无法连接到服务器**\n\n服务器可能正在重启或维护中，请稍后再试。"
  const FailureHeader := "⚠️ **处理请求时发生错误**\n\n"

  /** What the container shows after the catch block: cancellation is silent and keeps what was shown. */
  function AfterFailure(v: View, f: Failure): (r: View)
    ensures f.Aborted? ==> r == v
    ensures f.FetchFailed? ==> r == Markdown(UnreachableText)
    ensures f.Thrown? ==> r.Markdown? && FailureHeader <= r.text && r.text[|FailureHeader|..] == f.message
  {
    match f
    case Aborted => v
    case FetchFailed => Markdown(UnreachableText)
    case Thrown(message) => Markdown(FailureHeader + message)
  }

  /** The reply being streamed into one assistant message. */
  class ReplySession {
    var buffer: string
    var hasFinalContent: bool
    var view: View
    const registry: ToolCardRegistry

    ghost function State(): ReplyState
      reads this, registry
    {
      ReplyState(buffer, hasFinalContent, view, registry.cards)
    }

    /** The placeholder message with an empty buffer and a fresh card registry. */
    constructor ()
      ensures State() == Initial
      ensures fresh(registry)
    {
      buffer := "";
      hasFinalContent := false;
      view := Placeholder;
      registry := new ToolCardRegistry();
    }

    /** The body of the per-line loop: trim test, JSON.parse, dispatch on `type`. */
    method ProcessLine(line: string, parse: string -> Option<StreamEvent>)
      modifies this, registry
      ensures State() == Step(old(State()), Classify(line, parse))
    {
      if IsBlank(line) {
        return;
      }
      var data := parse(line);
      if data.None? {
        return;   // console.error: the line could not be parsed
      }
      match data.value
      case ToolCall(name, args, id) =>
        var _ := registry.GetOrCreateCard(name, args, id, true);
      case ToolResult(id, result) =>
        var _ := registry.UpdateCardResult(id, result);
      case Content(text) =>
        if text != "" {
          buffer := buffer + text;
          view := Streaming(buffer);
        }
      case Final(text) =>
        if text != "" {
          buffer := text;
          hasFinalContent := true;
          view := Markdown(buffer);
        }
      case Error(message) =>
        view := Markdown(ErrorText(message));
      case Other =>
    }

    /** One chunk from the reader, split on '\n' by itself and processed line by line. */
    method ProcessChunk(chunk: string, parse: string -> Option<StreamEvent>)
      modifies this, registry
      ensures State() == StreamReducer.ProcessChunk(old(State()), chunk, parse)
    {
      var lines := SplitLines(chunk);
      ghost var classified := ClassifyAll(lines, parse);
      for i := 0 to |lines|
        invariant State() == Reduce(old(State()), classified[..i])
      {
        ProcessLine(lines[i], parse);
        assert classified[..i + 1][..i] == classified[..i];
      }
      assert classified[..|lines|] == classified;
    }

    /** After the read loop: without a final event the buffer is rendered as it stands. */
    method FinishStream()
      modifies this
      ensures State() == Finish(old(State()))
    {
      if !hasFinalContent {
        view := Markdown(buffer);
      }
    }

    /** The read loop over every chunk until `done`, then the end-of-stream fallback. */
    method ReadStream(chunks: seq<string>, parse: string -> Option<StreamEvent>)
      modifies this, registry
      ensures State() == Finish(ProcessChunks(old(State()), chunks, parse))
      ensures old(State()) == Initial ==> State() == Run(chunks, parse)
    {
      var i := 0;
      while i < |chunks|
        invariant i <= |chunks|
        invariant State() == ProcessChunks(old(State()), chunks[..i], parse)
      {
        ProcessChunk(chunks[i], parse);
        assert chunks[..i + 1][..i] == chunks[..i];
        i := i + 1;
      }
      assert chunks[..i] == chunks;
      FinishStream();
    }

    /** A response that is not ok: the error text replaces the placeholder and nothing is read. */
    method RejectResponse(status: nat, body: Option<string>, statusText: string)
      modifies this
      ensures State() == old(State()).(view := Markdown(RequestFailureText(status, body, statusText)))
    {
      view := Markdown(RequestFailureText(status, body, statusText));
    }

    /** The catch block: the reply stops where it is and shows the failure, if any. */
    method Fail(f: Failure)
      modifies this
      ensures State() == old(State()).(view := AfterFailure(old(view), f))
    {
      view := AfterFailure(view, f);
    }
  }
}
