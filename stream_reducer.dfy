/**
 * What one streamed reply does to the page (static/script.js, handleStreamRequest),
 * as functions: the reply state after each line, after each chunk and at the end
 * of the stream. The class in module StreamSession runs the same steps in place.
 */
module StreamReducer {
  import opened Wrappers
  import opened StreamProtocol
  import opened ToolCards

  /** What the markdown container of the reply shows. */
  datatype View =
    | Placeholder            // nothing painted yet (only the blinking cursor)
    | Streaming(text: string) // the quick inline formatting of the buffer, cursor after it
    | Markdown(text: string)  // the full markdown rendering of the text

  /** `buffer`, `hasFinalContent`, what is displayed, and the tool-card registry. */
  datatype ReplyState = ReplyState(buffer: string, hasFinalContent: bool, view: View, cards: map<string, Card>)

  const Initial := ReplyState("", false, Placeholder, map[])

  const ErrorHeader := "⚠️ **错误**\n\n"
  /** The detail shown when an error names none. */
  const UnknownErrorText := "未知错误"

  /** The text shown for an `error` event: a fixed header, then the message or a default. */
  function ErrorText(message: string): (t: string)
    ensures ErrorHeader <= t && |t| > |ErrorHeader|
    ensures message != "" ==> t[|ErrorHeader|..] == message
    ensures message == "" ==> t[|ErrorHeader|..] == UnknownErrorText
  {
    ErrorHeader + (if message == "" then UnknownErrorText else message)
  }

  /** Dispatch of one parsed line on its `type`. */
  function Apply(s: ReplyState, e: StreamEvent): (r: ReplyState)
    ensures r.hasFinalContent <==> s.hasFinalContent || (e.Final? && e.text != "")
    ensures !(e.Content? || e.Final?) ==> r.buffer == s.buffer
    ensures !(e.ToolCall? || e.ToolResult?) ==> r.cards == s.cards
    ensures e.ToolCall? || e.ToolResult? || e.Other? ==> r.view == s.view
    ensures e.Error? ==>
              r.view.Markdown? && ErrorHeader <= r.view.text
              && r.view.text[|ErrorHeader|..] == (if e.message != "" then e.message else UnknownErrorText)
  {
    match e
    case ToolCall(name, args, id) =>
      s.(cards := AfterGetOrCreate(s.cards, name, args, id, true))
    case ToolResult(id, result) =>
      s.(cards := AfterResult(s.cards, id, result))
    case Content(text) =>
      if text != "" then s.(buffer := s.buffer + text, view := Streaming(s.buffer + text)) else s
    case Final(text) =>
      if text != "" then s.(buffer := text, hasFinalContent := true, view := Markdown(text)) else s
    case Error(message) =>
      s.(view := Markdown(ErrorText(message)))
    case Other => s
  }

  /** One classified line: blank and malformed lines are skipped. */
  function Step(s: ReplyState, l: Line): (r: ReplyState)
    ensures !l.Event? ==> r == s
  {
    match l
    case Event(e) => Apply(s, e)
    case _ => s
  }

  /** The lines of a stream, applied in order. */
  function Reduce(s: ReplyState, ls: seq<Line>): ReplyState
  {
    if ls == [] then s else Step(Reduce(s, ls[..|ls| - 1]), ls[|ls| - 1])
  }

  /** One chunk, split and applied on its own. */
  function ProcessChunk(s: ReplyState, chunk: string, parse: string -> Option<StreamEvent>): ReplyState
  {
    Reduce(s, ChunkLines(chunk, parse))
  }

  /** Every chunk the reader delivers, in order. */
  function ProcessChunks(s: ReplyState, chunks: seq<string>, parse: string -> Option<StreamEvent>): ReplyState
  {
    if chunks == [] then s
    else ProcessChunk(ProcessChunks(s, chunks[..|chunks| - 1], parse), chunks[|chunks| - 1], parse)
  }

  /** End of stream: without a final event the buffer is rendered as the answer. */
  function Finish(s: ReplyState): (r: ReplyState)
    ensures r.buffer == s.buffer && r.hasFinalContent == s.hasFinalContent && r.cards == s.cards
    ensures r.view == if s.hasFinalContent then s.view else Markdown(s.buffer)
  {
    if s.hasFinalContent then s else s.(view := Markdown(s.buffer))
  }

  /** The whole reply: all chunks, then the end-of-stream fallback. */
  function Run(chunks: seq<string>, parse: string -> Option<StreamEvent>): ReplyState
  {
    Finish(ProcessChunks(Initial, chunks, parse))
  }

  /** The text of all chunks run together. */
  function Joined(chunks: seq<string>): string
  {
    if chunks == [] then "" else Joined(chunks[..|chunks| - 1]) + chunks[|chunks| - 1]
  }

  /** The text is empty or ends with a line terminator. */
  predicate EndsLine(s: string) {
    s == [] || s[|s| - 1] == '\n'
  }

  /** Every chunk but the last ends at a line boundary. */
  predicate LineAligned(chunks: seq<string>) {
    forall k :: 0 <= k < |chunks| - 1 ==> EndsLine(chunks[k])
  }

  // ---------------------------------------------------------------------------
  // Properties of the reducer

  /** Applying `a + b` is applying `a`, then `b`. */
  lemma {:induction false} ReduceAppend(s: ReplyState, a: seq<Line>, b: seq<Line>)
    ensures Reduce(s, a + b) == Reduce(Reduce(s, a), b)
    decreases |b|
  {
    if b == [] {
      assert a + b == a;
    } else {
      var b' := b[..|b| - 1];
      assert (a + b)[..|a + b| - 1] == a + b';
      assert (a + b)[|a + b| - 1] == b[|b| - 1];
      ReduceAppend(s, a, b');
    }
  }

  /** A line that is not an event (blank, or failing JSON.parse) is skipped; the lines after it still apply. */
  lemma SkippedLineChangesNothing(s: ReplyState, a: seq<Line>, l: Line, b: seq<Line>)
    requires !l.Event?
    ensures Reduce(s, a + [l] + b) == Reduce(s, a + b)
  {
    ReduceAppend(s, a + [l], b);
    ReduceAppend(s, a, [l]);
    ReduceAppend(s, a, b);
    assert [l][..0] == [];
  }

  /** The in-order concatenation of the texts of the `content` events. */
  function ContentText(ls: seq<Line>): string
  {
    if ls == [] then "" else ContentText(ls[..|ls| - 1]) + LineContent(ls[|ls| - 1])
  }

  /** The text a line adds to the buffer when no final event intervenes. */
  function LineContent(l: Line): string
  {
    match l
    case Event(Content(t)) => t
    case _ => ""
  }

  /** No line is a `final` event that the reader would accept (non-empty content). */
  predicate NoFinal(ls: seq<Line>) {
    forall k :: 0 <= k < |ls| ==> !(ls[k].Event? && ls[k].event.Final? && ls[k].event.text != "")
  }

  /** Without a final event the buffer grows by exactly the content texts, in order, and the latch stays put. */
  lemma {:induction false} BufferIsContentConcat(s: ReplyState, ls: seq<Line>)
    requires NoFinal(ls)
    ensures Reduce(s, ls).buffer == s.buffer + ContentText(ls)
    ensures Reduce(s, ls).hasFinalContent == s.hasFinalContent
    decreases |ls|
  {
    if ls != [] {
      var ls' := ls[..|ls| - 1];
      assert NoFinal(ls') by {
        forall k | 0 <= k < |ls'| ensures !(ls'[k].Event? && ls'[k].event.Final? && ls'[k].event.text != "") {
          assert ls'[k] == ls[k];
        }
      }
      BufferIsContentConcat(s, ls');
      assert !(ls[|ls| - 1].Event? && ls[|ls| - 1].event.Final? && ls[|ls| - 1].event.text != "");
    }
  }

  /** `hasFinalContent` is a latch: once set it stays set, and it is set exactly when some final event arrived. */
  lemma {:induction false} FinalLatch(s: ReplyState, ls: seq<Line>)
    ensures Reduce(s, ls).hasFinalContent <==> s.hasFinalContent || !NoFinal(ls)
    decreases |ls|
  {
    if ls != [] {
      var ls' := ls[..|ls| - 1];
      FinalLatch(s, ls');
      if !NoFinal(ls') {
        var k :| 0 <= k < |ls'| && ls'[k].Event? && ls'[k].event.Final? && ls'[k].event.text != "";
        assert ls[k] == ls'[k];
      }
      if !NoFinal(ls) {
        var k :| 0 <= k < |ls| && ls[k].Event? && ls[k].event.Final? && ls[k].event.text != "";
        if k < |ls'| { assert ls'[k] == ls[k]; }
      }
    }
  }

  /** The last accepted final event replaces the buffer; only content events after it are appended. */
  lemma FinalReplacesBuffer(s: ReplyState, a: seq<Line>, text: string, b: seq<Line>)
    requires text != ""
    requires NoFinal(b)
    ensures Reduce(s, a + [Event(Final(text))] + b).buffer == text + ContentText(b)
    ensures Reduce(s, a + [Event(Final(text))] + b).hasFinalContent
  {
    ReduceAppend(s, a + [Event(Final(text))], b);
    ReduceAppend(s, a, [Event(Final(text))]);
    assert [Event(Final(text))][..0] == [];
    BufferIsContentConcat(Reduce(s, a + [Event(Final(text))]), b);
  }

  /** A stream without a final event ends showing the concatenated content, even after an error was shown. */
  lemma FallbackShowsContent(ls: seq<Line>)
    requires NoFinal(ls)
    ensures Finish(Reduce(Initial, ls)).view == Markdown(ContentText(ls))
  {
    BufferIsContentConcat(Initial, ls);
  }

  /** Deltas "Hel" and "lo" followed by the final "Hello, world!" render exactly the final text. */
  lemma FinalSupersedesDeltas()
    ensures Finish(Reduce(Initial, [Event(Content("Hel")), Event(Content("lo")), Event(Final("Hello, world!"))])).view
      == Markdown("Hello, world!")
  {
    var ls := [Event(Content("Hel")), Event(Content("lo")), Event(Final("Hello, world!"))];
    assert ls == [Event(Content("Hel")), Event(Content("lo"))] + [Event(Final("Hello, world!"))] + [];
    FinalReplacesBuffer(Initial, [Event(Content("Hel")), Event(Content("lo"))], "Hello, world!", []);
    assert ls[..2][..1][..0] == [];
  }

  // ---------------------------------------------------------------------------
  // Chunk boundaries

  lemma ClassifyAllAppend(a: seq<string>, b: seq<string>, parse: string -> Option<StreamEvent>)
    ensures ClassifyAll(a + b, parse) == ClassifyAll(a, parse) + ClassifyAll(b, parse)
  {
  }

  /**
   * When a chunk ends at a line boundary, delivering it separately from the next
   * chunk gives the same state as delivering both as one chunk.
   */
  lemma ChunkAtLineBoundary(s: ReplyState, a: string, b: string, parse: string -> Option<StreamEvent>)
    requires a == [] || a[|a| - 1] == '\n'
    ensures ProcessChunk(ProcessChunk(s, a, parse), b, parse) == ProcessChunk(s, a + b, parse)
  {
    if a == [] {
      assert SplitLines(a) == [""];
      assert ChunkLines(a, parse) == [Blank];
      assert [Blank][..0] == [];
      assert Reduce(s, [Blank]) == s;
      assert a + b == b;
    } else {
      var a' := a[..|a| - 1];
      assert a == a' + "\n" + [];
      assert a + b == a' + "\n" + b;
      SplitAtNewline(a', []);
      SplitAtNewline(a', b);
      assert SplitLines([]) == [""];
      ClassifyAllAppend(SplitLines(a'), [""], parse);
      ClassifyAllAppend(SplitLines(a'), SplitLines(b), parse);
      var la := ClassifyAll(SplitLines(a'), parse);
      assert ChunkLines(a, parse) == la + [Blank];
      SkippedLineChangesNothing(s, la, Blank, []);
      assert la + [Blank] + [] == la + [Blank];
      assert la + [] == la;
      ReduceAppend(s, la, ClassifyAll(SplitLines(b), parse));
    }
  }

  /** Chunks that all end at line boundaries run together to text that does too. */
  lemma {:induction false} JoinedEndsLine(chunks: seq<string>)
    requires forall k :: 0 <= k < |chunks| ==> EndsLine(chunks[k])
    ensures EndsLine(Joined(chunks))
    decreases |chunks|
  {
    if chunks != [] {
      JoinedEndsLine(chunks[..|chunks| - 1]);
    }
  }

  /**
   * When the reader's chunks are cut at line boundaries, splitting each chunk
   * on its own reads exactly the lines of the whole text.
   */
  lemma {:induction false} ChunksAtLineBoundaries(s: ReplyState, chunks: seq<string>, parse: string -> Option<StreamEvent>)
    requires LineAligned(chunks)
    ensures ProcessChunks(s, chunks, parse) == ProcessChunk(s, Joined(chunks), parse)
    decreases |chunks|
  {
    if chunks == [] {
      assert ChunkLines("", parse) == [Blank];
      assert Reduce(s, [Blank]) == Step(Reduce(s, []), Blank);
    } else {
      var init := chunks[..|chunks| - 1];
      assert LineAligned(init);
      ChunksAtLineBoundaries(s, init, parse);
      JoinedEndsLine(init);
      ChunkAtLineBoundary(s, Joined(init), chunks[|chunks| - 1], parse);
    }
  }

  /** A parser that recognises exactly the line "AB" as the content event "x". */
  function RecogniseAB(line: string): Option<StreamEvent>
  {
    if line == "AB" then Some(Content("x")) else None
  }

  /**
   * A line cut across two chunks is lost: each half is parsed on its own and
   * fails, so the event the whole line carries never reaches the buffer.
   */
  lemma LineCutAcrossChunksIsLost()
    ensures ProcessChunks(Initial, ["AB"], RecogniseAB).buffer == "x"
    ensures ProcessChunks(Initial, ["A", "B"], RecogniseAB).buffer == ""
  {
    var p := RecogniseAB;
    assert SplitLines("") == [""];
    SplitCons('A', "");
    SplitCons('B', "");
    SplitCons('A', "B");
    assert "A" == ['A'] + "" && "B" == ['B'] + "" && "AB" == ['A'] + "B";
    assert !IsBlank("AB") by { assert !IsJsWhitespace("AB"[0]); }
    assert !IsBlank("A") by { assert !IsJsWhitespace("A"[0]); }
    assert !IsBlank("B") by { assert !IsJsWhitespace("B"[0]); }
    assert ChunkLines("AB", p) == [Event(Content("x"))];
    assert ChunkLines("A", p) == [Malformed];
    assert ChunkLines("B", p) == [Malformed];
    assert ["AB"][..0] == [];
    assert ["A", "B"][..1] == ["A"];
    assert ["A"][..0] == [];
    assert [Event(Content("x"))][..0] == [];
    assert [Malformed][..0] == [];
  }
}
