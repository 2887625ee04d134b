/**
 * The newline-delimited event protocol of the streaming endpoint, as the
 * browser reads it (static/script.js, handleStreamRequest): a chunk of text is
 * split on '\n', a line that trims to nothing is skipped, every other line is
 * handed to JSON.parse and dispatched on its `type` field.
 *
 * JSON.parse is not modelled: it is the parameter `parse`, which answers
 * `None` when parsing throws (or the value has no fields to read) and otherwise
 * the event the line denotes.
 */
module StreamProtocol {
  import opened Wrappers

  /**
   * One decoded line. Every field is a string, as generate_stream writes it;
   * a line whose fields are absent or hold other JSON values is not modelled
   * (the README's "Left out" section says how the page treats those).
   */
  datatype StreamEvent =
    | Content(text: string)                                  // "content"
    | Final(text: string)                                    // "final"
    | ToolCall(toolName: string, args: string, toolCallId: string)   // "tool_call"
    | ToolResult(toolCallId: string, result: string)         // "tool_result"
    | Error(message: string)                                 // "error"
    | Other                                                  // any other type, e.g. "start", "end"

  /** A line of a chunk, classified the way the reader loop treats it. */
  datatype Line = Blank | Malformed | Event(event: StreamEvent)

  /** The characters String.prototype.trim removes: white space and line terminators. */
  predicate IsJsWhitespace(c: char) {
    c == '\t' || c == '\n' || c == '\U{B}' || c == '\U{C}' || c == '\r' || c == ' '
    || c == '\U{A0}' || c == '\U{1680}' || ('\U{2000}' <= c <= '\U{200A}')
    || c == '\U{2028}' || c == '\U{2029}' || c == '\U{202F}' || c == '\U{205F}'
    || c == '\U{3000}' || c == '\U{FEFF}'
  }

  /** `!line.trim()`: the line is empty once white space is removed. */
  predicate IsBlank(s: string) {
    forall i :: 0 <= i < |s| ==> IsJsWhitespace(s[i])
  }

  /** `s.split('\n')`: always at least one piece, "" gives [""], a trailing '\n' gives a trailing "". */
  function SplitLines(s: string): (r: seq<string>)
    ensures |r| >= 1
    decreases |s|
  {
    if s == [] then [""]
    else
      var rest := SplitLines(s[1..]);
      if s[0] == '\n' then [""] + rest else [[s[0]] + rest[0]] + rest[1..]
  }

  /** `pieces.join('\n')`, the inverse of SplitLines. */
  function JoinLines(pieces: seq<string>): string
  {
    if pieces == [] then ""
    else if |pieces| == 1 then pieces[0]
    else pieces[0] + "\n" + JoinLines(pieces[1..])
  }

  /** Joining after prefixing the first piece with one character prefixes the joined text. */
  lemma {:induction false} JoinConsFirst(c: char, pieces: seq<string>)
    requires |pieces| >= 1
    ensures JoinLines([[c] + pieces[0]] + pieces[1..]) == [c] + JoinLines(pieces)
  {
    var q := [[c] + pieces[0]] + pieces[1..];
    if |pieces| > 1 {
      assert q[1..] == pieces[1..];
      assert JoinLines(q) == ([c] + pieces[0]) + "\n" + JoinLines(pieces[1..]);
      assert ([c] + pieces[0]) + "\n" + JoinLines(pieces[1..]) == [c] + (pieces[0] + "\n" + JoinLines(pieces[1..]));
    }
  }

  /** Splitting loses nothing: joining the pieces back with '\n' gives the chunk. */
  lemma {:induction false} JoinSplit(s: string)
    ensures JoinLines(SplitLines(s)) == s
    decreases |s|
  {
    if s != [] {
      var rest := SplitLines(s[1..]);
      JoinSplit(s[1..]);
      if s[0] == '\n' {
        assert ([""] + rest)[1..] == rest;
        assert JoinLines(SplitLines(s)) == "" + "\n" + JoinLines(rest);
      } else {
        JoinConsFirst(s[0], rest);
      }
      assert s == [s[0]] + s[1..];
    }
  }

  /** No piece of a split contains the separator. */
  lemma {:induction false} SplitPiecesHaveNoNewline(s: string)
    ensures forall k :: 0 <= k < |SplitLines(s)| ==> '\n' !in SplitLines(s)[k]
    decreases |s|
  {
    if s != [] {
      SplitPiecesHaveNoNewline(s[1..]);
    }
  }

  /** The pieces of a chunk that starts with character `c`, in terms of the pieces of the rest. */
  lemma SplitCons(c: char, s: string)
    ensures SplitLines([c] + s) ==
      if c == '\n' then [""] + SplitLines(s) else [[c] + SplitLines(s)[0]] + SplitLines(s)[1..]
  {
    assert ([c] + s)[1..] == s;
  }

  /** A '\n' in the chunk separates the pieces of what comes before it from those after it. */
  lemma {:induction false} SplitAtNewline(a: string, b: string)
    ensures SplitLines(a + "\n" + b) == SplitLines(a) + SplitLines(b)
    decreases |a|
  {
    if a == [] {
      assert a + "\n" + b == ['\n'] + b;
      SplitCons('\n', b);
    } else {
      SplitAtNewline(a[1..], b);
      if a[0] == '\n' {
        SplitAtNewlineAfterNewline(a, b);
      } else {
        SplitAtNewlineAfterOther(a, b);
      }
    }
  }

  /** The step of SplitAtNewline for a text that starts with '\n'. */
  lemma SplitAtNewlineAfterNewline(a: string, b: string)
    requires a != [] && a[0] == '\n'
    requires SplitLines(a[1..] + "\n" + b) == SplitLines(a[1..]) + SplitLines(b)
    ensures SplitLines(a + "\n" + b) == SplitLines(a) + SplitLines(b)
  {
    var whole := a + "\n" + b;
    assert whole[0] == '\n' && whole[1..] == a[1..] + "\n" + b;
    var r, t := SplitLines(a[1..]), SplitLines(b);
    ConcatAssoc([""], r, t);
  }

  /** The step of SplitAtNewline for a text that starts with any other character. */
  lemma SplitAtNewlineAfterOther(a: string, b: string)
    requires a != [] && a[0] != '\n'
    requires SplitLines(a[1..] + "\n" + b) == SplitLines(a[1..]) + SplitLines(b)
    ensures SplitLines(a + "\n" + b) == SplitLines(a) + SplitLines(b)
  {
    var whole := a + "\n" + b;
    var r, t := SplitLines(a[1..]), SplitLines(b);
    assert whole[0] == a[0];
    assert whole[1..] == a[1..] + "\n" + b;
    ConcatHeadTail(r, t);
    assert SplitLines(whole) == [[a[0]] + r[0]] + (r[1..] + t);
    assert SplitLines(a) == [[a[0]] + r[0]] + r[1..];
    ConcatAssoc([[a[0]] + r[0]], r[1..], t);
  }

  lemma ConcatHeadTail<T>(x: seq<T>, y: seq<T>)
    requires |x| >= 1
    ensures (x + y)[0] == x[0] && (x + y)[1..] == x[1..] + y
  {
  }

  lemma ConcatAssoc<T>(x: seq<T>, y: seq<T>, z: seq<T>)
    ensures x + (y + z) == (x + y) + z
  {
  }

  /** A chunk without a newline is a single piece. */
  lemma {:induction false} SplitWithoutNewline(s: string)
    requires '\n' !in s
    ensures SplitLines(s) == [s]
    decreases |s|
  {
    if s != [] {
      assert '\n' !in s[1..] by {
        forall k | 0 <= k < |s[1..]| ensures s[1..][k] != '\n' {
          assert s[1..][k] == s[k + 1];
        }
      }
      SplitWithoutNewline(s[1..]);
      assert s == [s[0]] + s[1..];
    }
  }

  /** A line followed by its '\n' splits into the line and an empty remainder. */
  lemma TerminatedLine(s: string)
    requires '\n' !in s
    ensures SplitLines(s + "\n") == [s, ""]
  {
    SplitAtNewline(s, "");
    SplitWithoutNewline(s);
    assert s + "\n" + "" == s + "\n";
  }

  /** How the reader loop treats one raw line: trim test first, then JSON.parse. */
  function Classify(raw: string, parse: string -> Option<StreamEvent>): (l: Line)
    ensures l.Blank? <==> IsBlank(raw)
    ensures l.Malformed? <==> !IsBlank(raw) && parse(raw).None?
    ensures !IsBlank(raw) && parse(raw).Some? ==> l == Event(parse(raw).value)
  {
    if IsBlank(raw) then Blank
    else match parse(raw)
      case None => Malformed
      case Some(e) => Event(e)
  }

  /** Classify every line, in order. */
  function ClassifyAll(raws: seq<string>, parse: string -> Option<StreamEvent>): (ls: seq<Line>)
    ensures |ls| == |raws|
    ensures forall k :: 0 <= k < |raws| ==> ls[k] == Classify(raws[k], parse)
  {
    if raws == [] then [] else [Classify(raws[0], parse)] + ClassifyAll(raws[1..], parse)
  }

  /** The classified lines of one chunk, split on its own. */
  function ChunkLines(chunk: string, parse: string -> Option<StreamEvent>): seq<Line>
  {
    ClassifyAll(SplitLines(chunk), parse)
  }
}
