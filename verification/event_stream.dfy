/** The text framing of the event stream: each JSON-encoded event is sent as one
    `data:` line followed by a blank line, the format of section 9.2 (server-sent
    events) of the WHATWG HTML Living Standard. The decoder is the standard's
    line-by-line interpretation, restricted to LF line endings. */
module EventStream {
  import opened Text

  /** `f"data: {payload}\n\n"`. */
  function Frame(payload: string): string {
    "data: " + payload + "\n\n"
  }

  function FrameAll(payloads: seq<string>): string {
    if |payloads| == 0 then "" else Frame(payloads[0]) + FrameAll(payloads[1..])
  }

  /** A frame is the payload between the `data: ` prefix and the blank line. */
  lemma FrameShape(payload: string)
    ensures var r := Frame(payload);
      |r| == |payload| + 8 && r[6..|r| - 2] == payload &&
      StartsWith(r, "data: ") && EndsWith(r, "\n\n")
  {
    ConcatEdges("data: ", payload, "\n\n");
  }

  /** Frames sent one after another: empty exactly when there is nothing to send, and
      otherwise starting with the first frame and ending on the blank line that closes
      the last. */
  lemma {:induction false} FrameAllShape(payloads: seq<string>)
    ensures var r := FrameAll(payloads);
      |r| >= 8 * |payloads| && (|payloads| == 0 <==> r == "") &&
      (|payloads| > 0 ==> StartsWith(r, Frame(payloads[0])) && EndsWith(r, "\n\n"))
    decreases |payloads|
  {
    if |payloads| > 0 {
      var f := Frame(payloads[0]);
      var rest := FrameAll(payloads[1..]);
      FrameShape(payloads[0]);
      FrameAllShape(payloads[1..]);
      assert FrameAll(payloads) == f + rest;
      assert (f + rest)[..|f|] == f;
      if |rest| > 0 {
        assert (f + rest)[|f + rest| - 2..] == rest[|rest| - 2..];
      } else {
        assert f + rest == f;
      }
    }
  }

  /** The value of a field line: the text after the first colon, minus one leading
      space. */
  function FieldValue(line: string): string
    requires ':' in line
  {
    var v := line[IndexOf(line, ':') + 1..];
    if |v| > 0 && v[0] == ' ' then v[1..] else v
  }

  /** Interpreting complete lines: a `data` field appends its value and LF to the data
      buffer; a blank line dispatches the buffer without its final LF, unless it is
      empty; comments (a leading colon) and other fields change nothing here. */
  function DecodeLines(lines: seq<string>, buffer: string): seq<string>
    decreases |lines|
  {
    if |lines| == 0 then []
    else
      var line := lines[0];
      if line == "" then
        if buffer == "" then DecodeLines(lines[1..], "")
        else [buffer[..|buffer| - 1]] + DecodeLines(lines[1..], "")
      else if line[0] == ':' then DecodeLines(lines[1..], buffer)
      else
        var field := FirstSegment(line, ':');
        var value := if ':' in line then FieldValue(line) else "";
        if field == "data" then DecodeLines(lines[1..], buffer + value + "\n")
        else DecodeLines(lines[1..], buffer)
  }

  /** The data of the events a client receives from the stream text; the unterminated
      last line is discarded, as at the end of the stream. */
  function Decode(text: string): (r: seq<string>)
    ensures '\n' !in text ==> r == []
  {
    var lines := Split(text, '\n');
    DecodeLines(lines[..|lines| - 1], "")
  }

  lemma SplitFrame(p: string, rest: string)
    requires '\n' !in p
    ensures Split(Frame(p) + rest, '\n') == ["data: " + p, ""] + Split(rest, '\n')
  {
    var a := "data: " + p;
    var b := ['\n'] + rest;
    DataLineHasNoLineFeed(p);
    FrameConcat(p, rest);
    SplitAfterLine(a, b);
    assert "" + ['\n'] + rest == b;
    SplitAfterLine("", rest);
    assert [a] + ([""] + Split(rest, '\n')) == [a, ""] + Split(rest, '\n');
  }

  lemma DataLineHasNoLineFeed(p: string)
    requires '\n' !in p
    ensures '\n' !in "data: " + p
  {
    var a := "data: " + p;
    forall k | 0 <= k < |a|
      ensures a[k] != '\n'
    {
      if k >= 6 {
        assert a[k] == p[k - 6];
      }
    }
  }

  lemma FrameConcat(p: string, rest: string)
    ensures Frame(p) + rest == ("data: " + p) + ['\n'] + (['\n'] + rest)
  {
    assert "\n\n" == ['\n'] + ['\n'];
  }

  /** A line without LF followed by LF splits off as one part. */
  lemma SplitAfterLine(a: string, b: string)
    requires '\n' !in a
    ensures Split(a + ['\n'] + b, '\n') == [a] + Split(b, '\n')
  {
    SplitAround(a, '\n', b);
  }

  lemma DataLine(p: string)
    ensures var line := "data: " + p;
      line != "" && line[0] != ':' && ':' in line &&
      FirstSegment(line, ':') == "data" && FieldValue(line) == p
  {
    var line := "data: " + p;
    assert line[4] == ':';
    assert ':' !in line[..4];
    IndexOfUnique(line, ':', 4);
    assert line[5..] == " " + p;
  }

  /** The complete lines of the framed payloads: a data line and a blank line each. */
  function FramedLines(ps: seq<string>): (r: seq<string>)
    ensures |r| == 2 * |ps|
  {
    if |ps| == 0 then [] else ["data: " + ps[0], ""] + FramedLines(ps[1..])
  }

  lemma {:induction false} SplitFrameAll(ps: seq<string>)
    requires forall k :: 0 <= k < |ps| ==> '\n' !in ps[k]
    ensures Split(FrameAll(ps), '\n') == FramedLines(ps) + [""]
    decreases |ps|
  {
    if |ps| == 0 {
      assert Split("", '\n') == [""];
    } else {
      SplitFrameAll(ps[1..]);
      SplitFrame(ps[0], FrameAll(ps[1..]));
    }
  }

  lemma {:induction false} DecodeFramedLines(ps: seq<string>)
    ensures DecodeLines(FramedLines(ps), "") == ps
    decreases |ps|
  {
    if |ps| > 0 {
      DataLine(ps[0]);
      var lines := FramedLines(ps);
      var rest := FramedLines(ps[1..]);
      assert lines[1..][1..] == rest;
      var buffer := "" + ps[0] + "\n";
      assert DecodeLines(lines, "") == DecodeLines(lines[1..], buffer);
      assert buffer[..|buffer| - 1] == ps[0];
      DecodeFramedLines(ps[1..]);
      assert [ps[0]] + ps[1..] == ps;
    }
  }

  /** A client decoding the framed stream receives exactly the payloads, in order, as
      long as no payload contains a line feed; `json.dumps` escapes line feeds inside
      strings, so an encoded event never does. */
  lemma DecodeFrameAll(ps: seq<string>)
    requires forall k :: 0 <= k < |ps| ==> '\n' !in ps[k]
    ensures Decode(FrameAll(ps)) == ps
  {
    var text := FrameAll(ps);
    var lines := Split(text, '\n');
    SplitFrameAll(ps);
    assert lines[..|lines| - 1] == FramedLines(ps);
    DecodeFramedLines(ps);
  }
}
