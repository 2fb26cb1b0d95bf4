/**
  What the streams that a server writes mean, stated by the lines it writes: complete events of data and other
  lines under any of the three line terminators, and a tail that no blank line follows.
*/
module GoogleSseStreams {
  import opened Options
  import opened JsText
  import opened GoogleSse

  /** A data line with white space before its payload, or a line of another field or a comment. */
  datatype Line = Data(pad: string, payload: string) | Noise(text: string)

  datatype Event = Event(lines: seq<Line>, terminator: string)

  predicate Blank(pad: string) {
    forall k :: 0 <= k < |pad| ==> IsSpace(pad[k])
  }

  predicate GoodLine(l: Line) {
    match l
    case Data(pad, payload) => Blank(pad) && Plain(pad) && Plain(payload) && Trimmed(payload)
    case Noise(text) => text != "" && Plain(text) && !StartsWith(text, "data:")
  }

  predicate GoodEvent(e: Event) {
    && (e.terminator == "\r\n" || e.terminator == "\n" || e.terminator == "\r")
    && e.lines != [] && forall k :: 0 <= k < |e.lines| ==> GoodLine(e.lines[k])
  }

  function TextOf(l: Line): string {
    match l
    case Data(pad, payload) => "data:" + (pad + payload)
    case Noise(text) => text
  }

  function WriteLines(lines: seq<Line>, terminator: string): string {
    if lines == [] then "" else TextOf(lines[0]) + terminator + WriteLines(lines[1..], terminator)
  }

  /** An event ends with a blank line. */
  function WriteStream(events: seq<Event>): string {
    if events == [] then ""
    else WriteLines(events[0].lines, events[0].terminator) + (events[0].terminator + WriteStream(events[1..]))
  }

  function PayloadsOf(lines: seq<Line>): seq<string> {
    if lines == [] then [] else (if lines[0].Data? then [lines[0].payload] else []) + PayloadsOf(lines[1..])
  }

  /** The payloads that are read: an event's data lines joined, unless they say nothing or that all is done. */
  function Messages(events: seq<Event>): seq<string> {
    if events == [] then []
    else
      var data := Join(PayloadsOf(events[0].lines), '\n');
      (if data == "" || data == "[DONE]" then [] else [data]) + Messages(events[1..])
  }

  // ---- Lines ----------------------------------------------------------------------------------

  lemma {:induction false} TrimSkipsPad(pad: string, s: string)
    requires Blank(pad) && Trimmed(s)
    ensures Trim(pad + s) == s
  {
    if pad == "" {
      assert pad + s == s;
      TrimmedIsFixed(s);
    } else {
      assert [pad[0]] + (pad[1..] + s) == pad + s;
      TrimSkipsLeading(pad[0], pad[1..] + s);
      TrimSkipsPad(pad[1..], s);
    }
  }

  lemma {:induction false} LineIsRead(l: Line)
    requires GoodLine(l)
    ensures Plain(TextOf(l)) && TextOf(l) != "" && !IsBreak(TextOf(l)[0])
    ensures DataLine(TextOf(l)) == if l.Data? then [l.payload] else []
  {
    if l.Data? {
      assert TextOf(l)[5..] == l.pad + l.payload;
      TrimSkipsPad(l.pad, l.payload);
      assert Plain("data:");
    }
  }

  /** The reference reads complete lines one by one. */
  lemma {:induction false} LinesAreRead(lines: seq<Line>, t: string, rest: string, pending: seq<string>, since: string)
    requires (forall k :: 0 <= k < |lines| ==> GoodLine(lines[k])) && (t == "\r\n" || t == "\n" || t == "\r")
    requires lines != [] && t == "\r" ==> rest == "" || rest[0] != '\n'
    ensures Dispatch(WriteLines(lines, t) + rest, pending, since) ==
      Dispatch(rest, pending + PayloadsOf(lines), since + WriteLines(lines, t))
  {
    if lines == [] {
      assert WriteLines(lines, t) + rest == rest;
      assert pending + [] == pending && since + "" == since;
    } else {
      var line, later := TextOf(lines[0]), WriteLines(lines[1..], t);
      LineIsRead(lines[0]);
      var s := WriteLines(lines, t) + rest;
      assert s == line + t + (later + rest);
      if lines[1..] != [] {
        LineIsRead(lines[1]);
        assert (later + rest)[0] == TextOf(lines[1])[0];
      } else {
        assert later + rest == rest;
      }
      assert Cut(s, line, t, later + rest);
      hide Dispatch, DataLine, WriteLines;
      DispatchLine(s, line, t, later + rest, pending, since);
      LinesAreRead(lines[1..], t, rest, pending + DataLine(line), since + (line + t));
      ReadSoFar(lines, t, pending, since);
    }
  }

  lemma ReadSoFar(lines: seq<Line>, t: string, pending: seq<string>, since: string)
    requires lines != [] && GoodLine(lines[0])
    ensures pending + DataLine(TextOf(lines[0])) + PayloadsOf(lines[1..]) == pending + PayloadsOf(lines)
    ensures since + (TextOf(lines[0]) + t) + WriteLines(lines[1..], t) == since + WriteLines(lines, t)
  {
    LineIsRead(lines[0]);
    hide DataLine, TextOf;
    Assoc(pending, DataLine(TextOf(lines[0])), PayloadsOf(lines[1..]));
    Assoc(since, TextOf(lines[0]) + t, WriteLines(lines[1..], t));
  }

  lemma Assoc<T>(a: seq<T>, b: seq<T>, c: seq<T>)
    ensures a + b + c == a + (b + c)
  {
  }

  // ---- Events ---------------------------------------------------------------------------------

  lemma {:induction false} EventIsRead(e: Event, rest: string)
    requires GoodEvent(e) && (rest == "" || !IsBreak(rest[0]))
    ensures Dispatch(WriteLines(e.lines, e.terminator) + (e.terminator + rest), [], "") ==
      Emit(Join(PayloadsOf(e.lines), '\n'), Dispatch(rest, [], ""))
  {
    var t := e.terminator;
    hide Dispatch, WriteLines, PayloadsOf, Join, GoodLine;
    var data, written := PayloadsOf(e.lines), WriteLines(e.lines, t);
    LinesAreRead(e.lines, t, t + rest, [], "");
    assert Cut(t + rest, "", t, rest);
    DispatchLine(t + rest, "", t, rest, [] + data, "" + written);
    assert [] + data == data;
  }

  lemma WriteCons(events: seq<Event>, x: string)
    requires events != []
    ensures WriteStream(events) + x ==
      WriteLines(events[0].lines, events[0].terminator) + (events[0].terminator + (WriteStream(events[1..]) + x))
  {
    hide WriteLines;
    Assoc(WriteLines(events[0].lines, events[0].terminator), events[0].terminator + WriteStream(events[1..]), x);
    Assoc(events[0].terminator, WriteStream(events[1..]), x);
  }

  lemma EmitMore(data: string, more: seq<string>, f: Frames)
    ensures Emit(data, f.(payloads := more + f.payloads)) ==
      f.(payloads := (if data == "" || data == "[DONE]" then [] else [data]) + more + f.payloads)
  {
    Assoc([data], more, f.payloads);
    assert [] + more == more;
  }

  lemma FirstWritten(events: seq<Event>)
    requires events != [] && GoodEvent(events[0])
    ensures WriteStream(events) != "" && !IsBreak(WriteStream(events)[0])
  {
    LineIsRead(events[0].lines[0]);
  }

  /** Every complete event is dispatched; what follows is read on its own. */
  lemma {:induction false} StreamIsRead(events: seq<Event>, x: string)
    requires (forall k :: 0 <= k < |events| ==> GoodEvent(events[k])) && (x == "" || !IsBreak(x[0]))
    ensures var f := Dispatch(x, [], "");
      Dispatch(WriteStream(events) + x, [], "") == f.(payloads := Messages(events) + f.payloads)
  {
    if events == [] {
      assert WriteStream(events) + x == x;
      assert [] + Dispatch(x, [], "").payloads == Dispatch(x, [], "").payloads;
    } else {
      var e, later := events[0], WriteStream(events[1..]);
      if events[1..] != [] {
        FirstWritten(events[1..]);
      } else {
        assert later + x == x;
      }
      WriteCons(events, x);
      hide Dispatch, WriteStream, WriteLines, Join, Emit, GoodEvent;
      EventIsRead(e, later + x);
      StreamIsRead(events[1..], x);
      EmitMore(Join(PayloadsOf(e.lines), '\n'), Messages(events[1..]), Dispatch(x, [], ""));
    }
  }

  /** A tail: lines that no blank line follows, the last of them perhaps not terminated. */
  function WriteTail(lines: seq<Line>, terminator: string, ended: bool): string {
    if ended || lines == [] then WriteLines(lines, terminator)
    else WriteLines(lines[..|lines| - 1], terminator) + TextOf(lines[|lines| - 1])
  }

  lemma {:induction false} PayloadsSnoc(lines: seq<Line>, l: Line)
    ensures PayloadsOf(lines + [l]) == PayloadsOf(lines) + if l.Data? then [l.payload] else []
  {
    if lines == [] {
      assert ([] + [l])[1..] == [];
    } else {
      PayloadsSnoc(lines[1..], l);
      assert (lines + [l])[1..] == lines[1..] + [l];
    }
  }

  lemma {:induction false} TailIsRead(lines: seq<Line>, t: string, ended: bool)
    requires (forall k :: 0 <= k < |lines| ==> GoodLine(lines[k])) && (t == "\r\n" || t == "\n" || t == "\r")
    ensures var x := WriteTail(lines, t, ended);
      Dispatch(x, [], "") == Frames([], PayloadsOf(lines), Trim(x)) && (x == "" || !IsBreak(x[0]))
  {
    var whole, last := lines, "";
    if !ended && lines != [] {
      whole, last := lines[..|lines| - 1], TextOf(lines[|lines| - 1]);
      LineIsRead(lines[|lines| - 1]);
      PayloadsSnoc(whole, lines[|lines| - 1]);
      assert whole + [lines[|lines| - 1]] == lines;
    }
    var x := WriteLines(whole, t) + last;
    assert WriteTail(lines, t, ended) == x by {
      assert WriteLines(lines, t) + "" == WriteLines(lines, t);
    }
    FirstOfTail(whole, t, last);
    NoBreak(last);
    hide WriteLines, PayloadsOf, DataLine, Trim, TextOf, WriteTail;
    LinesAreRead(whole, t, last, [], "");
    assert [] + PayloadsOf(whole) == PayloadsOf(whole) && "" + WriteLines(whole, t) == WriteLines(whole, t);
    NoData();
    assert PayloadsOf(whole) + [] == PayloadsOf(whole);
  }

  lemma NoBreak(last: string)
    requires Plain(last)
    ensures FirstBreak(last) == |last|
  {
  }

  lemma FirstOfTail(lines: seq<Line>, t: string, last: string)
    requires (forall k :: 0 <= k < |lines| ==> GoodLine(lines[k])) && Plain(last)
    ensures var x := WriteLines(lines, t) + last; x == "" || !IsBreak(x[0])
  {
    if lines != [] {
      LineIsRead(lines[0]);
    }
  }

  lemma NoData()
    ensures DataLine("") == []
  {
  }

  // ---- What a stream means ----------------------------------------------------------------------

  /** How a stream ends whose events were all chunks: with the provider's error or an incomplete frame where the
      tail holds data or a bare JSON object, else well. */
  predicate EndsAs<T(==)>(verdict: Verdict<T>, data: string, bare: string, parse: string -> Parsed<T>) {
    if data != "" then
      if parse(data).ErrorRecord? then verdict == ProviderFailed(parse(data).value) else verdict == IncompleteFrame
    else if StartsWith(bare, "{") then
      if parse(bare).ErrorRecord? then verdict == ProviderFailed(parse(bare).value) else verdict == IncompleteFrame
    else verdict == Ended
  }

  lemma {:induction false} InterpretUntil<T>(f: Frames, k: nat, parse: string -> Parsed<T>)
    requires k <= |f.payloads| && forall j :: 0 <= j < k ==> parse(f.payloads[j]).Chunk?
    ensures var r := Interpret(f, parse);
      (k == |f.payloads| || !parse(f.payloads[k]).Chunk? ==>
        && |r.chunks| == k && (forall j :: 0 <= j < k ==> r.chunks[j] == parse(f.payloads[j]).value)
        && (k < |f.payloads| && parse(f.payloads[k]).Invalid? ==> r.verdict == MalformedJson)
        && (k < |f.payloads| && parse(f.payloads[k]).ErrorRecord? ==>
              r.verdict == ProviderFailed(parse(f.payloads[k]).value))
        && (k == |f.payloads| ==> EndsAs(r.verdict, Join(f.pending, '\n'), f.bare, parse)))
    decreases k
  {
    if k > 0 {
      hide EndsAs, EndVerdict, Join;
      var g := f.(payloads := f.payloads[1..]);
      InterpretUntil(g, k - 1, parse);
      assert k < |f.payloads| ==> g.payloads[k - 1] == f.payloads[k];
    }
  }

  /** A stream of events and a tail yields the chunks of its messages, one each in order, up to the first that is
      no chunk; that one decides the verdict, and where all are chunks the tail does. */
  lemma {:induction false} StreamMeans<T>(
    events: seq<Event>, lines: seq<Line>, t: string, ended: bool, parse: string -> Parsed<T>, k: nat)
    requires forall i :: 0 <= i < |events| ==> GoodEvent(events[i])
    requires (forall i :: 0 <= i < |lines| ==> GoodLine(lines[i])) && (t == "\r\n" || t == "\n" || t == "\r")
    requires var ms := Messages(events);
      k <= |ms| && (forall j :: 0 <= j < k ==> parse(ms[j]).Chunk?) && (k < |ms| ==> !parse(ms[k]).Chunk?)
    ensures var tail, ms := WriteTail(lines, t, ended), Messages(events);
      var r := Reference(WriteStream(events) + tail, parse);
      && |r.chunks| == k && (forall j :: 0 <= j < k ==> r.chunks[j] == parse(ms[j]).value)
      && (k < |ms| && parse(ms[k]).Invalid? ==> r.verdict == MalformedJson)
      && (k < |ms| && parse(ms[k]).ErrorRecord? ==> r.verdict == ProviderFailed(parse(ms[k]).value))
      && (k == |ms| ==> EndsAs(r.verdict, Join(PayloadsOf(lines), '\n'), Trim(tail), parse))
  {
    hide Dispatch, WriteTail, WriteStream, Interpret, EndsAs, Join, Trim, PayloadsOf, Messages, GoodLine, GoodEvent;
    var tail, ms := WriteTail(lines, t, ended), Messages(events);
    TailIsRead(lines, t, ended);
    StreamIsRead(events, tail);
    var f := Frames(ms, PayloadsOf(lines), Trim(tail));
    assert ms + [] == ms;
    assert Dispatch(WriteStream(events) + tail, [], "") == f;
    InterpretUntil(f, k, parse);
  }
}
