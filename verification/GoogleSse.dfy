/**
  The incremental parser of the Google event stream, against a line-at-a-time reference in the
  manner of section 9.2.5 of the WHATWG HTML Living Standard: a blank line dispatches the data
  lines collected so far.
*/
module GoogleSse {
  import opened Options
  import opened JsText

  // ---- Lines and boundaries -----------------------------------------------------------------

  predicate IsBreak(c: char) {
    c == '\r' || c == '\n'
  }

  predicate Plain(line: string) {
    forall k :: 0 <= k < |line| ==> !IsBreak(line[k])
  }

  /** Length of the line terminator at `i`: CR LF, a CR that no LF follows, or LF; 0 if none. */
  function BreakLength(s: string, i: nat): (n: nat)
    requires i <= |s|
    ensures i + n <= |s| && (n > 0 <==> i < |s| && IsBreak(s[i]))
  {
    if i == |s| then 0
    else if s[i] == '\r' then (if i + 1 < |s| && s[i + 1] == '\n' then 2 else 1)
    else if s[i] == '\n' then 1
    else 0
  }

  function FirstBreak(s: string): (i: nat)
    ensures i <= |s| && (i < |s| ==> IsBreak(s[i]))
    ensures forall k :: 0 <= k < i ==> !IsBreak(s[k])
  {
    if s == [] || IsBreak(s[0]) then 0
    else
      var i := 1 + FirstBreak(s[1..]);
      assert forall k :: 1 <= k < i ==> s[k] == s[1..][k - 1];
      i
  }

  /** `text.split(/\r\n|\n|\r/u)`. */
  function SplitLines(s: string): (lines: seq<string>)
    ensures |lines| > 0
    decreases |s|
  {
    var i := FirstBreak(s);
    if i == |s| then [s] else [s[..i]] + SplitLines(s[i + BreakLength(s, i)..])
  }

  function DataLine(line: string): seq<string> {
    if StartsWith(line, "data:") then [Trim(line[5..])] else []
  }

  function DataLines(lines: seq<string>): seq<string> {
    if lines == [] then [] else DataLine(lines[0]) + DataLines(lines[1..])
  }

  /** The payload of a raw event. */
  function EventData(raw: string): string {
    Join(DataLines(SplitLines(raw)), '\n')
  }

  /** Two terminators in a row start at `i`: a match of the boundary expression. */
  predicate BoundaryAt(s: string, i: nat)
    requires i <= |s|
  {
    BreakLength(s, i) > 0 && BreakLength(s, i + BreakLength(s, i)) > 0
  }

  function BoundaryLength(s: string, i: nat): nat
    requires i <= |s|
  {
    BreakLength(s, i) + BreakLength(s, i + BreakLength(s, i))
  }

  predicate NoBoundary(s: string) {
    forall k :: 0 <= k <= |s| ==> !BoundaryAt(s, k)
  }

  predicate FirstBoundary(s: string, i: nat) {
    i <= |s| && BoundaryAt(s, i) && forall k :: 0 <= k < i ==> !BoundaryAt(s, k)
  }

  /** Runs the boundary expression: the leftmost match, if any. */
  method FindBoundary(s: string) returns (r: Option<nat>)
    ensures r.None? ==> NoBoundary(s)
    ensures r.Some? ==> FirstBoundary(s, r.value)
  {
    var i := 0;
    while i < |s|
      invariant i <= |s|
      invariant forall k :: 0 <= k < i ==> !BoundaryAt(s, k)
    {
      if BoundaryAt(s, i) {
        return Some(i);
      }
      i := i + 1;
    }
    return None;
  }

  // ---- The reference ------------------------------------------------------------------------

  /** What a text dispatches: the payloads in order, the data lines still undispatched at its end,
      and the trimmed text after the last blank line. */
  datatype Frames = Frames(payloads: seq<string>, pending: seq<string>, bare: string)

  function Emit(data: string, f: Frames): Frames {
    if data == "" || data == "[DONE]" then f else f.(payloads := [data] + f.payloads)
  }

  /** Reads one line at a time. */
  function Dispatch(text: string, pending: seq<string>, since: string): Frames
    decreases |text|
  {
    var i := FirstBreak(text);
    if i == |text| then Frames([], pending + DataLine(text), Trim(since + text))
    else
      var next := i + BreakLength(text, i);
      if i == 0 then Emit(Join(pending, '\n'), Dispatch(text[next..], [], ""))
      else Dispatch(text[next..], pending + DataLine(text[..i]), since + text[..next])
  }

  // ---- Reading one line ---------------------------------------------------------------------

  /** A complete line terminator, given the text that follows it. */
  predicate Terminates(t: string, rest: string) {
    || (|t| == 2 && t[0] == '\r' && t[1] == '\n')
    || (|t| == 1 && t[0] == '\n')
    || (|t| == 1 && t[0] == '\r' && !(rest != [] && rest[0] == '\n'))
  }

  /** The text `s` is a first line, its terminator and the rest. */
  predicate Cut(s: string, line: string, t: string, rest: string) {
    s == line + t + rest && Plain(line) && Terminates(t, rest)
  }

  lemma CutFirstBreak(s: string, line: string, t: string, rest: string)
    requires Cut(s, line, t, rest)
    ensures FirstBreak(s) == |line| && BreakLength(s, |line|) == |t|
    ensures s[..|line|] == line && s[|line| + |t|..] == rest && s[..|line| + |t|] == line + t
  {
    assert forall k :: 0 <= k < |line| ==> s[k] == line[k];
    assert s[|line|] == t[0];
    assert |t| == 2 ==> s[|line| + 1] == t[1];
    assert rest != [] ==> s[|line| + |t|] == rest[0];
  }

  /** Cuts a text with a terminator after its first line. */
  lemma {:induction false} CutLine(s: string) returns (line: string, t: string, rest: string)
    requires FirstBreak(s) < |s|
    ensures Cut(s, line, t, rest) && |line| == FirstBreak(s) && |t| == BreakLength(s, |line|)
    ensures rest == s[|line| + |t|..]
  {
    var i := FirstBreak(s);
    var n := i + BreakLength(s, i);
    line, t, rest := s[..i], s[i..n], s[n..];
    assert rest != [] ==> rest[0] == s[n];
    assert s == line + t + rest;
  }

  /** The reference on a text whose first line is known. */
  lemma {:induction false} DispatchLine(s: string, line: string, t: string, rest: string, pending: seq<string>, since: string)
    requires Cut(s, line, t, rest)
    ensures line == "" ==>
      Dispatch(s, pending, since) == Emit(Join(pending, '\n'), Dispatch(rest, [], ""))
    ensures line != "" ==>
      Dispatch(s, pending, since) == Dispatch(rest, pending + DataLine(line), since + (line + t))
  {
    CutFirstBreak(s, line, t, rest);
  }

  lemma SplitFirst(s: string, line: string, t: string, rest: string)
    requires Cut(s, line, t, rest)
    ensures DataLines(SplitLines(s)) == DataLine(line) + DataLines(SplitLines(rest))
  {
    CutFirstBreak(s, line, t, rest);
    assert SplitLines(s) == [line] + SplitLines(rest);
    assert SplitLines(s)[1..] == SplitLines(rest);
  }

  lemma SplitSingle(line: string)
    requires Plain(line)
    ensures DataLines(SplitLines(line)) == DataLine(line)
  {
    assert SplitLines(line)[1..] == [];
    assert DataLine(line) + [] == DataLine(line);
  }

  lemma SplitEmpty()
    ensures DataLines(SplitLines("")) == [] && DataLine("") == []
  {
    SplitSingle("");
  }

  // ---- Events of a buffer that more text may follow -----------------------------------------

  lemma BreakShift(s: string, a: nat, k: nat)
    requires a + k <= |s|
    ensures BreakLength(s[a..], k) == BreakLength(s, a + k)
  {
  }

  lemma BoundaryShift(s: string, a: nat, k: nat)
    requires a + k <= |s|
    ensures BoundaryAt(s[a..], k) == BoundaryAt(s, a + k)
    ensures BoundaryLength(s[a..], k) == BoundaryLength(s, a + k)
  {
    BreakShift(s, a, k);
    BreakShift(s, a, k + BreakLength(s, a + k));
  }

  lemma ShiftBoundary(b: string, i: nat, n: nat)
    requires FirstBoundary(b, i) && n <= i
    ensures FirstBoundary(b[n..], i - n) && AfterBoundary(b[n..], i - n) == AfterBoundary(b, i)
  {
    BoundaryShift(b, n, i - n);
    forall k | 0 <= k < i - n ensures !BoundaryAt(b[n..], k) {
      BoundaryShift(b, n, k);
      assert !BoundaryAt(b, n + k);
    }
  }

  /** What is left of a buffer after a boundary. */
  function AfterBoundary(b: string, i: nat): string
    requires i <= |b| && BoundaryAt(b, i)
  {
    b[i + BoundaryLength(b, i)..]
  }

  /** A first boundary beyond the first line starts no earlier than the second line, and that line
      is not blank. */
  lemma InnerBreak(b: string, i: nat)
    requires FirstBoundary(b, i) && FirstBreak(b) < i
    ensures var n := FirstBreak(b) + BreakLength(b, FirstBreak(b));
      n < i && !IsBreak(b[n])
  {
    assert !BoundaryAt(b, FirstBreak(b));
  }

  /** A CR at the end of a buffer whose LF is still to come: the pair is one blank line of the
      whole text, and the LF alone would be another blank line with nothing pending. */
  lemma SplitCrLf(x: string, pending: seq<string>, since: string)
    requires x != [] && x[0] == '\n'
    ensures Dispatch("\r" + x, pending, since) == Emit(Join(pending, '\n'), Dispatch(x, [], ""))
  {
    assert Cut("\r" + x, "", "\r\n", x[1..]);
    DispatchLine("\r" + x, "", "\r\n", x[1..], pending, since);
    assert Cut(x, "", "\n", x[1..]);
    DispatchLine(x, "", "\n", x[1..], [], "");
  }

  /** A blank line dispatches what is pending. The rest of the buffer then dispatches on its own,
      even when the terminator was a CR at the end of the buffer and its LF is still to come. */
  lemma BlankLine(s: string, t: string, rest: string, x: string, pending: seq<string>, since: string)
    requires Terminates(t, rest) && s == t + rest + x
    ensures Dispatch(s, pending, since) == Emit(Join(pending, '\n'), Dispatch(rest + x, [], ""))
  {
    if Terminates(t, rest + x) {
      CutNothing(s, t, rest, x);
      DispatchLine(s, "", t, rest + x, pending, since);
    } else {
      LostLf(s, t, rest, x);
      SplitCrLf(x, pending, since);
    }
  }

  lemma CutNothing(s: string, t: string, rest: string, x: string)
    requires Terminates(t, rest + x) && s == t + rest + x
    ensures Cut(s, "", t, rest + x)
  {
    assert "" + t + (rest + x) == t + rest + x;
  }

  lemma LostLf(s: string, t: string, rest: string, x: string)
    requires Terminates(t, rest) && !Terminates(t, rest + x) && s == t + rest + x
    ensures rest + x == x && s == "\r" + x && x != [] && x[0] == '\n'
  {
  }

  /** A line stays the first line when the text after its terminator grows. */
  lemma CutExtends(b: string, line: string, t: string, rest: string, x: string)
    requires Cut(b, line, t, rest) && rest != []
    ensures Cut(b + x, line, t, rest + x)
  {
    assert (rest + x)[0] == rest[0];
  }

  lemma CutPrefix(b: string, line: string, t: string, rest: string, i: nat)
    requires Cut(b, line, t, rest) && |line| + |t| < i <= |b|
    ensures Cut(b[..i], line, t, rest[..i - |line| - |t|])
  {
  }

  /** Cuts a text that starts with a terminator. */
  lemma CutTerminator(s: string) returns (t: string, rest: string)
    requires s != [] && IsBreak(s[0])
    ensures s == t + rest && Terminates(t, rest) && rest == s[BreakLength(s, 0)..]
  {
    var n := BreakLength(s, 0);
    t, rest := s[..n], s[n..];
  }

  /** Cuts a buffer whose first line is followed by a blank one. */
  lemma CutBlank(b: string) returns (line: string, t: string, after: string, t2: string, rest: string)
    requires FirstBoundary(b, FirstBreak(b))
    ensures Cut(b, line, t, after) && after != [] && after == t2 + rest && Terminates(t2, rest)
    ensures line == b[..FirstBreak(b)] && rest == AfterBoundary(b, FirstBreak(b))
  {
    line, t, after := CutLine(b);
    var n := |line| + |t|;
    BreakShift(b, n, 0);
    t2, rest := CutTerminator(after);
    assert b[n..][BreakLength(after, 0)..] == b[n + BreakLength(after, 0)..];
    CutFirstBreak(b, line, t, after);
  }

  /** The first event when it is a single line. */
  lemma {:induction false} ExtractHere(b: string, x: string, pending: seq<string>, since: string)
    requires FirstBoundary(b, FirstBreak(b)) && (pending == [] || !IsBreak(b[0]))
    ensures Dispatch(b + x, pending, since) ==
      Emit(Join(pending + DataLines(SplitLines(b[..FirstBreak(b)])), '\n'),
           Dispatch(AfterBoundary(b, FirstBreak(b)) + x, [], ""))
  {
    var line, t, after, t2, rest := CutBlank(b);
    SplitSingle(line);
    CutExtends(b, line, t, after, x);
    DispatchLine(b + x, line, t, after + x, pending, since);
    if line == "" {
      BlankLine(after + x, t2, rest, x, [], "");
      SplitEmpty();
    } else {
      BlankLine(after + x, t2, rest, x, pending + DataLine(line), since + (line + t));
    }
  }

  /** Cuts a buffer whose first boundary lies beyond its first line. */
  lemma {:induction false} CutInner(b: string, i: nat) returns (line: string, t: string, b1: string)
    requires FirstBoundary(b, i) && FirstBreak(b) < i
    ensures Cut(b, line, t, b1) && |line| + |t| < i && b1 == b[|line| + |t|..] && b1 != []
    ensures !IsBreak(b1[0]) && (line == "" <==> IsBreak(b[0]))
  {
    line, t, b1 := CutLine(b);
    InnerBreak(b, i);
  }

  lemma {:induction false} InnerData(b: string, i: nat, line: string, t: string, b1: string)
    requires Cut(b, line, t, b1) && |line| + |t| < i <= |b|
    ensures DataLines(SplitLines(b[..i])) ==
      DataLine(line) + DataLines(SplitLines(b1[..i - |line| - |t|]))
  {
    CutPrefix(b, line, t, b1, i);
    SplitFirst(b[..i], line, t, b1[..i - |line| - |t|]);
  }

  /** One more line before the boundary. */
  lemma {:induction false} ExtractStep(
    b: string, x: string, i: nat, line: string, t: string, b1: string,
    pending: seq<string>, since: string, later: Frames)
    requires Cut(b, line, t, b1) && b1 != [] && |line| + |t| < i <= |b| && (line != "" || pending == [])
    requires line == "" ==>
      Dispatch(b1 + x, [], "") == Emit(Join([] + DataLines(SplitLines(b1[..i - |line| - |t|])), '\n'), later)
    requires line != "" ==>
      Dispatch(b1 + x, pending + DataLine(line), since + (line + t)) ==
      Emit(Join(pending + DataLine(line) + DataLines(SplitLines(b1[..i - |line| - |t|])), '\n'), later)
    ensures Dispatch(b + x, pending, since) ==
      Emit(Join(pending + DataLines(SplitLines(b[..i])), '\n'), later)
  {
    InnerData(b, i, line, t, b1);
    CutExtends(b, line, t, b1, x);
    DispatchLine(b + x, line, t, b1 + x, pending, since);
    AddLine(pending, DataLine(line), DataLines(SplitLines(b1[..i - |line| - |t|])));
    SplitEmpty();
  }

  /** Extracting the first event of a buffer: the data lines before the boundary are dispatched
      together, whatever text follows the buffer. */
  lemma {:induction false} ExtractPending(b: string, x: string, i: nat, pending: seq<string>, since: string)
    requires FirstBoundary(b, i) && (pending == [] || !IsBreak(b[0]))
    ensures Dispatch(b + x, pending, since) ==
      Emit(Join(pending + DataLines(SplitLines(b[..i])), '\n'), Dispatch(AfterBoundary(b, i) + x, [], ""))
    decreases |b|
  {
    hide Dispatch, Join, Emit, SplitLines, DataLines;
    if FirstBreak(b) == i {
      ExtractHere(b, x, pending, since);
    } else {
      var line, t, b1 := CutInner(b, i);
      var n := |line| + |t|;
      ShiftBoundary(b, i, n);
      if line == "" {
        ExtractPending(b1, x, i - n, [], "");
      } else {
        ExtractPending(b1, x, i - n, pending + DataLine(line), since + (line + t));
      }
      ExtractStep(b, x, i, line, t, b1, pending, since, Dispatch(AfterBoundary(b, i) + x, [], ""));
    }
  }

  /** Removing the first event from a buffer commutes with the text still to be read. */
  lemma {:induction false} ExtractEvent(b: string, x: string, i: nat)
    requires FirstBoundary(b, i)
    ensures Dispatch(b + x, [], "") == Emit(EventData(b[..i]), Dispatch(AfterBoundary(b, i) + x, [], ""))
  {
    ExtractPending(b, x, i, [], "");
    assert [] + DataLines(SplitLines(b[..i])) == DataLines(SplitLines(b[..i]));
  }

  // ---- A buffer without a boundary ----------------------------------------------------------

  lemma {:induction false} RemainderShift(b: string, n: nat)
    requires NoBoundary(b) && n <= |b|
    ensures NoBoundary(b[n..])
  {
    forall k | 0 <= k <= |b| - n ensures !BoundaryAt(b[n..], k) {
      BoundaryShift(b, n, k);
    }
  }

  lemma {:induction false} AddLine(pending: seq<string>, data: seq<string>, rest: seq<string>)
    ensures pending + data + rest == pending + (data + rest)
  {
  }

  /** The line after the first one is not blank. */
  lemma {:induction false} NextNotBlank(b: string, n: nat)
    requires NoBoundary(b) && FirstBreak(b) < |b| && n == FirstBreak(b) + BreakLength(b, FirstBreak(b))
    ensures b[n..] == [] || !IsBreak(b[n..][0])
  {
    assert !BoundaryAt(b, FirstBreak(b));
  }

  lemma {:induction false} RemainderInside(b: string, pending: seq<string>, since: string)
    requires NoBoundary(b) && (b == [] || !IsBreak(b[0]))
    ensures Dispatch(b, pending, since) == Frames([], pending + DataLines(SplitLines(b)), Trim(since + b))
    decreases |b|
  {
    if FirstBreak(b) == |b| {
      SplitSingle(b);
    } else {
      var line, t, rest := CutLine(b);
      NextNotBlank(b, |line| + |t|);
      RemainderShift(b, |line| + |t|);
      DispatchLine(b, line, t, rest, pending, since);
      RemainderInside(rest, pending + DataLine(line), since + (line + t));
      SplitFirst(b, line, t, rest);
      AddLine(pending, DataLine(line), DataLines(SplitLines(rest)));
      assert since + (line + t) + rest == since + b;
    }
  }

  /** A buffer without a boundary dispatches nothing; what is left is its data lines and its
      trimmed text. */
  lemma {:induction false} Remainder(b: string)
    requires NoBoundary(b)
    ensures Dispatch(b, [], "") == Frames([], DataLines(SplitLines(b)), Trim(b))
  {
    if b == [] || !IsBreak(b[0]) {
      RemainderInside(b, [], "");
      assert [] + DataLines(SplitLines(b)) == DataLines(SplitLines(b));
      assert "" + b == b;
    } else {
      RemainderBlank(b);
    }
  }

  lemma {:induction false} RemainderBlank(b: string)
    requires NoBoundary(b) && b != [] && IsBreak(b[0])
    ensures Dispatch(b, [], "") == Frames([], DataLines(SplitLines(b)), Trim(b))
  {
    var line, t, rest := CutLine(b);
    NextNotBlank(b, |t|);
    RemainderShift(b, |t|);
    DispatchLine(b, "", t, rest, [], "");
    RemainderInside(rest, [], "");
    SplitFirst(b, "", t, rest);
    SplitEmpty();
    AddLine([], [], DataLines(SplitLines(rest)));
    assert "" + rest == rest && b == t + rest;
    TrimTerminator(t, rest);
  }

  lemma {:induction false} TrimTerminator(t: string, rest: string)
    requires Terminates(t, rest)
    ensures Trim(t + rest) == Trim(rest)
  {
    if |t| == 2 {
      TrimSkipsLeading('\r', "\n" + rest);
      TrimSkipsLeading('\n', rest);
      assert ['\r'] + ("\n" + rest) == t + rest;
    } else {
      TrimSkipsLeading(t[0], rest);
      assert [t[0]] + rest == t + rest;
    }
  }

  // ---- What the generator yields and how it ends --------------------------------------------

  /** The outcome of `JSON.parse` on a payload: not JSON, a record with an error record, or a chunk. */
  datatype Parsed<T> = Invalid | ErrorRecord(value: T) | Chunk(value: T)

  datatype Verdict<T> = Ended | MalformedJson | IncompleteFrame | ProviderFailed(value: T)

  datatype Outcome<T> = Outcome(chunks: seq<T>, verdict: Verdict<T>)

  /** The verdict on what is left when the stream ends. */
  function EndVerdict<T>(data: string, bare: string, parse: string -> Parsed<T>): Verdict<T> {
    var payload := if data != "" then data else bare;
    if payload == "" || (data == "" && !StartsWith(payload, "{")) then Ended
    else
      match parse(payload)
      case ErrorRecord(v) => ProviderFailed(v)
      case _ => IncompleteFrame
  }

  /** A chunk is yielded and the stream goes on; anything else ends it. */
  function Continue<T>(parsed: Parsed<T>, later: Outcome<T>): Outcome<T> {
    match parsed
    case Invalid => Outcome([], MalformedJson)
    case ErrorRecord(v) => Outcome([], ProviderFailed(v))
    case Chunk(v) => later.(chunks := [v] + later.chunks)
  }

  /** The chunks and verdict that a text means. */
  function Interpret<T>(f: Frames, parse: string -> Parsed<T>): Outcome<T>
    decreases |f.payloads|
  {
    if f.payloads == [] then Outcome([], EndVerdict(Join(f.pending, '\n'), f.bare, parse))
    else Continue(parse(f.payloads[0]), Interpret(f.(payloads := f.payloads[1..]), parse))
  }

  /** The reference meaning of a decoded stream. */
  function Reference<T>(text: string, parse: string -> Parsed<T>): Outcome<T> {
    Interpret(Dispatch(text, [], ""), parse)
  }

  function After<T>(chunks: seq<T>, later: Outcome<T>): Outcome<T> {
    later.(chunks := chunks + later.chunks)
  }

  lemma {:induction false} InterpretEmit<T>(data: string, f: Frames, parse: string -> Parsed<T>)
    ensures Interpret(Emit(data, f), parse) ==
      if data == "" || data == "[DONE]" then Interpret(f, parse)
      else Continue(parse(data), Interpret(f, parse))
  {
    var g := f.(payloads := [data] + f.payloads);
    assert g.(payloads := g.payloads[1..]) == f;
  }

  /** Removing the first event of a buffer, in terms of what the stream means. */
  lemma {:induction false} ReferenceStep<T>(b: string, x: string, i: nat, parse: string -> Parsed<T>)
    requires FirstBoundary(b, i)
    ensures var data, later := EventData(b[..i]), Reference(AfterBoundary(b, i) + x, parse);
      Reference(b + x, parse) ==
        if data == "" || data == "[DONE]" then later else Continue(parse(data), later)
  {
    ExtractEvent(b, x, i);
    InterpretEmit(EventData(b[..i]), Dispatch(AfterBoundary(b, i) + x, [], ""), parse);
  }

  lemma {:induction false} AfterChunk<T>(chunks: seq<T>, v: T, later: Outcome<T>)
    ensures After(chunks, Continue(Chunk(v), later)) == After(chunks + [v], later)
  {
    assert chunks + ([v] + later.chunks) == chunks + [v] + later.chunks;
  }

  function Concat(pieces: seq<string>): string {
    if pieces == [] then "" else pieces[0] + Concat(pieces[1..])
  }

  /** What the parser relies on: an error record prints to one trimmed line that parses back. */
  ghost predicate PrintsErrors<T(!new)>(parse: string -> Parsed<T>, toJson: T -> string) {
    forall text :: parse(text).ErrorRecord? ==>
      var line := toJson(parse(text).value);
      && Plain(line) && Trimmed(line) && line != "" && line != "[DONE]"
      && parse(line) == parse(text)
  }

  /** An event that neither fails nor ends the stream. */
  ghost predicate Harmless<T>(raw: string, parse: string -> Parsed<T>) {
    var data := EventData(raw);
    data == "" || data == "[DONE]" || parse(data).Chunk?
  }

  /** A frame of one data line, such as the one built around a trailing error record. */
  lemma {:induction false} OneLineFrame(json: string, frame: string)
    requires Plain(json) && Trimmed(json) && json != "" && frame == "data: " + json + "\n\n"
    ensures FirstBoundary(frame, 6 + |json|) && EventData(frame[..6 + |json|]) == json
  {
    var line := "data: " + json;
    var i := |line|;
    assert Plain("data: ");
    assert Plain(line);
    assert frame[..i] == line;
    assert frame[i] == '\n' && frame[i + 1] == '\n';
    assert forall k :: 0 <= k < i ==> frame[k] == line[k];
    SplitSingle(line);
    assert line[..5] == "data:" && line[5..] == [' '] + json;
    TrimSkipsLeading(' ', json);
    TrimmedIsFixed(json);
    assert DataLine(line) == [json];
  }

  /** Yields the chunks of every complete event of the buffer; the rest of the stream is `x`. */
  method DrainBuffer<T(!new)>(buffer0: string, parse: string -> Parsed<T>, ghost x: string)
    returns (buffer: string, chunks: seq<T>, failure: Option<Verdict<T>>)
    ensures failure.None? ==>
      NoBoundary(buffer) && Reference(buffer0 + x, parse) == After(chunks, Reference(buffer + x, parse))
    ensures failure.Some? ==> Reference(buffer0 + x, parse) == Outcome(chunks, failure.value)
    ensures failure.None? ==> forall i: nat :: FirstBoundary(buffer0, i) ==> Harmless(buffer0[..i], parse)
  {
    hide Reference, EventData;
    buffer, chunks, failure := buffer0, [], None;
    var boundary := FindBoundary(buffer);
    while boundary.Some?
      invariant boundary.None? ==> NoBoundary(buffer)
      invariant boundary.Some? ==> FirstBoundary(buffer, boundary.value)
      invariant Reference(buffer0 + x, parse) == After(chunks, Reference(buffer + x, parse))
      invariant buffer == buffer0 || forall i: nat :: FirstBoundary(buffer0, i) ==> Harmless(buffer0[..i], parse)
      decreases |buffer|
    {
      var i := boundary.value;
      ReferenceStep(buffer, x, i, parse);
      var rawEvent := buffer[..i];
      var data := EventData(rawEvent);
      buffer := AfterBoundary(buffer, i);
      boundary := FindBoundary(buffer);
      if data == "" || data == "[DONE]" {
        continue;
      }
      match parse(data) {
        case Invalid => return buffer, chunks, Some(MalformedJson);
        case ErrorRecord(v) => return buffer, chunks, Some(ProviderFailed(v));
        case Chunk(v) =>
          AfterChunk(chunks, v, Reference(buffer + x, parse));
          chunks := chunks + [v];
      }
    }
  }

  lemma {:induction false} NoBoundaryExtends(b: string, flush: string)
    requires NoBoundary(b) && Plain(flush)
    ensures NoBoundary(b + flush)
  {
    var s := b + flush;
    forall k | 0 <= k <= |s| ensures !BoundaryAt(s, k) {
      if k < |b| {
        assert !BoundaryAt(b, k);
        assert s[k] == b[k] && (k + 1 < |b| ==> s[k + 1] == b[k + 1]) && (k + 2 < |b| ==> s[k + 2] == b[k + 2]);
        assert k + 1 >= |b| && k + 1 < |s| ==> s[k + 1] == flush[k + 1 - |b|];
        assert k + 2 >= |b| && k + 2 < |s| ==> s[k + 2] == flush[k + 2 - |b|];
      } else if k < |s| {
        assert s[k] == flush[k - |b|];
      }
    }
  }

  lemma {:induction false} ReferenceEnd<T>(b: string, parse: string -> Parsed<T>)
    requires NoBoundary(b)
    ensures Reference(b, parse) == Outcome([], EndVerdict(EventData(b), Trim(b), parse))
  {
    Remainder(b);
  }

  lemma {:induction false} ConcatNext(pieces: seq<string>, k: nat, flush: string, buffer: string)
    requires k < |pieces|
    ensures buffer + (Concat(pieces[k..]) + flush) == (buffer + pieces[k]) + (Concat(pieces[k + 1..]) + flush)
  {
    assert pieces[k..][1..] == pieces[k + 1..];
  }

  lemma {:induction false} AfterAfter<T>(xs: seq<T>, ys: seq<T>, later: Outcome<T>)
    ensures After(xs, After(ys, later)) == After(xs + ys, later)
  {
    assert xs + (ys + later.chunks) == xs + ys + later.chunks;
  }

  /**
    The parser: whatever pieces the decoded stream arrives in, it yields the chunks of the reference
    on the whole text, in order, and ends with the same verdict. `flush` is what the decoder holds
    back until the end (a replacement character at most, so no line terminator).
  */
  method ParseGoogleSseChunks<T(!new)>(
    pieces: seq<string>, flush: string, parse: string -> Parsed<T>, toJson: T -> string)
    returns (chunks: seq<T>, verdict: Verdict<T>)
    requires Plain(flush) && PrintsErrors(parse, toJson)
    ensures Outcome(chunks, verdict) == Reference(Concat(pieces) + flush, parse)
  {
    hide Reference, EventData, EndVerdict;
    var buffer := "";
    chunks := [];
    var k := 0;
    assert "" + (Concat(pieces[0..]) + flush) == Concat(pieces) + flush;
    while true
      invariant k <= |pieces| && NoBoundary(buffer)
      invariant Reference(Concat(pieces) + flush, parse) ==
        After(chunks, Reference(buffer + (Concat(pieces[k..]) + flush), parse))
      decreases |pieces| - k
    {
      if k == |pieces| {
        assert buffer + (Concat(pieces[k..]) + flush) == buffer + flush;
        NoBoundaryExtends(buffer, flush);
        buffer := buffer + flush;
        ReferenceEnd(buffer, parse);
        verdict := ReadTrailing(buffer, parse, toJson);
        return;
      }
      ConcatNext(pieces, k, flush, buffer);
      buffer := buffer + pieces[k];
      k := k + 1;
      var rest, more, failure := DrainBuffer(buffer, parse, Concat(pieces[k..]) + flush);
      ghost var total := chunks;
      chunks := chunks + more;
      if failure.Some? {
        verdict := failure.value;
        return;
      }
      AfterAfter(total, more, Reference(rest + (Concat(pieces[k..]) + flush), parse));
      buffer := rest;
    }
  }

  /** The end of the stream: an undelimited provider error is framed and read like any event. */
  method ReadTrailing<T(!new)>(buffer: string, parse: string -> Parsed<T>, toJson: T -> string)
    returns (verdict: Verdict<T>)
    requires PrintsErrors(parse, toJson)
    ensures verdict == EndVerdict(EventData(buffer), Trim(buffer), parse)
  {
    var data := EventData(buffer);
    var payload := if data != "" then data else Trim(buffer);
    if payload == "" || (data == "" && !StartsWith(payload, "{")) {
      return Ended;
    }
    if !parse(payload).ErrorRecord? {
      return IncompleteFrame;
    }
    var v := parse(payload).value;
    var frame := "data: " + toJson(v) + "\n\n";
    OneLineFrame(toJson(v), frame);
    var i := 6 + |toJson(v)|;
    ReferenceStep(frame, "", i, parse);
    var _, _, failure := DrainBuffer(frame, parse, "");
    assert frame + "" == frame;
    if failure.None? {
      assert false;
    }
    return failure.value;
  }

  /** Any two ways of cutting the decoded text into reads give the same chunks and the same verdict;
      a single read of the whole text is one of them. */
  method ParseTwice<T(!new)>(
    pieces: seq<string>, others: seq<string>, flush: string, parse: string -> Parsed<T>, toJson: T -> string)
    returns (one: Outcome<T>, two: Outcome<T>)
    requires Plain(flush) && PrintsErrors(parse, toJson) && Concat(pieces) == Concat(others)
    ensures one == two
  {
    var chunks, verdict := ParseGoogleSseChunks(pieces, flush, parse, toJson);
    one := Outcome(chunks, verdict);
    chunks, verdict := ParseGoogleSseChunks(others, flush, parse, toJson);
    two := Outcome(chunks, verdict);
  }

  // ---- Reading back a written stream --------------------------------------------------------

  predicate Writable(payload: string) {
    Plain(payload) && Trimmed(payload) && payload != "" && payload != "[DONE]"
  }

  /** A server's stream of one-line events. */
  function WriteEvents(payloads: seq<string>): string {
    if payloads == [] then "" else "data: " + payloads[0] + "\n\n" + WriteEvents(payloads[1..])
  }

  /** Reading what a server wrote gives its payloads back, with nothing left over. */
  lemma {:induction false} WriteThenDispatch(payloads: seq<string>)
    requires forall i :: 0 <= i < |payloads| ==> Writable(payloads[i])
    ensures Dispatch(WriteEvents(payloads), [], "") == Frames(payloads, [], "")
  {
    if payloads == [] {
      assert "" + "" == "";
    } else {
      var frame := "data: " + payloads[0] + "\n\n";
      var later := WriteEvents(payloads[1..]);
      OneLineFrame(payloads[0], frame);
      ExtractEvent(frame, later, 6 + |payloads[0]|);
      assert AfterBoundary(frame, 6 + |payloads[0]|) + later == later;
      WriteThenDispatch(payloads[1..]);
      assert WriteEvents(payloads) == frame + later;
    }
  }
}
