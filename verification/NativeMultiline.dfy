/** Triple-quoted literals: which lines count, how they are dedented and how they are joined. */
module NativeMultiline {
  import opened JsText

  /** `raw.replaceAll("\r\n", "\n")`. */
  function UnixLines(raw: string): string {
    if |raw| >= 2 && raw[0] == '\r' && raw[1] == '\n' then ['\n'] + UnixLines(raw[2..])
    else if raw == [] then []
    else [raw[0]] + UnixLines(raw[1..])
  }

  predicate Blank(line: string) {
    Trim(line) == ""
  }

  function DropFirstBlank(lines: seq<string>): seq<string> {
    if lines != [] && Blank(lines[0]) then lines[1..] else lines
  }

  function DropLastBlank(lines: seq<string>): seq<string> {
    if lines != [] && Blank(lines[|lines| - 1]) then lines[..|lines| - 1] else lines
  }

  predicate IsIndent(c: char) {
    c == ' ' || c == '\t'
  }

  /** The length of the leading spaces and tabs. */
  function Indent(line: string): (n: nat)
    ensures n <= |line|
  {
    if line != [] && IsIndent(line[0]) then 1 + Indent(line[1..]) else 0
  }

  /** The least indent of the lines that are not blank, if there are any. */
  function LeastIndent(lines: seq<string>): int {
    if lines == [] then -1
    else
      var rest := LeastIndent(lines[1..]);
      if Blank(lines[0]) then rest
      else if rest < 0 || Indent(lines[0]) < rest then Indent(lines[0])
      else rest
  }

  function Dedent(lines: seq<string>, n: nat): seq<string> {
    if lines == [] then [] else [lines[0][if n <= |lines[0]| then n else |lines[0]|..]] + Dedent(lines[1..], n)
  }

  function TrailingBackslashes(line: string): (n: nat)
    ensures n <= |line|
  {
    if line != [] && line[|line| - 1] == '\\' then 1 + TrailingBackslashes(line[..|line| - 1]) else 0
  }

  /** A line that an odd number of backslashes joins to the next one. */
  predicate Continues(line: string) {
    TrailingBackslashes(line) % 2 == 1
  }

  function JoinLines(lines: seq<string>): string {
    if lines == [] then ""
    else if |lines| == 1 then lines[0]
    else (if Continues(lines[0]) then lines[0][..|lines[0]| - 1] else lines[0] + "\n") + JoinLines(lines[1..])
  }

  /** `decodeMultilineLiteral`. */
  function Decode(raw: string): string {
    var lines := DropLastBlank(DropFirstBlank(Split(UnixLines(raw), '\n')));
    var least := LeastIndent(lines);
    JoinLines(Dedent(lines, if least < 0 then 0 else least))
  }

  // ---- Printing -------------------------------------------------------------------------------

  predicate AllIndent(w: string) {
    forall i :: 0 <= i < |w| ==> IsIndent(w[i])
  }

  function Indented(lines: seq<string>, w: string): (r: seq<string>)
    ensures |r| == |lines| && forall i :: 0 <= i < |lines| ==> r[i] == w + lines[i]
  {
    seq(|lines|, i requires 0 <= i < |lines| => w + lines[i])
  }

  /** The lines on their own, each indented, as they stand between the triple quotes. */
  function Layout(lines: seq<string>, w: string): string {
    Join([""] + Indented(lines, w) + [w], '\n')
  }

  /** Lines without line terminators, one of which is flush left. */
  predicate Printable(lines: seq<string>) {
    && (forall i :: 0 <= i < |lines| ==> '\n' !in lines[i] && '\r' !in lines[i])
    && (exists i :: 0 <= i < |lines| && !Blank(lines[i]) && Indent(lines[i]) == 0)
  }

  lemma {:induction false} UnixLinesPlain(raw: string)
    requires '\r' !in raw
    ensures UnixLines(raw) == raw
  {
    if raw != [] {
      UnixLinesPlain(raw[1..]);
      assert raw == [raw[0]] + raw[1..];
    }
  }

  lemma {:induction false} JoinHasNo(parts: seq<string>, c: char)
    requires c != '\n' && forall i :: 0 <= i < |parts| ==> c !in parts[i]
    ensures c !in Join(parts, '\n')
  {
    if |parts| > 1 {
      JoinHasNo(parts[1..], c);
    }
  }

  lemma {:induction false} BlankIndent(w: string, line: string)
    requires AllIndent(w)
    ensures Blank(w + line) <==> Blank(line)
    ensures Indent(w + line) == |w| + Indent(line)
  {
    if w == [] {
      assert w + line == line;
    } else {
      assert (w + line)[1..] == w[1..] + line;
      BlankIndent(w[1..], line);
      assert w + line == [w[0]] + (w[1..] + line);
      TrimSkipsLeading(w[0], w[1..] + line);
    }
  }

  lemma {:induction false} LeastOfIndented(lines: seq<string>, w: string)
    requires AllIndent(w)
    ensures LeastIndent(lines) >= -1
    ensures LeastIndent(Indented(lines, w)) == if LeastIndent(lines) < 0 then -1 else |w| + LeastIndent(lines)
  {
    if lines != [] {
      LeastOfIndented(lines[1..], w);
      assert Indented(lines, w)[1..] == Indented(lines[1..], w);
      BlankIndent(w, lines[0]);
    }
  }

  lemma {:induction false} LeastIsZero(lines: seq<string>, i: nat)
    requires i < |lines| && !Blank(lines[i]) && Indent(lines[i]) == 0
    ensures LeastIndent(lines) == 0
  {
    LeastBounds(lines[1..]);
    if i > 0 {
      LeastIsZero(lines[1..], i - 1);
    }
  }

  lemma {:induction false} LeastBounds(lines: seq<string>)
    ensures LeastIndent(lines) >= -1
  {
    if lines != [] {
      LeastBounds(lines[1..]);
    }
  }

  lemma {:induction false} DedentIndented(lines: seq<string>, w: string)
    ensures Dedent(Indented(lines, w), |w|) == lines
  {
    if lines != [] {
      DedentIndented(lines[1..], w);
      assert Indented(lines, w)[1..] == Indented(lines[1..], w);
      assert (w + lines[0])[|w|..] == lines[0];
      assert lines == [lines[0]] + lines[1..];
    }
  }

  lemma LayoutParts(lines: seq<string>, w: string)
    requires Printable(lines) && AllIndent(w)
    ensures Split(UnixLines(Layout(lines, w)), '\n') == [""] + Indented(lines, w) + [w]
  {
    hide UnixLines, Split, Join, Blank, Indent;
    var parts := [""] + Indented(lines, w) + [w];
    forall i | 0 <= i < |parts| ensures '\n' !in parts[i] && '\r' !in parts[i] {
      if 0 < i < |parts| - 1 {
        assert parts[i] == w + lines[i - 1];
      }
    }
    JoinHasNo(parts, '\r');
    UnixLinesPlain(Layout(lines, w));
    SplitJoin(parts, '\n');
  }

  lemma OuterLinesDropped(lines: seq<string>, w: string)
    requires AllIndent(w)
    ensures DropLastBlank(DropFirstBlank([""] + lines + [w])) == lines
  {
    BlankIndent(w, "");
    assert w + "" == w;
    hide Blank;
    assert Blank("") by { BlankNothing(); }
    assert ([""] + lines + [w])[1..] == lines + [w];
    assert (lines + [w])[..|lines|] == lines;
  }

  lemma BlankNothing()
    ensures Blank("")
  {
  }

  /** Dedenting undoes the layout: what is decoded are the lines, joined, whatever the indentation. */
  lemma {:induction false} DecodeUndoesLayout(lines: seq<string>, w: string)
    requires Printable(lines) && AllIndent(w)
    ensures Decode(Layout(lines, w)) == JoinLines(lines)
  {
    LayoutParts(lines, w);
    OuterLinesDropped(Indented(lines, w), w);
    LeastOfIndented(lines, w);
    var i :| 0 <= i < |lines| && !Blank(lines[i]) && Indent(lines[i]) == 0;
    LeastIsZero(lines, i);
    DedentIndented(lines, w);
  }

  /** Without continued lines the joined lines are just the lines. */
  lemma {:induction false} JoinLinesPlain(lines: seq<string>)
    requires forall i :: 0 <= i < |lines| ==> !Continues(lines[i])
    ensures JoinLines(lines) == Join(lines, '\n')
  {
    if |lines| > 1 {
      JoinLinesPlain(lines[1..]);
    }
  }

  function Backslashes(n: nat): (r: string)
    ensures |r| == n
  {
    if n == 0 then "" else Backslashes(n - 1) + "\\"
  }

  lemma {:induction false} BackslashesCounted(x: string, n: nat)
    requires x == "" || x[|x| - 1] != '\\'
    ensures TrailingBackslashes(x + Backslashes(n)) == n
  {
    if n == 0 {
      assert x + "" == x;
    } else {
      BackslashesCounted(x, n - 1);
      assert (x + Backslashes(n))[..|x| + n - 1] == x + Backslashes(n - 1);
    }
  }

  /** A line that ends in an odd number of backslashes runs on into the next without the last of them; any other
      line is followed by a line feed. */
  lemma {:induction false} LineRunsOn(x: string, n: nat, rest: seq<string>)
    requires (x == "" || x[|x| - 1] != '\\') && rest != []
    ensures JoinLines([x + Backslashes(n)] + rest) ==
      if n % 2 == 1 then x + Backslashes(n - 1) + JoinLines(rest)
      else x + Backslashes(n) + "\n" + JoinLines(rest)
  {
    BackslashesCounted(x, n);
    var lines := [x + Backslashes(n)] + rest;
    assert lines[1..] == rest;
    if n % 2 == 1 {
      assert (x + Backslashes(n))[..|x| + n - 1] == x + Backslashes(n - 1);
    }
  }

  /** The text as an editor with two-character line ends would save it. */
  function WithCrLf(raw: string): string {
    if raw == [] then [] else (if raw[0] == '\n' then "\r\n" else [raw[0]]) + WithCrLf(raw[1..])
  }

  lemma {:induction false} UnixUndoesCrLf(raw: string)
    requires '\r' !in raw
    ensures UnixLines(WithCrLf(raw)) == raw
  {
    if raw != [] {
      UnixUndoesCrLf(raw[1..]);
      var rest := WithCrLf(raw[1..]);
      if raw[0] == '\n' {
        assert ("\r\n" + rest)[2..] == rest;
      } else {
        assert ([raw[0]] + rest)[1..] == rest;
      }
      assert raw == [raw[0]] + raw[1..];
    }
  }

  /** Line ends of either kind decode alike. */
  lemma {:induction false} LineEndsDecodeAlike(raw: string)
    requires '\r' !in raw
    ensures Decode(WithCrLf(raw)) == Decode(raw)
  {
    UnixUndoesCrLf(raw);
    UnixLinesPlain(raw);
  }
}
