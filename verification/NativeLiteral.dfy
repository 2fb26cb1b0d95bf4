/**
  String literals of the native apps: the scanner that reads a Swift or Kotlin literal, and the printer
  it inverts.
*/
module NativeLiteral {
  import opened Options
  import opened JsText
  import NativeMultiline

  datatype Surface = Apple | Android

  datatype Literal = Literal(end: nat, value: string)

  function Opening(surface: Surface): char {
    if surface.Apple? then '(' else '{'
  }

  function Closing(surface: Surface): char {
    if surface.Apple? then ')' else '}'
  }

  function Marker(surface: Surface): char {
    if surface.Apple? then '\\' else '$'
  }

  function InterpolationStart(surface: Surface): string {
    [Marker(surface), Opening(surface)]
  }

  function From(source: string, index: nat): string {
    if index <= |source| then source[index..] else ""
  }

  function Shift(r: Option<nat>, offset: nat): Option<nat> {
    if r.Some? then Some(r.value + offset) else None
  }

  function ShiftLiteral(r: Option<Literal>, offset: nat, prefix: string): Option<Literal> {
    if r.Some? then Some(Literal(r.value.end + offset, prefix + r.value.value)) else None
  }

  // ---- The closing delimiter ------------------------------------------------------------------

  /** Scanner state: nesting depth, inside a quoted string, after a backslash in one. */
  datatype Scan = Scan(depth: int, quoted: bool, escaped: bool)

  /** The character that brings the depth back to zero. */
  predicate Ends(st: Scan, c: char, opening: char, closing: char) {
    !st.escaped && !st.quoted && c != '"' && c != opening && c == closing && st.depth == 1
  }

  function Next(st: Scan, c: char, opening: char, closing: char): Scan {
    if st.escaped then st.(escaped := false)
    else if st.quoted && c == '\\' then st.(escaped := true)
    else if c == '"' then st.(quoted := !st.quoted)
    else if st.quoted then st
    else if c == opening then st.(depth := st.depth + 1)
    else if c == closing then st.(depth := st.depth - 1)
    else st
  }

  /** Where the delimiter that brings the depth back to zero is, if there is one. */
  function Close(s: string, opening: char, closing: char, st: Scan): (r: Option<nat>)
    ensures r.Some? ==> r.value < |s| && s[r.value] == closing
  {
    if s == [] then None
    else if Ends(st, s[0], opening, closing) then Some(0)
    else Shift(Close(s[1..], opening, closing, Next(st, s[0], opening, closing)), 1)
  }

  /** One character of the scan, seen from the whole source. */
  lemma CloseAt(source: string, index: nat, opening: char, closing: char, st: Scan)
    requires index < |source|
    ensures Shift(Close(From(source, index), opening, closing, st), index) ==
      if Ends(st, source[index], opening, closing) then Some(index)
      else Shift(Close(From(source, index + 1), opening, closing, Next(st, source[index], opening, closing)), index + 1)
  {
    assert source[index..][1..] == source[index + 1..];
  }

  method FindClosingDelimiter(source: string, openingIndex: nat, opening: char, closing: char)
    returns (r: Option<nat>)
    ensures r == Shift(Close(From(source, openingIndex), opening, closing, Scan(0, false, false)), openingIndex)
  {
    hide Shift, From;
    var depth, quoted, escaped := 0, false, false;
    var index := openingIndex;
    while index < |source|
      invariant openingIndex <= index
      invariant Shift(Close(From(source, openingIndex), opening, closing, Scan(0, false, false)), openingIndex)
             == Shift(Close(From(source, index), opening, closing, Scan(depth, quoted, escaped)), index)
    {
      hide Close;
      var character := source[index];
      CloseAt(source, index, opening, closing, Scan(depth, quoted, escaped));
      if escaped {
        escaped := false;
      } else if quoted && character == '\\' {
        escaped := true;
      } else if character == '"' {
        quoted := !quoted;
      } else if quoted {
      } else if character == opening {
        depth := depth + 1;
      } else if character == closing {
        depth := depth - 1;
        if depth == 0 {
          return Some(index);
        }
      }
      index := index + 1;
    }
    NothingLeft(source, index);
    return None;
  }

  lemma NothingLeft(source: string, index: nat)
    requires index >= |source|
    ensures From(source, index) == ""
    ensures forall opening, closing, st :: Shift(Close("", opening, closing, st), index) == None
    ensures forall surface, prefix :: ShiftLiteral(ReadBody(surface, ""), index, prefix) == None
  {
  }

  // ---- One literal ----------------------------------------------------------------------------

  function Unescape(surface: Surface, next: char): string {
    if next == 'n' then "\n" else if next == 'r' then "\r" else if next == 't' then "\t"
    else if next == '"' || next == '\\' || (surface.Android? && next == '$') then [next]
    else ['\\', next]
  }

  /** Reads from just after the opening quote; `end` is just past the closing one. */
  function ReadBody(surface: Surface, s: string): (r: Option<Literal>)
    ensures r.Some? ==> 0 < r.value.end <= |s|
    decreases |s|
  {
    if s == [] then None
    else if StartsWith(s, InterpolationStart(surface)) then
      var end := Close(s[1..], Opening(surface), Closing(surface), Scan(0, false, false));
      if end.None? then None
      else ShiftLiteral(ReadBody(surface, s[end.value + 2..]), end.value + 2, s[..end.value + 2])
    else if s[0] == '\\' then
      if |s| == 1 then None else ShiftLiteral(ReadBody(surface, s[2..]), 2, Unescape(surface, s[1]))
    else if s[0] == '"' then Some(Literal(1, ""))
    else ShiftLiteral(ReadBody(surface, s[1..]), 1, [s[0]])
  }

  /** `text.indexOf('"""')`. */
  function IndexOfTriple(s: string): (r: Option<nat>)
    ensures r.Some? ==> r.value + 3 <= |s|
  {
    if |s| < 3 then None
    else if StartsWith(s, "\"\"\"") then Some(0)
    else Shift(IndexOfTriple(s[1..]), 1)
  }

  /** No triple quote stands before the one that is found, and none anywhere if none is found. */
  lemma {:induction false} IndexOfTripleIsFirst(s: string, j: nat)
    requires j <= |s|
    ensures var r := IndexOfTriple(s);
      && (r.Some? ==> StartsWith(s[r.value..], "\"\"\"") && (j < r.value ==> !StartsWith(s[j..], "\"\"\"")))
      && (r.None? ==> !StartsWith(s[j..], "\"\"\""))
  {
    if |s| >= 3 && !StartsWith(s, "\"\"\"") {
      IndexOfTripleIsFirst(s[1..], if j > 0 then j - 1 else 0);
      assert j > 0 ==> s[1..][j - 1..] == s[j..];
      var r := IndexOfTriple(s[1..]);
      assert r.Some? ==> s[1..][r.value..] == s[r.value + 1..];
    }
  }

  /** `readMultilineStringLiteral`. */
  function ReadMultiline(source: string, openingQuote: nat): (r: Option<Literal>)
    ensures r.Some? ==> openingQuote + 6 <= r.value.end <= |source|
    ensures var close := IndexOfTriple(From(source, openingQuote + 3));
      r.Some? ==> close.Some? && r.value.end == openingQuote + 3 + close.value + 3
  {
    if !StartsWith(From(source, openingQuote), "\"\"\"") then None
    else
      var body := From(source, openingQuote + 3);
      var close := IndexOfTriple(body);
      if close.None? then None else Some(Literal(openingQuote + close.value + 6, NativeMultiline.Decode(body[..close.value])))
  }

  function ReadLiteral(surface: Surface, source: string, openingQuote: nat)
    : (r: Option<Literal>)
    ensures r.Some? ==> openingQuote < r.value.end <= |source|
  {
    var s := From(source, openingQuote);
    if StartsWith(s, "\"\"\"") then ReadMultiline(source, openingQuote)
    else if !StartsWith(s, "\"") then None
    else
      ShiftLiteral(ReadBody(surface, s[1..]), openingQuote + 1, "")
  }

  method ReadNativeStringLiteral(surface: Surface, source: string, openingQuote: nat)
    returns (r: Option<Literal>)
    ensures r == ReadLiteral(surface, source, openingQuote)
  {
    hide ReadMultiline, From, ReadBody, ShiftLiteral, StartsWith, InterpolationStart, Unescape, Opening, Closing;
    var multiline := ReadMultiline(source, openingQuote);
    var here := From(source, openingQuote);
    MultilineIsTriple(source, openingQuote);
    if multiline.Some? || !StartsWith(here, "\"") || StartsWith(here, "\"\"\"") {
      return multiline;
    }
    var raw := "";
    var index := openingQuote + 1;
    StartBody(surface, source, openingQuote);
    while index < |source|
      invariant openingQuote < index <= |source|
      invariant ReadLiteral(surface, source, openingQuote)
             == ShiftLiteral(ReadBody(surface, From(source, index)), index, raw)
      decreases |source| - index
    {
      hide ReadLiteral;
      var character := source[index];
      if StartsWith(From(source, index), InterpolationStart(surface)) {
        var end := FindClosingDelimiter(source, index + 1, Opening(surface), Closing(surface));
        ReadAtInterpolation(surface, source, index, raw, end);
        if end.None? {
          return None;
        }
        raw := raw + source[index..end.value + 1];
        index := end.value;
      } else if character == '\\' {
        ReadAtBackslash(surface, source, index, raw);
        if index + 1 >= |source| {
          return None;
        }
        var next := source[index + 1];
        UnescapeCases(surface, next);
        if next == 'n' {
          raw := raw + "\n";
        } else if next == 'r' {
          raw := raw + "\r";
        } else if next == 't' {
          raw := raw + "\t";
        } else if next == '"' || next == '\\' || (surface.Android? && next == '$') {
          raw := raw + [next];
        } else {
          raw := raw + ([character] + [next]);
        }
        index := index + 1;
      } else if character == '"' {
        ReadAtOther(surface, source, index, raw);
        return Some(Literal(index + 1, raw));
      } else {
        ReadAtOther(surface, source, index, raw);
        raw := raw + [character];
      }
      index := index + 1;
    }
    NothingLeft(source, index);
    return None;
  }

  lemma UnescapeCases(surface: Surface, next: char)
    ensures next == 'n' ==> Unescape(surface, next) == "\n"
    ensures next == 'r' ==> Unescape(surface, next) == "\r"
    ensures next == 't' ==> Unescape(surface, next) == "\t"
    ensures next == '"' || next == '\\' || (surface.Android? && next == '$') ==> Unescape(surface, next) == [next]
    ensures next !in {'n', 'r', 't', '"', '\\'} && !(surface.Android? && next == '$') ==>
      Unescape(surface, next) == ['\\'] + [next]
  {
  }

  lemma MultilineIsTriple(source: string, openingQuote: nat)
    ensures var here := From(source, openingQuote);
      && (StartsWith(here, "\"\"\"") ==> StartsWith(here, "\""))
      && (!StartsWith(here, "\"\"\"") ==> ReadMultiline(source, openingQuote) == None)
  {
  }

  lemma StartBody(surface: Surface, source: string, openingQuote: nat)
    requires var here := From(source, openingQuote); StartsWith(here, "\"") && !StartsWith(here, "\"\"\"")
    ensures openingQuote < |source|
    ensures ReadLiteral(surface, source, openingQuote)
         == ShiftLiteral(ReadBody(surface, From(source, openingQuote + 1)), openingQuote + 1, "")
  {
    hide ReadBody;
    assert From(source, openingQuote)[1..] == From(source, openingQuote + 1);
  }

  lemma ShiftNone(offset: nat, prefix: string)
    ensures ShiftLiteral(None, offset, prefix) == None
  {
  }

  lemma ReadBodyUnfolds(surface: Surface, s: string)
    requires StartsWith(s, InterpolationStart(surface))
    ensures s != []
    ensures var end := Close(s[1..], Opening(surface), Closing(surface), Scan(0, false, false));
      ReadBody(surface, s) == if end.None? then None
      else ShiftLiteral(ReadBody(surface, s[end.value + 2..]), end.value + 2, s[..end.value + 2])
  {
  }

  lemma {:induction false} ReadAtInterpolation(surface: Surface, source: string, index: nat, raw: string, end: Option<nat>)
    requires index < |source| && StartsWith(From(source, index), InterpolationStart(surface))
    requires end == Shift(Close(From(source, index + 1), Opening(surface), Closing(surface), Scan(0, false, false)), index + 1)
    ensures end.Some? ==> index < end.value < |source|
    ensures ShiftLiteral(ReadBody(surface, From(source, index)), index, raw) ==
      if end.None? then None
      else ShiftLiteral(ReadBody(surface, From(source, end.value + 1)), end.value + 1, raw + source[index..end.value + 1])
  {
    hide StartsWith, InterpolationStart, Close, Opening, Closing, ReadBody, ShiftLiteral;
    var s := From(source, index);
    assert s == source[index..];
    ReadBodyUnfolds(surface, s);
    ShiftNone(index, raw);
    assert s[1..] == From(source, index + 1);
    if end.Some? {
      var n := end.value + 1 - index;
      assert s[..n] == source[index..end.value + 1] && s[n..] == From(source, end.value + 1);
      ShiftTwice(ReadBody(surface, From(source, end.value + 1)), n, s[..n], index, raw);
    }
  }

  lemma ReadAtBackslash(surface: Surface, source: string, index: nat, raw: string)
    requires index < |source| && source[index] == '\\' && !StartsWith(From(source, index), InterpolationStart(surface))
    ensures ShiftLiteral(ReadBody(surface, From(source, index)), index, raw) ==
      if index + 1 >= |source| then None
      else ShiftLiteral(ReadBody(surface, From(source, index + 2)), index + 2, raw + Unescape(surface, source[index + 1]))
  {
    hide StartsWith, InterpolationStart, Close, Unescape;
    var s := From(source, index);
    if index + 1 < |source| {
      assert s[1] == source[index + 1] && s[2..] == From(source, index + 2);
      ShiftTwice(ReadBody(surface, From(source, index + 2)), 2, Unescape(surface, source[index + 1]), index, raw);
    }
  }

  lemma ReadAtOther(surface: Surface, source: string, index: nat, raw: string)
    requires index < |source| && source[index] != '\\' && !StartsWith(From(source, index), InterpolationStart(surface))
    ensures ShiftLiteral(ReadBody(surface, From(source, index)), index, raw) ==
      if source[index] == '"' then Some(Literal(index + 1, raw))
      else ShiftLiteral(ReadBody(surface, From(source, index + 1)), index + 1, raw + [source[index]])
  {
    hide StartsWith, InterpolationStart, Close, Unescape;
    var s := From(source, index);
    assert s[0] == source[index] && s[1..] == From(source, index + 1);
    if source[index] == '"' {
      assert raw + "" == raw;
    } else {
      ShiftTwice(ReadBody(surface, From(source, index + 1)), 1, [source[index]], index, raw);
    }
  }

  lemma ShiftTwice(r: Option<Literal>, offset: nat, prefix: string, more: nat, before: string)
    ensures ShiftLiteral(ShiftLiteral(r, offset, prefix), more, before) == ShiftLiteral(r, offset + more, before + prefix)
  {
    if r.Some? {
      assert before + (prefix + r.value.value) == (before + prefix) + r.value.value;
    }
  }

  // ---- Printing -------------------------------------------------------------------------------

  /** A character of a string quoted inside an interpolation. */
  datatype Quoted = Bare(c: char) | Backslashed(c: char)

  /** What may stand inside an interpolation. */
  datatype Token = Plain(c: char) | Quote(body: seq<Quoted>) | Group(tokens: seq<Token>)

  /** A literal: characters of text, escaped where they have to be or raw, escapes of no meaning, and
      interpolations. */
  datatype Piece = Char(c: char) | Raw(c: char) | Unknown(next: char) | Interpolation(tokens: seq<Token>)

  function PrintQuoted(q: Quoted): string {
    match q
    case Bare(c) => [c]
    case Backslashed(c) => ['\\', c]
  }

  function PrintBody(body: seq<Quoted>): string {
    if body == [] then "" else PrintQuoted(body[0]) + PrintBody(body[1..])
  }

  function PrintToken(surface: Surface, t: Token): string
    decreases t, 1
  {
    match t
    case Plain(c) => [c]
    case Quote(body) => "\"" + PrintBody(body) + "\""
    case Group(tokens) => [Opening(surface)] + PrintTokens(surface, tokens) + [Closing(surface)]
  }

  function PrintTokens(surface: Surface, ts: seq<Token>): string
    decreases ts, 0
  {
    if ts == [] then "" else PrintToken(surface, ts[0]) + PrintTokens(surface, ts[1..])
  }

  /** Plain characters are not delimiters; bare characters neither end nor escape a quoted string. */
  predicate Lexical(surface: Surface, t: Token)
    decreases t, 1
  {
    match t
    case Plain(c) => c != '"' && c != Opening(surface) && c != Closing(surface)
    case Quote(body) => forall i :: 0 <= i < |body| ==> body[i].Bare? ==> body[i].c != '"' && body[i].c != '\\'
    case Group(tokens) => AllLexical(surface, tokens)
  }

  predicate AllLexical(surface: Surface, ts: seq<Token>)
    decreases ts, 0
  {
    ts == [] || (Lexical(surface, ts[0]) && AllLexical(surface, ts[1..]))
  }

  function Escape(surface: Surface, c: char): string {
    if c == '\n' then "\\n" else if c == '\r' then "\\r" else if c == '\t' then "\\t"
    else if c == '"' || c == '\\' || (surface.Android? && c == '$') then ['\\', c]
    else [c]
  }

  function PrintPiece(surface: Surface, p: Piece): string {
    match p
    case Char(c) => Escape(surface, c)
    case Raw(c) => [c]
    case Unknown(next) => ['\\', next]
    case Interpolation(tokens) => [Marker(surface)] + PrintToken(surface, Group(tokens))
  }

  function PrintPieces(surface: Surface, ps: seq<Piece>): string {
    if ps == [] then "" else PrintPiece(surface, ps[0]) + PrintPieces(surface, ps[1..])
  }

  /** Raw text neither ends nor escapes, and a raw `$` of Kotlin opens no interpolation with what follows. */
  predicate Fits(surface: Surface, p: Piece, rest: string) {
    match p
    case Char(_) => true
    case Raw(c) => c != '"' && c != '\\' && (surface.Android? && c == '$' ==> !StartsWith(rest, "{"))
    case Unknown(next) =>
      next !in ['n', 'r', 't', '"', '\\'] && next != (if surface.Apple? then '(' else '$')
    case Interpolation(tokens) => AllLexical(surface, tokens)
  }

  predicate WellFormed(surface: Surface, ps: seq<Piece>) {
    ps == [] || (Fits(surface, ps[0], PrintPieces(surface, ps[1..])) && WellFormed(surface, ps[1..]))
  }

  /** The value of a literal: its text decoded, its interpolations and unknown escapes verbatim. */
  function Value(surface: Surface, ps: seq<Piece>): string {
    if ps == [] then ""
    else (if ps[0].Char? then [ps[0].c] else PrintPiece(surface, ps[0])) + Value(surface, ps[1..])
  }

  function PrintLiteral(surface: Surface, ps: seq<Piece>): string {
    "\"" + PrintPieces(surface, ps) + "\""
  }

  // ---- The scanner crosses balanced text -------------------------------------------------------

  lemma CloseStep(surface: Surface, c: char, rest: string, st: Scan)
    requires !Ends(st, c, Opening(surface), Closing(surface))
    ensures Close([c] + rest, Opening(surface), Closing(surface), st)
         == Shift(Close(rest, Opening(surface), Closing(surface), Next(st, c, Opening(surface), Closing(surface))), 1)
  {
    assert ([c] + rest)[1..] == rest;
  }

  lemma {:induction false} CloseCrossesBody(surface: Surface, body: seq<Quoted>, rest: string, depth: int)
    requires Lexical(surface, Quote(body))
    ensures Close(PrintBody(body) + "\"" + rest, Opening(surface), Closing(surface), Scan(depth, true, false))
         == Shift(Close(rest, Opening(surface), Closing(surface), Scan(depth, false, false)), |PrintBody(body)| + 1)
  {
    hide Close, Opening, Closing;
    var text := PrintBody(body) + "\"" + rest;
    if body == [] {
      assert text == ['"'] + rest;
      CloseStep(surface, '"', rest, Scan(depth, true, false));
    } else {
      var more := PrintBody(body[1..]) + "\"" + rest;
      CloseCrossesBody(surface, body[1..], rest, depth);
      CloseCrossesQuoted(surface, body[0], more, depth);
      assert text == PrintQuoted(body[0]) + more;
    }
  }

  lemma CloseCrossesQuoted(surface: Surface, q: Quoted, rest: string, depth: int)
    requires q.Bare? ==> q.c != '"' && q.c != '\\'
    ensures Close(PrintQuoted(q) + rest, Opening(surface), Closing(surface), Scan(depth, true, false))
         == Shift(Close(rest, Opening(surface), Closing(surface), Scan(depth, true, false)), |PrintQuoted(q)|)
  {
    hide Close, Opening, Closing;
    if q.Bare? {
      CloseStep(surface, q.c, rest, Scan(depth, true, false));
    } else {
      assert PrintQuoted(q) + rest == ['\\'] + ([q.c] + rest);
      CloseStep(surface, '\\', [q.c] + rest, Scan(depth, true, false));
      CloseStep(surface, q.c, rest, Scan(depth, true, true));
    }
  }

  lemma Surrounded(open: char, inner: string, close: char, rest: string)
    ensures [open] + inner + [close] + rest == [open] + (inner + [close] + rest)
    ensures inner + [close] + rest == inner + ([close] + rest)
  {
  }

  lemma {:induction false} CloseCrossesToken(surface: Surface, t: Token, rest: string, depth: int)
    requires Lexical(surface, t) && depth >= 1
    ensures Close(PrintToken(surface, t) + rest, Opening(surface), Closing(surface), Scan(depth, false, false))
         == Shift(Close(rest, Opening(surface), Closing(surface), Scan(depth, false, false)), |PrintToken(surface, t)|)
    decreases t, 1
  {
    hide Close;
    var text := PrintToken(surface, t) + rest;
    match t
    case Plain(c) =>
      CloseStep(surface, c, rest, Scan(depth, false, false));
    case Quote(body) =>
      Surrounded('"', PrintBody(body), '"', rest);
      CloseStep(surface, '"', PrintBody(body) + "\"" + rest, Scan(depth, false, false));
      CloseCrossesBody(surface, body, rest, depth);
    case Group(tokens) =>
      var after := [Closing(surface)] + rest;
      Surrounded(Opening(surface), PrintTokens(surface, tokens), Closing(surface), rest);
      CloseStep(surface, Opening(surface), PrintTokens(surface, tokens) + after, Scan(depth, false, false));
      CloseCrossesTokens(surface, tokens, after, depth + 1);
      CloseStep(surface, Closing(surface), rest, Scan(depth + 1, false, false));
  }

  lemma {:induction false} CloseCrossesTokens(surface: Surface, ts: seq<Token>, rest: string, depth: int)
    requires AllLexical(surface, ts) && depth >= 1
    ensures Close(PrintTokens(surface, ts) + rest, Opening(surface), Closing(surface), Scan(depth, false, false))
         == Shift(Close(rest, Opening(surface), Closing(surface), Scan(depth, false, false)), |PrintTokens(surface, ts)|)
    decreases ts, 0
  {
    hide Close, PrintToken, Lexical, Opening, Closing;
    if ts == [] {
      assert PrintTokens(surface, ts) + rest == rest;
    } else {
      CloseCrossesToken(surface, ts[0], PrintTokens(surface, ts[1..]) + rest, depth);
      CloseCrossesTokens(surface, ts[1..], rest, depth);
      assert PrintTokens(surface, ts) + rest == PrintToken(surface, ts[0]) + (PrintTokens(surface, ts[1..]) + rest);
    }
  }

  /** The closing delimiter of a balanced group is its last character, whatever follows. */
  lemma CloseEndsGroup(surface: Surface, ts: seq<Token>, rest: string)
    requires AllLexical(surface, ts)
    ensures Close(PrintToken(surface, Group(ts)) + rest, Opening(surface), Closing(surface), Scan(0, false, false))
         == Some(|PrintToken(surface, Group(ts))| - 1)
  {
    hide AllLexical, PrintTokens;
    var text := PrintToken(surface, Group(ts)) + rest;
    var after := [Closing(surface)] + rest;
    assert text == [Opening(surface)] + (PrintTokens(surface, ts) + after);
    CloseStep(surface, Opening(surface), PrintTokens(surface, ts) + after, Scan(0, false, false));
    CloseCrossesTokens(surface, ts, after, 1);
  }

  // ---- Only balanced text is crossed -----------------------------------------------------------

  lemma CloseNotEmpty(surface: Surface, s: string, st: Scan)
    requires Close(s, Opening(surface), Closing(surface), st).Some?
    ensures s != []
  {
  }

  lemma QuotedOf(surface: Surface, s: string, depth: int) returns (q: Quoted, rest: string)
    requires s != [] && s[0] != '"'
    requires Close(s, Opening(surface), Closing(surface), Scan(depth, true, false)).Some?
    ensures s == PrintQuoted(q) + rest && |rest| < |s| && (q.Bare? ==> q.c != '"' && q.c != '\\')
  {
    hide Close, Opening, Closing;
    assert s == [s[0]] + s[1..];
    if s[0] == '\\' {
      CloseStep(surface, s[0], s[1..], Scan(depth, true, false));
      CloseNotEmpty(surface, s[1..], Scan(depth, true, true));
      q, rest := Backslashed(s[1]), s[2..];
    } else {
      q, rest := Bare(s[0]), s[1..];
    }
  }

  /** A quoted string that the scanner leaves was printed from some body. */
  lemma {:induction false} BodyOf(surface: Surface, s: string, depth: int) returns (body: seq<Quoted>, rest: string)
    requires Close(s, Opening(surface), Closing(surface), Scan(depth, true, false)).Some?
    ensures Lexical(surface, Quote(body)) && s == PrintBody(body) + "\"" + rest
    decreases |s|
  {
    hide Close, Opening, Closing, PrintQuoted;
    CloseNotEmpty(surface, s, Scan(depth, true, false));
    if s[0] == '"' {
      body, rest := [], s[1..];
      assert s == "\"" + rest;
    } else {
      var q, more := QuotedOf(surface, s, depth);
      CloseCrossesQuoted(surface, q, more, depth);
      var others;
      others, rest := BodyOf(surface, more, depth);
      body := [q] + others;
      assert body[1..] == others;
    }
  }

  lemma {:induction false} TokenOf(surface: Surface, s: string, depth: int) returns (t: Token, rest: string)
    requires depth >= 1 && Close(s, Opening(surface), Closing(surface), Scan(depth, false, false)).Some?
    requires s != [] && s[0] != Closing(surface)
    ensures Lexical(surface, t) && s == PrintToken(surface, t) + rest && |rest| < |s|
    decreases |s|, 0
  {
    hide Close, PrintBody, PrintTokens, AllLexical;
    var c, more := s[0], s[1..];
    assert s == [c] + more;
    CloseStep(surface, c, more, Scan(depth, false, false));
    if c == '"' {
      var body;
      body, rest := BodyOf(surface, more, depth);
      t := Quote(body);
    } else if c == Opening(surface) {
      var ts;
      ts, rest := TokensOf(surface, more, depth + 1);
      t := Group(ts);
    } else {
      t, rest := Plain(c), more;
    }
  }

  /** Up to the closing delimiter of the current level, the scanner has crossed a list of tokens. */
  lemma {:induction false} TokensOf(surface: Surface, s: string, depth: int) returns (ts: seq<Token>, rest: string)
    requires depth >= 1 && Close(s, Opening(surface), Closing(surface), Scan(depth, false, false)).Some?
    ensures AllLexical(surface, ts) && s == PrintTokens(surface, ts) + [Closing(surface)] + rest
    decreases |s|, 1
  {
    hide Close, Opening, Closing, PrintToken, Lexical;
    CloseNotEmpty(surface, s, Scan(depth, false, false));
    if s[0] == Closing(surface) {
      ts, rest := [], s[1..];
      assert s == [Closing(surface)] + rest;
    } else {
      var t, more := TokenOf(surface, s, depth);
      CloseCrossesToken(surface, t, more, depth);
      var others;
      others, rest := TokensOf(surface, more, depth);
      ts := [t] + others;
      assert ts[1..] == others;
    }
  }

  /** A group that the scanner closes is balanced. */
  lemma GroupOf(surface: Surface, s: string) returns (ts: seq<Token>, rest: string)
    requires s != [] && s[0] == Opening(surface)
    requires Close(s, Opening(surface), Closing(surface), Scan(0, false, false)).Some?
    ensures AllLexical(surface, ts) && s == PrintToken(surface, Group(ts)) + rest
  {
    hide Close, PrintTokens, AllLexical;
    assert s == [s[0]] + s[1..];
    CloseStep(surface, s[0], s[1..], Scan(0, false, false));
    ts, rest := TokensOf(surface, s[1..], 1);
  }

  /** The reader of interpolations accepts exactly the balanced groups. */
  lemma CloseIffGroup(surface: Surface, s: string, k: nat)
    requires k < |s| && s[0] == Opening(surface)
    ensures Close(s, Opening(surface), Closing(surface), Scan(0, false, false)) == Some(k) <==>
      exists ts :: AllLexical(surface, ts) && s[..k + 1] == PrintToken(surface, Group(ts))
  {
    hide Close, PrintToken, AllLexical, Opening, Closing;
    if ts :| AllLexical(surface, ts) && s[..k + 1] == PrintToken(surface, Group(ts)) {
      CloseEndsGroup(surface, ts, s[k + 1..]);
      assert s == PrintToken(surface, Group(ts)) + s[k + 1..];
    }
    if Close(s, Opening(surface), Closing(surface), Scan(0, false, false)) == Some(k) {
      var ts, rest := GroupOf(surface, s);
      CloseEndsGroup(surface, ts, rest);
      assert s[..k + 1] == PrintToken(surface, Group(ts));
    }
  }

  // ---- Reading back ---------------------------------------------------------------------------

  lemma {:induction false} ReadBodyChar(surface: Surface, c: char, rest: string)
    ensures ReadBody(surface, Escape(surface, c) + rest)
         == ShiftLiteral(ReadBody(surface, rest), |Escape(surface, c)|, [c])
  {
    var text := Escape(surface, c) + rest;
    if |Escape(surface, c)| == 2 {
      assert text[0] == '\\' && text[1] == Escape(surface, c)[1] && text[2..] == rest;
      assert !StartsWith(text, InterpolationStart(surface)) by {
        assert text[0] != Marker(surface) || text[1] != Opening(surface);
      }
    } else {
      assert text[0] == c && text[1..] == rest && c != Marker(surface);
    }
  }

  lemma ReadBodyRaw(surface: Surface, c: char, printed: string, rest: string)
    requires Fits(surface, Raw(c), printed)
    ensures var more := printed + "\"" + rest;
      ReadBody(surface, [c] + more) == ShiftLiteral(ReadBody(surface, more), 1, [c])
  {
    var more := printed + "\"" + rest;
    var text := [c] + more;
    assert text[0] == c && text[1..] == more;
    assert !StartsWith(text, InterpolationStart(surface)) by {
      assert more[0] == if printed == "" then '"' else printed[0];
      assert printed != "" && printed[0] == '{' ==> printed[..1] == "{";
      assert text[1] == more[0];
    }
  }

  lemma ReadBodyUnknown(surface: Surface, next: char, rest: string)
    requires Fits(surface, Unknown(next), rest)
    ensures ReadBody(surface, ['\\', next] + rest) == ShiftLiteral(ReadBody(surface, rest), 2, ['\\', next])
  {
    var text := ['\\', next] + rest;
    assert text[0] == '\\' && text[1] == next && text[2..] == rest;
  }

  lemma ReadBodyInterpolation(surface: Surface, ts: seq<Token>, rest: string)
    requires AllLexical(surface, ts)
    ensures var p := PrintPiece(surface, Interpolation(ts));
      ReadBody(surface, p + rest) == ShiftLiteral(ReadBody(surface, rest), |p|, p)
  {
    hide ReadBody, PrintToken, ShiftLiteral, Close;
    var group := PrintToken(surface, Group(ts));
    var p := PrintPiece(surface, Interpolation(ts));
    var text := p + rest;
    GroupStart(surface, ts);
    CloseEndsGroup(surface, ts, rest);
    assert text[1..] == group + rest;
    assert StartsWith(text, InterpolationStart(surface)) by {
      assert text[..2] == InterpolationStart(surface);
    }
    ReadBodyUnfolds(surface, text);
    assert text[..|p|] == p && text[|p|..] == rest;
  }

  lemma GroupStart(surface: Surface, ts: seq<Token>)
    ensures var group := PrintToken(surface, Group(ts)); |group| >= 2 && group[0] == Opening(surface)
  {
  }

  lemma ReadBodyQuote(surface: Surface, rest: string)
    ensures ReadBody(surface, "\"" + rest) == Some(Literal(1, ""))
  {
    assert ("\"" + rest)[0] == '"';
  }

  lemma {:induction false} ReadBodyPieces(surface: Surface, ps: seq<Piece>, rest: string)
    requires WellFormed(surface, ps)
    ensures ReadBody(surface, PrintPieces(surface, ps) + "\"" + rest)
         == Some(Literal(|PrintPieces(surface, ps)| + 1, Value(surface, ps)))
  {
    hide ReadBody, Escape, PrintToken, Marker, AllLexical;
    var text := PrintPieces(surface, ps) + "\"" + rest;
    if ps == [] {
      assert text == "\"" + rest;
      ReadBodyQuote(surface, rest);
    } else {
      var more := PrintPieces(surface, ps[1..]) + "\"" + rest;
      assert text == PrintPiece(surface, ps[0]) + more;
      ReadBodyPieces(surface, ps[1..], rest);
      match ps[0]
      case Char(c) => ReadBodyChar(surface, c, more);
      case Raw(c) => ReadBodyRaw(surface, c, PrintPieces(surface, ps[1..]), rest);
      case Unknown(next) => ReadBodyUnknown(surface, next, more);
      case Interpolation(ts) => ReadBodyInterpolation(surface, ts, more);
    }
  }

  lemma PrintedStart(surface: Surface, ps: seq<Piece>)
    requires WellFormed(surface, ps)
    ensures PrintPieces(surface, ps) == "" || PrintPieces(surface, ps)[0] != '"'
  {
    if ps != [] {
      assert PrintPiece(surface, ps[0])[0] != '"';
    }
  }

  /** The one literal that is not read back: an empty one with a quote behind it. */
  predicate ReadsAsTriple(surface: Surface, ps: seq<Piece>, after: string) {
    PrintPieces(surface, ps) == "" && StartsWith(after, "\"")
  }

  /**
    A printed literal is read back, and the reader stops just past its closing quote, exactly when it is
    not an empty literal followed by a quote.
  */
  lemma {:induction false} ReadsBackIff(
    surface: Surface, before: string, ps: seq<Piece>, after: string)
    requires WellFormed(surface, ps)
    ensures
      ReadLiteral(surface, before + PrintLiteral(surface, ps) + after, |before|)
        == Some(Literal(|before| + |PrintLiteral(surface, ps)|, Value(surface, ps)))
      <==> !ReadsAsTriple(surface, ps, after)
  {
    hide ReadBody, PrintPieces, WellFormed, Value, IndexOfTriple;
    var printed := PrintPieces(surface, ps);
    var source := before + PrintLiteral(surface, ps) + after;
    var s := From(source, |before|);
    assert s == "\"" + printed + "\"" + after;
    TripleIff(surface, ps, after);
    if !ReadsAsTriple(surface, ps, after) {
      assert s[1..] == printed + "\"" + after;
      ReadBodyPieces(surface, ps, after);
      assert "" + Value(surface, ps) == Value(surface, ps);
    }
  }

  lemma TripleIff(surface: Surface, ps: seq<Piece>, after: string)
    requires WellFormed(surface, ps)
    ensures var s := "\"" + PrintPieces(surface, ps) + "\"" + after;
      StartsWith(s, "\"") && (StartsWith(s, "\"\"\"") <==> ReadsAsTriple(surface, ps, after))
  {
    PrintedStart(surface, ps);
    hide PrintPieces;
    var printed := PrintPieces(surface, ps);
    var s := "\"" + printed + "\"" + after;
    if printed == "" {
      assert s == "\"\"" + after && s[2..] == after;
      assert "\"\"\""[2..] == "\"";
      if StartsWith(after, "\"") {
        assert s[..3] == "\"\"\"";
      } else {
        assert |s| < 3 || s[2] == after[0];
      }
    } else {
      assert s[1] == printed[0];
    }
  }

  // ---- Adjacent literals ----------------------------------------------------------------------

  datatype Adjacent = Adjacent(end: nat, fragments: nat, value: string)

  function SpacesLength(s: string): (n: nat)
    ensures n <= |s|
  {
    if s != [] && IsSpace(s[0]) then 1 + SpacesLength(s[1..]) else 0
  }

  /** The length of a `+` with the white space around it, or 0 where there is none. */
  function SeparatorLength(s: string): (n: nat)
    ensures n <= |s|
  {
    var k := SpacesLength(s);
    if k < |s| && s[k] == '+' then k + 1 + SpacesLength(s[k + 1..]) else 0
  }

  function Concat(values: seq<string>): string {
    if values == [] then "" else values[0] + Concat(values[1..])
  }

  function AdjacentFrom(surface: Surface, source: string, cursor: nat): Option<Adjacent>
    requires cursor <= |source|
    decreases |source| - cursor
  {
    var separator := SeparatorLength(From(source, cursor));
    if separator == 0 then Some(Adjacent(cursor, 0, ""))
    else
      var next := ReadLiteral(surface, source, cursor + separator);
      if next.None? then None else More(next.value.value, AdjacentFrom(surface, source, next.value.end))
  }

  function More(value: string, r: Option<Adjacent>): Option<Adjacent> {
    if r.None? then None else Some(Adjacent(r.value.end, r.value.fragments + 1, value + r.value.value))
  }

  function ReadAdjacent(surface: Surface, source: string, openingQuote: nat): Option<Adjacent> {
    var first := ReadLiteral(surface, source, openingQuote);
    if first.None? then None else More(first.value.value, AdjacentFrom(surface, source, first.value.end))
  }

  /** Fragments read so far put in front of what is still to be read. */
  function Prepend(values: seq<string>, r: Option<Adjacent>): Option<Adjacent> {
    if r.None? then None else Some(Adjacent(r.value.end, |values| + r.value.fragments, Concat(values) + r.value.value))
  }

  lemma {:induction false} ConcatAppend(values: seq<string>, value: string)
    ensures Concat(values + [value]) == Concat(values) + value
  {
    if values != [] {
      ConcatAppend(values[1..], value);
      assert (values + [value])[1..] == values[1..] + [value];
    } else {
      assert [value][1..] == [];
      assert value + "" == value;
    }
  }

  lemma PrependMore(values: seq<string>, value: string, r: Option<Adjacent>)
    ensures Prepend(values, More(value, r)) == Prepend(values + [value], r)
  {
    if r.Some? {
      ConcatAppend(values, value);
      assert Concat(values) + (value + r.value.value) == Concat(values) + value + r.value.value;
    }
  }

  method ReadAdjacentStringLiterals(surface: Surface, source: string, openingQuote: nat)
    returns (r: Option<Adjacent>)
    ensures r == ReadAdjacent(surface, source, openingQuote)
  {
    hide ReadLiteral, SeparatorLength, From, Concat, Prepend, More;
    var first := ReadNativeStringLiteral(surface, source, openingQuote);
    if first.None? {
      return None;
    }
    var values, cursor := [first.value.value], first.value.end;
    PrependNothing(More(first.value.value, AdjacentFrom(surface, source, cursor)));
    PrependMore([], first.value.value, AdjacentFrom(surface, source, cursor));
    assert [] + values == values;
    while true
      invariant cursor <= |source|
      invariant ReadAdjacent(surface, source, openingQuote)
             == Prepend(values, AdjacentFrom(surface, source, cursor))
      decreases |source| - cursor
    {
      hide ReadAdjacent;
      var separator := SeparatorLength(From(source, cursor));
      if separator == 0 {
        PrependLast(values, cursor);
        return Some(Adjacent(cursor, |values|, Concat(values)));
      }
      cursor := cursor + separator;
      var next := ReadNativeStringLiteral(surface, source, cursor);
      if next.None? {
        PrependNone(values);
        return None;
      }
      PrependMore(values, next.value.value, AdjacentFrom(surface, source, next.value.end));
      values := values + [next.value.value];
      cursor := next.value.end;
    }
  }

  lemma PrependNothing(r: Option<Adjacent>)
    ensures Prepend([], r) == r
  {
    assert r.Some? ==> "" + r.value.value == r.value.value;
  }

  lemma PrependLast(values: seq<string>, cursor: nat)
    ensures Prepend(values, Some(Adjacent(cursor, 0, ""))) == Some(Adjacent(cursor, |values|, Concat(values)))
  {
    assert Concat(values) + "" == Concat(values);
  }

  lemma PrependNone(values: seq<string>)
    ensures Prepend(values, None) == None
  {
  }

  /** A literal followed by more: spaces, `+`, spaces, and a literal again. */
  datatype Tail = Tail(spacesBefore: string, spacesAfter: string, pieces: seq<Piece>)

  predicate Blank(s: string) {
    forall i :: 0 <= i < |s| ==> IsSpace(s[i])
  }

  predicate TailsWellFormed(surface: Surface, tails: seq<Tail>) {
    forall i :: 0 <= i < |tails| ==>
      Blank(tails[i].spacesBefore) && Blank(tails[i].spacesAfter) && WellFormed(surface, tails[i].pieces)
  }

  function PrintTail(surface: Surface, tail: Tail): string {
    tail.spacesBefore + "+" + tail.spacesAfter + PrintLiteral(surface, tail.pieces)
  }

  function PrintTails(surface: Surface, tails: seq<Tail>): string {
    if tails == [] then "" else PrintTail(surface, tails[0]) + PrintTails(surface, tails[1..])
  }

  function TailsValue(surface: Surface, tails: seq<Tail>): string {
    if tails == [] then "" else Value(surface, tails[0].pieces) + TailsValue(surface, tails[1..])
  }

  lemma {:induction false} SpacesThen(spaces: string, rest: string)
    requires Blank(spaces) && (rest == [] || !IsSpace(rest[0]))
    ensures SpacesLength(spaces + rest) == |spaces|
  {
    if spaces == [] {
      assert spaces + rest == rest;
    } else {
      assert (spaces + rest)[1..] == spaces[1..] + rest;
      SpacesThen(spaces[1..], rest);
    }
  }

  lemma SeparatorThen(before: string, after: string, rest: string)
    requires Blank(before) && Blank(after) && rest != [] && !IsSpace(rest[0])
    ensures SeparatorLength(before + "+" + after + rest) == |before| + 1 + |after|
  {
    var s := before + "+" + after + rest;
    var tail := "+" + after + rest;
    assert s == before + tail && tail[0] == '+';
    SpacesThen(before, tail);
    assert s[|before| + 1..] == after + rest;
    SpacesThen(after, rest);
  }

  /** What follows does not continue the expression, and the last literal is not empty before a quote. */
  predicate Stops(surface: Surface, last: seq<Piece>, after: string) {
    SeparatorLength(after) == 0 && !ReadsAsTriple(surface, last, after)
  }

  function LastPieces(ps: seq<Piece>, tails: seq<Tail>): seq<Piece> {
    if tails == [] then ps else tails[|tails| - 1].pieces
  }

  lemma NeverTriple(surface: Surface, ps: seq<Piece>, tails: seq<Tail>, after: string)
    requires TailsWellFormed(surface, tails) && !ReadsAsTriple(surface, LastPieces(ps, tails), after)
    ensures !ReadsAsTriple(surface, ps, PrintTails(surface, tails) + after)
  {
    if tails == [] {
      assert PrintTails(surface, tails) + after == after;
    } else {
      var s := PrintTails(surface, tails) + after;
      var spaces := tails[0].spacesBefore;
      assert s[0] == if spaces == "" then '+' else spaces[0];
    }
  }

  lemma AdjacentStep(surface: Surface, source: string, cursor: nat, literal: Literal)
    requires cursor <= |source| && SeparatorLength(From(source, cursor)) > 0
    requires ReadLiteral(surface, source, cursor + SeparatorLength(From(source, cursor))) == Some(literal)
    ensures literal.end <= |source|
    ensures AdjacentFrom(surface, source, cursor)
         == More(literal.value, AdjacentFrom(surface, source, literal.end))
  {
  }

  lemma AdjacentStops(surface: Surface, before: string, after: string)
    requires SeparatorLength(after) == 0
    ensures AdjacentFrom(surface, before + after, |before|) == Some(Adjacent(|before|, 0, ""))
  {
    assert From(before + after, |before|) == after;
  }

  lemma {:induction false} TailReadBack(surface: Surface, before: string, t: Tail, rest: string)
    requires TailsWellFormed(surface, [t]) && !ReadsAsTriple(surface, t.pieces, rest)
    ensures var source := before + PrintTail(surface, t) + rest;
      AdjacentFrom(surface, source, |before|)
        == More(Value(surface, t.pieces), AdjacentFrom(surface, source, |before + PrintTail(surface, t)|))
  {
    hide ReadLiteral, PrintLiteral, Value, SeparatorLength, ReadsAsTriple, AdjacentFrom, WellFormed, PrintTail, More, Blank;
    assert Blank([t][0].spacesBefore) && Blank([t][0].spacesAfter) && WellFormed(surface, [t][0].pieces);
    var source := before + PrintTail(surface, t) + rest;
    var lead := before + t.spacesBefore + "+" + t.spacesAfter;
    TailStart(surface, before, t, rest);
    ReadsBackIff(surface, lead, t.pieces, rest);
    AdjacentStep(surface, source, |before|, Literal(|before + PrintTail(surface, t)|, Value(surface, t.pieces)));
  }

  lemma Glue(a: string, b: string, c: string)
    ensures a + (b + c) == (a + b) + c && (a + b)[|a|..] == b
  {
  }

  lemma GlueFour(a: string, b: string, c: string, d: string)
    ensures a + (b + c) + d == a + b + (c + d) && a + (b + c) + d == (a + b) + c + d
    ensures (a + (b + c) + d)[|a|..] == b + (c + d)
  {
    Glue(a, b, c);
    Glue(a + b, c, d);
    Glue(b, c, d);
    Glue(a, b + c, d);
    assert a + (b + c) + d == a + (b + (c + d));
    Glue(a, b + (c + d), "");
  }

  /** Where the literal of a tail starts and ends. */
  lemma TailStart(surface: Surface, before: string, t: Tail, rest: string)
    requires Blank(t.spacesBefore) && Blank(t.spacesAfter)
    ensures var source, literal := before + PrintTail(surface, t) + rest, PrintLiteral(surface, t.pieces);
      var lead := before + t.spacesBefore + "+" + t.spacesAfter;
      && source == lead + literal + rest && |before + PrintTail(surface, t)| == |lead| + |literal|
      && |before| + SeparatorLength(From(source, |before|)) == |lead| && |lead| > |before|
  {
    var literal := PrintLiteral(surface, t.pieces);
    assert (literal + rest)[0] == '"';
    hide PrintLiteral, SeparatorLength;
    var core := t.spacesBefore + "+" + t.spacesAfter;
    GlueFour(before, core, literal, rest);
    Glue(before, t.spacesBefore + "+", t.spacesAfter);
    Glue(before, t.spacesBefore, "+");
    SeparatorThen(t.spacesBefore, t.spacesAfter, literal + rest);
  }

  lemma {:induction false} TailsReadBack(
    surface: Surface, before: string, ps: seq<Piece>, tails: seq<Tail>, after: string)
    requires TailsWellFormed(surface, tails) && Stops(surface, LastPieces(ps, tails), after)
    ensures AdjacentFrom(surface, before + PrintTails(surface, tails) + after, |before|)
         == Some(Adjacent(|before| + |PrintTails(surface, tails)|, |tails|, TailsValue(surface, tails)))
    decreases |tails|
  {
    hide ReadLiteral, Value, ReadsAsTriple, AdjacentFrom, WellFormed, PrintTail, From, SeparatorLength;
    var source := before + PrintTails(surface, tails) + after;
    if tails == [] {
      assert source == before + after;
      AdjacentStops(surface, before, after);
    } else {
      var t := tails[0];
      var lead, rest := before + PrintTail(surface, t), PrintTails(surface, tails[1..]) + after;
      NeverTriple(surface, t.pieces, tails[1..], after);
      assert source == lead + rest;
      TailReadBack(surface, before, t, rest);
      assert source == lead + PrintTails(surface, tails[1..]) + after;
      TailsReadBack(surface, lead, t.pieces, tails[1..], after);
    }
  }

  /** Literals joined by `+` read back as one value, the concatenation of theirs. */
  lemma {:induction false} AdjacentReadBack(
    surface: Surface, before: string, ps: seq<Piece>, tails: seq<Tail>, after: string)
    requires WellFormed(surface, ps) && TailsWellFormed(surface, tails) && Stops(surface, LastPieces(ps, tails), after)
    ensures var text := PrintLiteral(surface, ps) + PrintTails(surface, tails);
      ReadAdjacent(surface, before + text + after, |before|)
        == Some(Adjacent(|before| + |text|, 1 + |tails|, Value(surface, ps) + TailsValue(surface, tails)))
  {
    hide *;
    StopsNoTriple(surface, LastPieces(ps, tails), after);
    var literal, more := PrintLiteral(surface, ps), PrintTails(surface, tails);
    NeverTriple(surface, ps, tails, after);
    ReadsBackIff(surface, before, ps, more + after);
    TailsReadBack(surface, before + literal, ps, tails, after);
    var source := before + (literal + more) + after;
    assert source == before + literal + (more + after) && source == (before + literal) + more + after by {
      GlueFour(before, literal, more, after);
    }
    AdjacentJoined(surface, source, |before|, Literal(|before| + |literal|, Value(surface, ps)),
                   Adjacent(|before| + |literal| + |more|, |tails|, TailsValue(surface, tails)));
  }

  lemma StopsNoTriple(surface: Surface, last: seq<Piece>, after: string)
    requires Stops(surface, last, after)
    ensures !ReadsAsTriple(surface, last, after)
  {
  }

  lemma AdjacentJoined(surface: Surface, source: string, at: nat, first: Literal, rest: Adjacent)
    requires first.end <= |source| && ReadLiteral(surface, source, at) == Some(first)
    requires AdjacentFrom(surface, source, first.end) == Some(rest)
    ensures ReadAdjacent(surface, source, at) ==
      Some(Adjacent(rest.end, 1 + rest.fragments, first.value + rest.value))
  {
    hide ReadLiteral, AdjacentFrom;
  }

  /** The expression goes on, but not with a literal. */
  predicate Breaks(surface: Surface, gap: string, rest: string) {
    Blank(gap) && (rest == "" || (rest[0] != '"' && !IsSpace(rest[0])))
  }

  lemma {:induction false} RuntimeStops(surface: Surface, before: string, lead: string, gap: string, rest: string)
    requires Blank(lead) && Breaks(surface, gap, rest)
    ensures AdjacentFrom(surface, before + (lead + "+" + gap + rest), |before|) == None
  {
    var source := before + (lead + "+" + gap + rest);
    GapLength(lead, gap, rest);
    Glue(before, lead + "+" + gap, rest);
    Glue(before + (lead + "+" + gap), rest, "");
    Glue(before, lead + "+" + gap + rest, "");
    hide SeparatorLength;
    NoLiteral(surface, source, |before| + (|lead| + 1 + |gap|));
  }

  lemma GapLength(lead: string, gap: string, rest: string)
    requires Blank(lead) && Blank(gap) && (rest == "" || !IsSpace(rest[0]))
    ensures SeparatorLength(lead + "+" + gap + rest) == |lead| + 1 + |gap|
  {
    var s, tail := lead + "+" + gap + rest, "+" + gap + rest;
    assert s == lead + tail && tail[0] == '+';
    SpacesThen(lead, tail);
    assert s[|lead| + 1..] == gap + rest;
    SpacesThen(gap, rest);
  }

  lemma NoLiteral(surface: Surface, source: string, at: nat)
    requires at <= |source| && (source[at..] == "" || source[at..][0] != '"')
    ensures ReadLiteral(surface, source, at) == None
  {
    hide ReadBody, ReadMultiline;
    assert !StartsWith(source[at..], "\"") && !StartsWith(source[at..], "\"\"\"");
  }

  lemma {:induction false} TailsRejected(
    surface: Surface, before: string, ps: seq<Piece>, tails: seq<Tail>, after: string)
    requires TailsWellFormed(surface, tails) && !ReadsAsTriple(surface, LastPieces(ps, tails), after)
    requires forall lead {:trigger lead + after} :: AdjacentFrom(surface, lead + after, |lead|) == None
    ensures AdjacentFrom(surface, before + PrintTails(surface, tails) + after, |before|) == None
    decreases |tails|
  {
    hide ReadLiteral, Value, ReadsAsTriple, AdjacentFrom, WellFormed, PrintTail, From, SeparatorLength;
    var source := before + PrintTails(surface, tails) + after;
    if tails == [] {
      assert source == before + after;
    } else {
      var t := tails[0];
      var lead, rest := before + PrintTail(surface, t), PrintTails(surface, tails[1..]) + after;
      NeverTriple(surface, t.pieces, tails[1..], after);
      assert source == lead + rest;
      TailReadBack(surface, before, t, rest);
      assert source == lead + PrintTails(surface, tails[1..]) + after;
      TailsRejected(surface, lead, t.pieces, tails[1..], after);
    }
  }

  /** A concatenation with anything but a literal rejects the whole expression, however many literals precede. */
  lemma {:induction false} RuntimeConcatenationRejected(
    surface: Surface, before: string, ps: seq<Piece>, tails: seq<Tail>, lead: string, gap: string, rest: string)
    requires WellFormed(surface, ps) && TailsWellFormed(surface, tails)
    requires Blank(lead) && Breaks(surface, gap, rest)
    ensures var text := PrintLiteral(surface, ps) + PrintTails(surface, tails);
      ReadAdjacent(surface, before + text + (lead + "+" + gap + rest), |before|) == None
  {
    hide ReadLiteral, PrintLiteral, Value, AdjacentFrom, PrintTails, WellFormed, PrintPieces;
    var after := lead + "+" + gap + rest;
    assert after[0] == if lead == "" then '+' else lead[0];
    assert !StartsWith(after, "\"");
    var literal := PrintLiteral(surface, ps);
    var source := before + (literal + PrintTails(surface, tails)) + after;
    NeverTriple(surface, ps, tails, after);
    ReadsBackIff(surface, before, ps, PrintTails(surface, tails) + after);
    GlueFour(before, literal, PrintTails(surface, tails), after);
    forall earlier {:trigger earlier + after} ensures AdjacentFrom(surface, earlier + after, |earlier|) == None {
      RuntimeStops(surface, earlier, lead, gap, rest);
    }
    TailsRejected(surface, before + literal, ps, tails, after);
  }

  // ---- Triple-quoted literals -----------------------------------------------------------------

  /** The first triple quote after a text is the one that follows it. */
  lemma {:induction false} FirstTriple(text: string, after: string)
    requires IndexOfTriple(text + "\"\"").None?
    ensures IndexOfTriple(text + "\"\"\"" + after) == Some(|text|)
  {
    var s := text + "\"\"\"" + after;
    if text == [] {
      assert s[..3] == "\"\"\"";
    } else {
      var t := text + "\"\"";
      assert t[1..] == text[1..] + "\"\"" && s[1..] == text[1..] + "\"\"\"" + after;
      assert !StartsWith(s, "\"\"\"") by {
        assert s[..3] == t[..3];
      }
      FirstTriple(text[1..], after);
    }
  }

  lemma {:induction false} EarlierTriple(t: string, more: string)
    requires IndexOfTriple(t).Some?
    ensures IndexOfTriple(t + more) == IndexOfTriple(t)
  {
    assert (t + more)[..3] == t[..3];
    if !StartsWith(t, "\"\"\"") {
      assert (t + more)[1..] == t[1..] + more;
      EarlierTriple(t[1..], more);
    }
  }

  lemma TripleSource(before: string, body: string, after: string)
    ensures var source := before + ("\"\"\"" + body + "\"\"\"") + after;
      && StartsWith(From(source, |before|), "\"\"\"")
      && From(source, |before| + 3) == body + "\"\"\"" + after
  {
    var text := "\"\"\"" + body + "\"\"\"";
    var source := before + text + after;
    assert source[|before|..] == text + after;
    assert (text + after)[..3] == "\"\"\"";
    assert source[|before| + 3..] == body + "\"\"\"" + after;
  }

  /** Reading between triple quotes, whatever the body. */
  lemma TripleReads(surface: Surface, before: string, body: string, after: string)
    ensures var text, r := "\"\"\"" + body + "\"\"\"", IndexOfTriple(body + "\"\"\"" + after);
      r.Some? && ReadLiteral(surface, before + text + after, |before|) ==
        Some(Literal(|before| + r.value + 6, NativeMultiline.Decode((body + "\"\"\"" + after)[..r.value])))
  {
    TripleSource(before, body, after);
    TripleFound(body, after);
    hide IndexOfTriple, ReadBody, From, StartsWith;
  }

  lemma {:induction false} TripleFound(body: string, after: string)
    ensures IndexOfTriple(body + "\"\"\"" + after).Some?
  {
    var s := body + "\"\"\"" + after;
    if body == [] {
      assert s[..3] == "\"\"\"";
    } else {
      assert s[1..] == body[1..] + "\"\"\"" + after;
      TripleFound(body[1..], after);
    }
  }

  /** A triple-quoted literal reads back as its lines, dedented and joined, and ends behind its quotes, if and
      only if no triple quote starts inside it. */
  lemma {:induction false} MultilineReadsBackIff(
    surface: Surface, before: string, lines: seq<string>, w: string, after: string)
    requires NativeMultiline.Printable(lines) && NativeMultiline.AllIndent(w)
    ensures var body := NativeMultiline.Layout(lines, w);
      ReadLiteral(surface, before + ("\"\"\"" + body + "\"\"\"") + after, |before|)
        == Some(Literal(|before| + |body| + 6, NativeMultiline.JoinLines(lines)))
      <==> IndexOfTriple(body + "\"\"").None?
  {
    hide IndexOfTriple, ReadLiteral, NativeMultiline.Layout, NativeMultiline.Decode, NativeMultiline.JoinLines;
    var body := NativeMultiline.Layout(lines, w);
    NativeMultiline.DecodeUndoesLayout(lines, w);
    TripleReads(surface, before, body, after);
    var s := body + "\"\"\"" + after;
    if IndexOfTriple(body + "\"\"").None? {
      FirstTriple(body, after);
      assert s[..|body|] == body;
    } else {
      EarlierTriple(body + "\"\"", "\"" + after);
      assert s == body + "\"\"" + ("\"" + after);
    }
  }
}
