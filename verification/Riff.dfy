/**
  WAV containers of the speech synthesiser: wrapping PCM in a header, and walking the chunks of a RIFF
  container to find the PCM again.
*/
module Riff {
  import opened Options

  type Byte = x: int | 0 <= x < 256

  const CHANNELS := 1
  const BITS_PER_SAMPLE := 16
  const MAX_UINT32 := 0xFFFF_FFFF

  // ---- Little-endian numbers and four-letter names ---------------------------------------------

  function Le16(n: nat): (r: seq<Byte>)
    requires n < 0x1_0000
    ensures |r| == 2
  {
    [n % 256, n / 256]
  }

  function Le32(n: nat): (r: seq<Byte>)
    requires n <= MAX_UINT32
    ensures |r| == 4
  {
    [n % 256, n / 256 % 256, n / 0x1_0000 % 256, n / 0x100_0000]
  }

  function ReadLe32(s: seq<Byte>): (n: nat)
    requires |s| == 4
    ensures n <= MAX_UINT32
  {
    var b0: int, b1: int, b2: int, b3: int := s[0], s[1], s[2], s[3];
    b0 + 256 * b1 + 0x1_0000 * b2 + 0x100_0000 * b3
  }

  lemma ReadBackLe32(n: nat)
    requires n <= MAX_UINT32
    ensures ReadLe32(Le32(n)) == n
  {
    var q := n / 256;
    assert n == n % 256 + 256 * q;
    assert n / 0x1_0000 == q / 256 && n / 0x100_0000 == q / 256 / 256;
  }

  lemma WriteBackLe32(s: seq<Byte>)
    requires |s| == 4
    ensures Le32(ReadLe32(s)) == s
  {
    var b0: int, b1: int, b2: int, b3: int := s[0], s[1], s[2], s[3];
    var n := ReadLe32(s);
    DivMod(b0, b1 + 256 * b2 + 0x1_0000 * b3);
    DivMod(b1, b2 + 256 * b3);
    DivMod(b2, b3);
    assert n / 0x1_0000 == n / 256 / 256 && n / 0x100_0000 == n / 256 / 256 / 256;
  }

  lemma DivMod(b: int, q: int)
    requires 0 <= b < 256
    ensures (b + 256 * q) % 256 == b && (b + 256 * q) / 256 == q
  {
  }

  type Name = s: seq<Byte> | |s| == 4 witness [0, 0, 0, 0]

  const RIFF: Name := [0x52, 0x49, 0x46, 0x46]
  const WAVE: Name := [0x57, 0x41, 0x56, 0x45]
  const FMT: Name := [0x66, 0x6D, 0x74, 0x20]
  const DATA: Name := [0x64, 0x61, 0x74, 0x61]

  /** Decoding as ASCII ignores the top bit of every byte. */
  predicate Spells(s: seq<Byte>, name: Name) {
    |s| == 4 && forall i :: 0 <= i < 4 ==> s[i] % 128 == name[i]
  }

  predicate Ascii(name: Name) {
    forall i :: 0 <= i < 4 ==> name[i] < 128
  }

  lemma SpellsAscii(s: Name, name: Name)
    requires Ascii(s) && Ascii(name)
    ensures Spells(s, name) <==> s == name
  {
    if Spells(s, name) {
      assert forall i :: 0 <= i < 4 ==> s[i] == s[i] % 128;
    }
  }

  lemma NamesSpell()
    ensures Spells(RIFF, RIFF) && Spells(WAVE, WAVE) && Spells(DATA, DATA) && !Spells(FMT, DATA)
  {
    assert FMT[0] % 128 != DATA[0];
  }

  /** `subarray`, which clamps its bounds. */
  function Sub(s: seq<Byte>, from_: nat, to: nat): (r: seq<Byte>)
    ensures |r| <= |s|
  {
    var lo, hi := if from_ <= |s| then from_ else |s|, if to <= |s| then to else |s|;
    if lo <= hi then s[lo..hi] else []
  }

  // ---- Containers -----------------------------------------------------------------------------

  /** A chunk; `pad` is the byte that follows a payload of odd length. */
  datatype Chunk = Chunk(name: Name, payload: seq<Byte>, pad: Byte)

  predicate Sized(c: Chunk) {
    |c.payload| <= MAX_UINT32
  }

  function PrintChunk(c: Chunk): seq<Byte>
    requires Sized(c)
  {
    c.name + Le32(|c.payload|) + c.payload + if |c.payload| % 2 == 1 then [c.pad] else []
  }

  function PrintChunks(cs: seq<Chunk>): seq<Byte>
    requires forall i :: 0 <= i < |cs| ==> Sized(cs[i])
  {
    if cs == [] then [] else PrintChunk(cs[0]) + PrintChunks(cs[1..])
  }

  /** A RIFF/WAVE file; the walker does not read the size field. */
  function Container(size: nat, body: seq<Byte>): seq<Byte>
    requires size <= MAX_UINT32
  {
    RIFF + Le32(size) + WAVE + body
  }

  // ---- The walk -------------------------------------------------------------------------------

  datatype Stripped = Pcm(bytes: seq<Byte>) | MissingData

  function Walk(s: seq<Byte>): Stripped
    decreases |s|
  {
    if |s| < 8 then MissingData
    else
      var size := ReadLe32(s[4..8]);
      if Spells(s[..4], DATA) then Pcm(Sub(s, 8, 8 + size))
      else if 8 + size + size % 2 > |s| then MissingData
      else Walk(s[8 + size + size % 2..])
  }

  function Strip(audio: seq<Byte>): Stripped {
    if !Spells(Sub(audio, 0, 4), RIFF) || !Spells(Sub(audio, 8, 12), WAVE) then Pcm(audio) else Walk(audio[12..])
  }

  /** `stripWavContainerToPcm`. */
  method StripWavContainerToPcm(audio: seq<Byte>) returns (r: Stripped)
    ensures r == Strip(audio)
  {
    hide Spells, ReadLe32, WalkFrom, Sub, Strip;
    StripStarts(audio);
    if !Spells(Sub(audio, 0, 4), RIFF) || !Spells(Sub(audio, 8, 12), WAVE) {
      return Pcm(audio);
    }
    var offset := 12;
    while offset + 8 <= |audio|
      invariant 12 <= offset
      invariant Strip(audio) == WalkFrom(audio, offset)
      decreases |audio| - offset
    {
      WalkAt(audio, offset);
      var chunkId := Sub(audio, offset, offset + 4);
      var chunkSize := ReadLe32(audio[offset + 4..offset + 8]);
      var dataStart := offset + 8;
      if Spells(chunkId, DATA) {
        SubClamps(audio, dataStart, dataStart + chunkSize);
        return Pcm(Sub(audio, dataStart, if dataStart + chunkSize <= |audio| then dataStart + chunkSize else |audio|));
      }
      offset := dataStart + chunkSize + chunkSize % 2;
    }
    WalkEnds(audio, offset);
    return MissingData;
  }

  function WalkFrom(audio: seq<Byte>, offset: nat): Stripped {
    if offset <= |audio| then Walk(audio[offset..]) else MissingData
  }

  lemma StripStarts(audio: seq<Byte>)
    ensures Strip(audio) ==
      if !Spells(Sub(audio, 0, 4), RIFF) || !Spells(Sub(audio, 8, 12), WAVE) then Pcm(audio) else WalkFrom(audio, 12)
  {
    hide Walk;
  }

  lemma SubClamps(s: seq<Byte>, from_: nat, to: nat)
    ensures Sub(s, from_, to) == Sub(s, from_, if to <= |s| then to else |s|)
  {
  }

  /** One chunk of the walk, seen from the whole buffer. */
  lemma WalkAt(audio: seq<Byte>, offset: nat)
    requires offset + 8 <= |audio|
    ensures var size := ReadLe32(audio[offset + 4..offset + 8]);
      WalkFrom(audio, offset) ==
        if Spells(Sub(audio, offset, offset + 4), DATA) then Pcm(Sub(audio, offset + 8, offset + 8 + size))
        else WalkFrom(audio, offset + 8 + size + size % 2)
  {
    hide Spells, ReadLe32;
    var s := audio[offset..];
    var size := ReadLe32(audio[offset + 4..offset + 8]);
    assert s[..4] == Sub(audio, offset, offset + 4) && s[4..8] == audio[offset + 4..offset + 8];
    assert Sub(s, 8, 8 + size) == Sub(audio, offset + 8, offset + 8 + size);
    var step := 8 + size + size % 2;
    assert step <= |s| ==> s[step..] == audio[offset + step..];
  }

  lemma WalkEnds(audio: seq<Byte>, offset: nat)
    requires offset + 8 > |audio|
    ensures WalkFrom(audio, offset) == MissingData
  {
  }

  // ---- What the walk finds --------------------------------------------------------------------

  function FirstData(cs: seq<Chunk>): Option<Chunk> {
    if cs == [] then None else if Spells(cs[0].name, DATA) then Some(cs[0]) else FirstData(cs[1..])
  }

  lemma {:induction false} ChunkParts(c: Chunk, rest: seq<Byte>)
    requires Sized(c)
    ensures var s, n := PrintChunk(c) + rest, |c.payload|;
      && |s| >= 8 + n && s[..4] == c.name && ReadLe32(s[4..8]) == n && s[8..8 + n] == c.payload
      && |PrintChunk(c)| == 8 + n + n % 2 && s[8 + n + n % 2..] == rest
  {
    var s, n := PrintChunk(c) + rest, |c.payload|;
    assert s[4..8] == Le32(n);
    ReadBackLe32(n);
  }

  lemma {:induction false} WalkChunks(cs: seq<Chunk>, rest: seq<Byte>)
    requires forall i :: 0 <= i < |cs| ==> Sized(cs[i])
    ensures Walk(PrintChunks(cs) + rest) ==
      if FirstData(cs).Some? then Pcm(FirstData(cs).value.payload) else Walk(rest)
  {
    if cs == [] {
      assert PrintChunks(cs) + rest == rest;
    } else {
      var c, more := cs[0], PrintChunks(cs[1..]) + rest;
      hide PrintChunk, ReadLe32, Spells;
      assert PrintChunks(cs) + rest == PrintChunk(c) + more;
      ChunkParts(c, more);
      WalkChunks(cs[1..], rest);
    }
  }

  /** Over any list of chunks: the payload of the first `data` chunk, or the error when there is none. */
  lemma {:induction false} StripFindsFirstData(size: nat, cs: seq<Chunk>)
    requires size <= MAX_UINT32 && forall i :: 0 <= i < |cs| ==> Sized(cs[i])
    ensures Strip(Container(size, PrintChunks(cs))) ==
      if FirstData(cs).Some? then Pcm(FirstData(cs).value.payload) else MissingData
  {
    ContainerParts(size, PrintChunks(cs));
    WalkChunks(cs, []);
    assert PrintChunks(cs) + [] == PrintChunks(cs);
  }

  lemma ContainerParts(size: nat, body: seq<Byte>)
    requires size <= MAX_UINT32
    ensures Strip(Container(size, body)) == Walk(body)
  {
    hide Walk;
    var audio := Container(size, body);
    assert Sub(audio, 0, 4) == RIFF && Sub(audio, 8, 12) == WAVE && audio[12..] == body;
    NamesSpell();
  }

  lemma {:induction false} FirstDataIsFirst(cs: seq<Chunk>)
    requires forall i :: 0 <= i < |cs| ==> Ascii(cs[i].name)
    ensures FirstData(cs).None? ==> forall i :: 0 <= i < |cs| ==> cs[i].name != DATA
    ensures FirstData(cs).Some? ==>
      exists k :: 0 <= k < |cs| && cs[k] == FirstData(cs).value && cs[k].name == DATA
                  && forall i :: 0 <= i < k ==> cs[i].name != DATA
  {
    if cs != [] {
      SpellsAscii(cs[0].name, DATA);
      if cs[0].name != DATA {
        FirstDataIsFirst(cs[1..]);
        if FirstData(cs).Some? {
          var k :| 0 <= k < |cs[1..]| && cs[1..][k] == FirstData(cs).value && cs[1..][k].name == DATA
            && forall i :: 0 <= i < k ==> cs[1..][i].name != DATA;
          assert cs[k + 1] == FirstData(cs).value;
          assert forall i :: 0 <= i < k + 1 ==> cs[i].name != DATA by {
            assert forall i :: 1 <= i < k + 1 ==> cs[i] == cs[1..][i - 1];
          }
        }
      }
    }
  }

  /** A chunk read off the front of a byte string. */
  lemma ReadChunk(s: seq<Byte>) returns (c: Chunk, rest: seq<Byte>)
    requires |s| >= 8 && var size := ReadLe32(s[4..8]); 8 + size + size % 2 <= |s|
    ensures Sized(c) && c.name == s[..4] && s == PrintChunk(c) + rest
    ensures var size := ReadLe32(s[4..8]); rest == s[8 + size + size % 2..]
  {
    var size := ReadLe32(s[4..8]);
    WriteBackLe32(s[4..8]);
    hide ReadLe32, Le32;
    c := Chunk(s[..4], s[8..8 + size], if size % 2 == 1 then s[8 + size] else 0);
    rest := s[8 + size + size % 2..];
    assert s == s[..4] + s[4..8] + s[8..8 + size] + s[8 + size..];
    if size % 2 == 1 {
      assert s[8 + size..] == [s[8 + size]] + rest;
    }
  }

  /** Where the walk finds PCM, the bytes in front of it are chunks, none of them `data`. */
  lemma {:induction false} WalkedOverChunks(s: seq<Byte>)
    returns (skipped: seq<Chunk>, name: Name, size: nat, rest: seq<Byte>)
    requires Walk(s).Pcm?
    ensures forall i :: 0 <= i < |skipped| ==> Sized(skipped[i])
    ensures FirstData(skipped).None? && Spells(name, DATA) && size <= MAX_UINT32
    ensures s == PrintChunks(skipped) + (name + Le32(size) + rest) && Walk(s).bytes == Sub(rest, 0, size)
    decreases |s|
  {
    hide Spells, PrintChunk, ReadLe32, Le32;
    size := ReadLe32(s[4..8]);
    if Spells(s[..4], DATA) {
      WriteBackLe32(s[4..8]);
      skipped, name, rest := [], s[..4], s[8..];
      assert s == name + Le32(size) + rest;
      assert Sub(s, 8, 8 + size) == Sub(rest, 0, size);
    } else {
      var c, more := ReadChunk(s);
      var others;
      others, name, size, rest := WalkedOverChunks(more);
      skipped := [c] + others;
      assert skipped[1..] == others;
    }
  }

  // ---- Wrapping -------------------------------------------------------------------------------

  datatype Wrapped = Wav(bytes: seq<Byte>) | RangeError

  const BLOCK_ALIGN := CHANNELS * (BITS_PER_SAMPLE / 8)

  /** The values that `writeUInt32LE` accepts; it writes their integral part. */
  predicate IsUInt32(value: real) {
    0.0 <= value <= MAX_UINT32 as real
  }

  /** Every number fits its field. */
  predicate Representable(length: nat, sampleRate: real) {
    36 + length <= MAX_UINT32 && IsUInt32(sampleRate) && IsUInt32(sampleRate * BLOCK_ALIGN as real)
  }

  function Format(sampleRate: real): (r: seq<Byte>)
    requires IsUInt32(sampleRate) && IsUInt32(sampleRate * BLOCK_ALIGN as real)
    ensures |r| == 16
  {
    Le16(1) + Le16(CHANNELS) + Le32(sampleRate.Floor) + Le32((sampleRate * BLOCK_ALIGN as real).Floor)
    + Le16(BLOCK_ALIGN) + Le16(BITS_PER_SAMPLE)
  }

  /** A container of a format chunk and a data chunk; odd PCM is not padded. */
  function Wave(pcm: seq<Byte>, sampleRate: real): seq<Byte>
    requires Representable(|pcm|, sampleRate)
  {
    Container(36 + |pcm|, PrintChunks([Chunk(FMT, Format(sampleRate), 0)]) + (DATA + Le32(|pcm|) + pcm))
  }

  /** `header.write`. */
  method WriteName(header: array<Byte>, name: Name, offset: nat)
    requires offset + 4 <= header.Length
    modifies header
    ensures header[..offset + 4] == old(header[..offset]) + name
  {
    var i := 0;
    while i < 4
      invariant 0 <= i <= 4
      invariant header[..offset + i] == old(header[..offset]) + name[..i]
    {
      header[offset + i] := name[i];
      i := i + 1;
    }
  }

  method WriteUInt16LE(header: array<Byte>, value: nat, offset: nat)
    requires offset + 2 <= header.Length && value < 0x1_0000
    modifies header
    ensures header[..offset + 2] == old(header[..offset]) + Le16(value)
  {
    header[offset] := value % 256;
    header[offset + 1] := value / 256;
  }

  /** `header.writeUInt32LE`, which throws when the value does not fit. */
  method WriteUInt32LE(header: array<Byte>, value: real, offset: nat) returns (ok: bool)
    requires offset + 4 <= header.Length
    modifies header
    ensures ok == IsUInt32(value)
    ensures ok ==> header[..offset + 4] == old(header[..offset]) + Le32(value.Floor)
  {
    if value > MAX_UINT32 as real || value < 0.0 {
      return false;
    }
    var n: nat := value.Floor;
    header[offset] := n % 256;
    header[offset + 1] := n / 256 % 256;
    header[offset + 2] := n / 0x1_0000 % 256;
    header[offset + 3] := n / 0x100_0000;
    return true;
  }

  /** The body of the format chunk. */
  method WriteFormat(header: array<Byte>, sampleRate: real) returns (ok: bool)
    requires header.Length == 44
    modifies header
    ensures ok == (IsUInt32(sampleRate) && IsUInt32(sampleRate * BLOCK_ALIGN as real))
    ensures ok ==> header[..36] == old(header[..20]) + Format(sampleRate)
  {
    hide Le16, Le32, IsUInt32;
    var byteRate := sampleRate * BLOCK_ALIGN as real;
    WriteUInt16LE(header, 1, 20);
    WriteUInt16LE(header, CHANNELS, 22);
    ok := WriteUInt32LE(header, sampleRate, 24);
    if !ok { return; }
    ok := WriteUInt32LE(header, byteRate, 28);
    if !ok { return; }
    WriteUInt16LE(header, BLOCK_ALIGN, 32);
    WriteUInt16LE(header, BITS_PER_SAMPLE, 34);
  }

  /** `wrapPcm16MonoToWav`. */
  method WrapPcm16MonoToWav(pcm: seq<Byte>, sampleRate: real) returns (r: Wrapped)
    ensures r == if Representable(|pcm|, sampleRate) then Wav(Wave(pcm, sampleRate)) else RangeError
  {
    hide Le16, Le32, Format, Wave;
    var header := new Byte[44](_ => 0);
    WriteName(header, RIFF, 0);
    var ok := WriteUInt32LE(header, (36 + |pcm|) as real, 4);
    if !ok { return RangeError; }
    WriteName(header, WAVE, 8);
    WriteName(header, FMT, 12);
    ok := WriteUInt32LE(header, 16.0, 16);
    ok := WriteFormat(header, sampleRate);
    if !ok { return RangeError; }
    WriteName(header, DATA, 36);
    ok := WriteUInt32LE(header, |pcm| as real, 40);
    HeaderIsWave(pcm, sampleRate, header[..44]);
    r := Wav(header[..] + pcm);
  }

  lemma HeaderIsWave(pcm: seq<Byte>, sampleRate: real, header: seq<Byte>)
    requires Representable(|pcm|, sampleRate)
    requires header == RIFF + Le32(36 + |pcm|) + WAVE + FMT + Le32(16) + Format(sampleRate) + DATA + Le32(|pcm|)
    ensures header + pcm == Wave(pcm, sampleRate)
  {
    hide Le16, Le32, Format;
    var c := Chunk(FMT, Format(sampleRate), 0);
    assert [c][1..] == [];
    assert PrintChunks([c]) == FMT + Le32(16) + Format(sampleRate);
  }

  /** Stripping what was wrapped gives the PCM back, for every length that a header can state. */
  lemma StripUndoesWrap(pcm: seq<Byte>, sampleRate: real)
    requires Representable(|pcm|, sampleRate)
    ensures Strip(Wave(pcm, sampleRate)) == Pcm(pcm)
  {
    var fmt := Chunk(FMT, Format(sampleRate), 0);
    var tail := DATA + Le32(|pcm|) + pcm;
    hide Format, Walk, Strip, Le32, PrintChunk, Spells;
    ContainerParts(36 + |pcm|, PrintChunks([fmt]) + tail);
    NamesSpell();
    assert [fmt][1..] == [] && FirstData([]).None? && FirstData([fmt]).None?;
    WalkChunks([fmt], tail);
    WalkData(pcm);
  }

  lemma {:induction false} WalkData(pcm: seq<Byte>)
    requires |pcm| <= MAX_UINT32
    ensures Walk(DATA + Le32(|pcm|) + pcm) == Pcm(pcm)
  {
    NamesSpell();
    ReadBackLe32(|pcm|);
    WalkNamedData(DATA, Le32(|pcm|), pcm);
  }

  lemma WalkNamedData(name: Name, size: seq<Byte>, pcm: seq<Byte>)
    requires Spells(name, DATA) && |size| == 4 && ReadLe32(size) == |pcm|
    ensures Walk(name + size + pcm) == Pcm(pcm)
  {
    hide Spells, ReadLe32;
    var tail := name + size + pcm;
    assert tail[..4] == name && tail[4..8] == size && tail[8..] == pcm;
  }

  // ---- The header, byte by byte -----------------------------------------------------------------

  /** The 16-bit number at a place of a buffer. */
  function Short(w: seq<Byte>, at: nat): int
    requires at + 2 <= |w|
  {
    var b0: int, b1: int := w[at], w[at + 1];
    b0 + 256 * b1
  }

  /** The 32-bit number at a place of a buffer. */
  function Word(w: seq<Byte>, at: nat): int
    requires at + 4 <= |w|
  {
    Short(w, at) + 0x1_0000 * Short(w, at + 2)
  }

  lemma ShortReads(n: nat, w: seq<Byte>, at: nat)
    requires n < 0x1_0000 && at + 2 <= |w| && w[at..at + 2] == Le16(n)
    ensures Short(w, at) == n
  {
    assert w[at] == Le16(n)[0] && w[at + 1] == Le16(n)[1];
  }

  lemma WordReads(n: nat, w: seq<Byte>, at: nat)
    requires n <= MAX_UINT32 && at + 4 <= |w| && w[at..at + 4] == Le32(n)
    ensures Word(w, at) == n
  {
    var q := n / 256;
    assert w[at] == Le32(n)[0] && w[at + 1] == Le32(n)[1] && w[at + 2] == Le32(n)[2] && w[at + 3] == Le32(n)[3];
    assert n == n % 256 + 256 * q && n / 0x1_0000 == q / 256 && n / 0x100_0000 == q / 256 / 256;
    assert q == q % 256 + 256 * (q / 256);
  }

  /** The 44 bytes in front of the PCM: the sizes, one channel of 16 bits, and the rates. */
  predicate IsHeader(w: seq<Byte>, length: nat, sampleRate: real) {
    && |w| >= 44
    && w[0..4] == [0x52, 0x49, 0x46, 0x46] && Word(w, 4) == 36 + length
    && w[8..12] == [0x57, 0x41, 0x56, 0x45]
    && w[12..16] == [0x66, 0x6D, 0x74, 0x20] && Word(w, 16) == 16
    && Short(w, 20) == 1 && Short(w, 22) == 1
    && Word(w, 24) == sampleRate.Floor && Word(w, 28) == (sampleRate * 2.0).Floor
    && Short(w, 32) == 2 && Short(w, 34) == 16
    && w[36..40] == [0x64, 0x61, 0x74, 0x61] && Word(w, 40) == length
  }

  /** The numbers that have to fit 32 bits. */
  lemma RepresentableIff(length: nat, sampleRate: real)
    ensures Representable(length, sampleRate) <==>
      36 + length < 0x1_0000_0000 && 0.0 <= sampleRate && sampleRate * 2.0 <= 4294967295.0
  {
    assert BLOCK_ALIGN == 2;
  }

  lemma RatesFit(sampleRate: real)
    requires IsUInt32(sampleRate) && IsUInt32(sampleRate * BLOCK_ALIGN as real)
    ensures 0 <= sampleRate.Floor <= MAX_UINT32 && 0 <= (sampleRate * 2.0).Floor <= MAX_UINT32
  {
    assert BLOCK_ALIGN == 2;
  }

  /** What is written in front of the PCM is this header and nothing else. */
  lemma {:induction false} HeaderIsExact(pcm: seq<Byte>, sampleRate: real)
    requires Representable(|pcm|, sampleRate)
    ensures var w := Wave(pcm, sampleRate);
      |w| == 44 + |pcm| && w[44..] == pcm && IsHeader(w, |pcm|, sampleRate)
  {
    HeaderFields(pcm, sampleRate);
    RatesFit(sampleRate);
    HeaderReads(Wave(pcm, sampleRate), |pcm|, sampleRate.Floor, (sampleRate * 2.0).Floor);
    hide Wave, Le16, Le32, Short, Word, Representable;
  }

  lemma HeaderReads(w: seq<Byte>, length: nat, rate: nat, bytesPerSecond: nat)
    requires |w| >= 44 && 36 + length <= MAX_UINT32 && rate <= MAX_UINT32 && bytesPerSecond <= MAX_UINT32
    requires w[4..8] == Le32(36 + length) && w[16..20] == Le32(16) && w[20..22] == Le16(1) && w[22..24] == Le16(1)
    requires w[24..28] == Le32(rate) && w[28..32] == Le32(bytesPerSecond)
    requires w[32..34] == Le16(2) && w[34..36] == Le16(16) && w[40..44] == Le32(length)
    ensures Word(w, 4) == 36 + length && Word(w, 16) == 16 && Short(w, 20) == 1 && Short(w, 22) == 1
    ensures Word(w, 24) == rate && Word(w, 28) == bytesPerSecond
    ensures Short(w, 32) == 2 && Short(w, 34) == 16 && Word(w, 40) == length
  {
    hide Le16, Le32, Short, Word;
    WordReads(36 + length, w, 4);
    WordReads(16, w, 16);
    ShortReads(1, w, 20);
    ShortReads(1, w, 22);
    WordReads(rate, w, 24);
    WordReads(bytesPerSecond, w, 28);
    ShortReads(2, w, 32);
    ShortReads(16, w, 34);
    WordReads(length, w, 40);
  }

  lemma {:induction false} HeaderFields(pcm: seq<Byte>, sampleRate: real)
    requires Representable(|pcm|, sampleRate)
    ensures var w := Wave(pcm, sampleRate);
      && |w| == 44 + |pcm| && w[44..] == pcm
      && w[0..4] == RIFF && w[4..8] == Le32(36 + |pcm|) && w[8..12] == WAVE && w[12..16] == FMT
      && w[16..20] == Le32(16) && w[20..22] == Le16(1) && w[22..24] == Le16(1)
      && w[24..28] == Le32(sampleRate.Floor) && w[28..32] == Le32((sampleRate * 2.0).Floor)
      && w[32..34] == Le16(2) && w[34..36] == Le16(16) && w[36..40] == DATA && w[40..44] == Le32(|pcm|)
  {
    var fmt := Format(sampleRate);
    FormatFields(sampleRate);
    hide Le16, Le32, Format;
    var header := RIFF + Le32(36 + |pcm|) + WAVE + FMT + Le32(16) + fmt + DATA + Le32(|pcm|);
    HeaderIsWave(pcm, sampleRate, header);
    HeaderSlices(Le32(36 + |pcm|), Le32(16), fmt, Le32(|pcm|), pcm);
    FormatSlices(Wave(pcm, sampleRate), fmt);
    hide Wave;
  }

  lemma HeaderSlices(size: seq<Byte>, formatSize: seq<Byte>, fmt: seq<Byte>, length: seq<Byte>, pcm: seq<Byte>)
    requires |size| == |formatSize| == |length| == 4 && |fmt| == 16
    ensures var w := RIFF + size + WAVE + FMT + formatSize + fmt + DATA + length + pcm;
      && |w| == 44 + |pcm| && w[44..] == pcm
      && w[0..4] == RIFF && w[4..8] == size && w[8..12] == WAVE && w[12..16] == FMT && w[16..20] == formatSize
      && w[20..36] == fmt && w[36..40] == DATA && w[40..44] == length
  {
  }

  lemma FormatSlices(w: seq<Byte>, fmt: seq<Byte>)
    requires |w| >= 44 && |fmt| == 16 && w[20..36] == fmt
    ensures w[20..22] == fmt[0..2] && w[22..24] == fmt[2..4] && w[24..28] == fmt[4..8] && w[28..32] == fmt[8..12]
    ensures w[32..34] == fmt[12..14] && w[34..36] == fmt[14..16]
  {
    assert forall i :: 0 <= i < 16 ==> w[20 + i] == w[20..36][i];
  }

  lemma FormatFields(sampleRate: real)
    requires IsUInt32(sampleRate) && IsUInt32(sampleRate * BLOCK_ALIGN as real)
    ensures var f := Format(sampleRate);
      && f[0..2] == Le16(1) && f[2..4] == Le16(1) && f[4..8] == Le32(sampleRate.Floor)
      && f[8..12] == Le32((sampleRate * 2.0).Floor) && f[12..14] == Le16(2) && f[14..16] == Le16(16)
  {
    assert BLOCK_ALIGN == 2;
    var rate, bytesPerSecond := Le32(sampleRate.Floor), Le32((sampleRate * 2.0).Floor);
    hide Le16, Le32;
    SixParts(Le16(1), Le16(1), rate, bytesPerSecond, Le16(2), Le16(16));
  }

  lemma SixParts(a: seq<Byte>, b: seq<Byte>, c: seq<Byte>, d: seq<Byte>, e: seq<Byte>, f: seq<Byte>)
    requires |a| == |b| == |e| == |f| == 2 && |c| == |d| == 4
    ensures var s := a + b + c + d + e + f;
      && |s| == 16 && s[0..2] == a && s[2..4] == b && s[4..8] == c && s[8..12] == d && s[12..14] == e && s[14..16] == f
  {
  }
}
