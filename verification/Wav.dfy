/** The two RIFF/WAVE scanners: readWAV of the playground and readWAVPCM of the STT debugger. */
module Wavs {
  import opened Jobs

  const RIFF: Bytes := [0x52, 0x49, 0x46, 0x46]
  const WAVE: Bytes := [0x57, 0x41, 0x56, 0x45]
  const FMT: Bytes := [0x66, 0x6D, 0x74, 0x20]
  const DATA: Bytes := [0x64, 0x61, 0x74, 0x61]

  datatype Header = Header(
    audioFormat: nat, channels: nat, sampleRate: nat,
    byteRate: nat, blockAlign: nat, bitsPerSample: nat)

  datatype WavError = ShortRiff | NotRiff | ShortWave | NotWave | NoData

  datatype Wav = Wav(header: Header, pcm: Bytes)

  // ---------- Files ----------

  /** What a read of `n` bytes at `pos` gets; a seek may have gone past the end. */
  function Got(f: Bytes, pos: nat, n: nat): (r: Bytes)
    ensures |r| <= n
  {
    if pos >= |f| then [] else if pos + n <= |f| then f[pos..pos + n] else f[pos..]
  }

  /** A short read leaves the position at the end. */
  function After(f: Bytes, pos: nat, n: nat): (r: nat)
    ensures pos <= r <= pos + n
  {
    pos + |Got(f, pos, n)|
  }

  /** Little-endian value. */
  function Value(b: Bytes): nat {
    if b == [] then 0 else b[0] + 256 * Value(b[1..])
  }

  /** A number that cannot be read in full keeps its old value. */
  function Number(f: Bytes, pos: nat, n: nat, was: nat): nat {
    if |Got(f, pos, n)| == n then Value(Got(f, pos, n)) else was
  }

  function Zeros(n: nat): Bytes {
    seq(n, _ => 0)
  }

  /** A zeroed buffer of `size` bytes filled as far as the file goes. */
  function Filled(f: Bytes, pos: nat, size: nat): (r: Bytes)
    ensures |r| == size
  {
    Got(f, pos, size) + Zeros(size - |Got(f, pos, size)|)
  }

  class File {
    const bytes: Bytes
    var pos: nat

    constructor (bytes: Bytes)
      ensures this.bytes == bytes && pos == 0
    {
      this.bytes := bytes;
      pos := 0;
    }

    method Read(n: nat) returns (got: Bytes)
      modifies this
      ensures got == Got(bytes, old(pos), n) && pos == After(bytes, old(pos), n)
    {
      got := Got(bytes, pos, n);
      pos := pos + |got|;
    }

    method ReadNumber(n: nat, was: nat) returns (v: nat)
      modifies this
      ensures v == Number(bytes, old(pos), n, was) && pos == After(bytes, old(pos), n)
    {
      var got := Read(n);
      v := if |got| == n then Value(got) else was;
    }

    method Seek(n: nat)
      modifies this
      ensures pos == old(pos) + n
    {
      pos := pos + n;
    }
  }

  // ---------- What the scanners compute ----------

  /** Positions after a chunk's header and payload. */
  function Size(f: Bytes, pos: nat): nat {
    Number(f, pos + 4, 4, 0)
  }

  function Body(f: Bytes, pos: nat): nat {
    After(f, pos + 4, 4)
  }

  function Skipped(f: Bytes, pos: nat): nat {
    Body(f, pos) + Size(f, pos) + Size(f, pos) % 2
  }

  /** readWAV reads 16 bytes of a fmt chunk and seeks over the rest, without the pad byte. */
  function FmtSkipped(f: Bytes, pos: nat): nat {
    After(f, Body(f, pos), 16) + (if Size(f, pos) > 16 then Size(f, pos) - 16 else 0)
  }

  function Fields(f: Bytes, p: nat, h: Header): Header {
    Header(Number(f, p, 2, h.audioFormat), Number(f, p + 2, 2, h.channels), Number(f, p + 4, 4, h.sampleRate),
           Number(f, p + 8, 4, h.byteRate), Number(f, p + 12, 2, h.blockAlign), Number(f, p + 14, 2, h.bitsPerSample))
  }

  function ScanWav(f: Bytes, pos: nat, h: Header): Option<Wav>
    decreases |f| - pos
  {
    if pos + 4 > |f| then None
    else
      var id := f[pos..pos + 4];
      if id == FMT then ScanWav(f, FmtSkipped(f, pos), Fields(f, Body(f, pos), h))
      else if id == DATA then Some(Wav(h, Filled(f, Body(f, pos), Size(f, pos))))
      else ScanWav(f, Skipped(f, pos), h)
  }

  function ScanPcm(f: Bytes, pos: nat): Option<Bytes>
    decreases |f| - pos
  {
    if pos + 4 > |f| then None
    else if f[pos..pos + 4] == DATA then Some(Filled(f, Body(f, pos), Size(f, pos)))
    else ScanPcm(f, Skipped(f, pos))
  }

  const NO_HEADER := Header(0, 0, 0, 0, 0, 0)

  function WavOf(f: Bytes): Result<Wav, WavError> {
    if |f| < 4 then Err(ShortRiff)
    else if f[..4] != RIFF then Err(NotRiff)
    else if |f| < 12 then Err(ShortWave)
    else if f[8..12] != WAVE then Err(NotWave)
    else match ScanWav(f, 12, NO_HEADER)
      case None => Err(NoData)
      case Some(w) => Ok(w)
  }

  function PcmOf(f: Bytes): Result<Bytes, WavError> {
    if |f| < 4 || f[..4] != RIFF then Err(NotRiff)
    else if |f| < 12 || f[8..12] != WAVE then Err(NotWave)
    else match ScanPcm(f, 12)
      case None => Err(NoData)
      case Some(pcm) => Ok(pcm)
  }

  // ---------- The loops ----------

  lemma ReadsJoin(f: Bytes, pos: nat, n: nat, m: nat)
    ensures After(f, After(f, pos, n), m) == After(f, pos, n + m)
    ensures forall was :: m > 0 ==> Number(f, After(f, pos, n), m, was) == Number(f, pos + n, m, was)
  {
  }

  method ReadFields(file: File, h: Header) returns (r: Header)
    modifies file
    ensures r == Fields(file.bytes, old(file.pos), h)
    ensures file.pos == After(file.bytes, old(file.pos), 16)
  {
    hide Number, After;
    ghost var f, p := file.bytes, file.pos;
    ReadsJoin(f, p, 2, 2);
    ReadsJoin(f, p, 4, 4);
    ReadsJoin(f, p, 8, 4);
    ReadsJoin(f, p, 12, 2);
    ReadsJoin(f, p, 14, 2);
    var audioFormat := file.ReadNumber(2, h.audioFormat);
    var channels := file.ReadNumber(2, h.channels);
    var sampleRate := file.ReadNumber(4, h.sampleRate);
    var byteRate := file.ReadNumber(4, h.byteRate);
    var blockAlign := file.ReadNumber(2, h.blockAlign);
    var bitsPerSample := file.ReadNumber(2, h.bitsPerSample);
    r := Header(audioFormat, channels, sampleRate, byteRate, blockAlign, bitsPerSample);
  }

  method ReadBuffer(file: File, size: nat) returns (pcm: Bytes)
    modifies file
    ensures pcm == Filled(file.bytes, old(file.pos), size)
  {
    var got := file.Read(size);
    pcm := got + Zeros(size - |got|);
  }

  /** The first twelve bytes as the scanners read them; the RIFF size between is not used. */
  lemma Preamble(f: Bytes)
    ensures |Got(f, 0, 4)| < 4 <==> |f| < 4
    ensures |f| >= 4 ==> Got(f, 0, 4) == f[..4] && After(f, 0, 4) == 4
    ensures var p := After(f, 4, 4);
      (|Got(f, p, 4)| < 4 <==> |f| < 12) && (|f| >= 12 ==> Got(f, p, 4) == f[8..12] && After(f, p, 4) == 12)
  {
  }

  /** One turn of each loop. */
  lemma WavStep(f: Bytes, pos: nat, h: Header)
    ensures |Got(f, pos, 4)| < 4 ==> ScanWav(f, pos, h) == None
    ensures |Got(f, pos, 4)| == 4 ==>
      && After(f, pos, 4) == pos + 4 <= |f|
      && FmtSkipped(f, pos) > pos && Skipped(f, pos) > pos
      && ScanWav(f, pos, h) ==
           if Got(f, pos, 4) == FMT then ScanWav(f, FmtSkipped(f, pos), Fields(f, Body(f, pos), h))
           else if Got(f, pos, 4) == DATA then Some(Wav(h, Filled(f, Body(f, pos), Size(f, pos))))
           else ScanWav(f, Skipped(f, pos), h)
  {
    hide Fields, Filled;
  }

  lemma PcmStep(f: Bytes, pos: nat)
    ensures |Got(f, pos, 4)| < 4 ==> ScanPcm(f, pos) == None
    ensures |Got(f, pos, 4)| == 4 ==>
      && After(f, pos, 4) == pos + 4 <= |f|
      && Skipped(f, pos) > pos
      && ScanPcm(f, pos) ==
           if Got(f, pos, 4) == DATA then Some(Filled(f, Body(f, pos), Size(f, pos)))
           else ScanPcm(f, Skipped(f, pos))
  {
    hide Filled;
  }

  method ReadWav(f: Bytes) returns (r: Result<Wav, WavError>)
    ensures r == WavOf(f)
  {
    hide Fields, Filled, ScanWav, Got, After, Number;
    Preamble(f);
    var file := new File(f);
    var riff := file.Read(4);
    if |riff| < 4 {
      return Err(ShortRiff);
    }
    if riff != RIFF {
      return Err(NotRiff);
    }
    var fileSize := file.ReadNumber(4, 0);
    var wave := file.Read(4);
    if |wave| < 4 {
      return Err(ShortWave);
    }
    if wave != WAVE {
      return Err(NotWave);
    }
    var hdr := NO_HEADER;
    var pcm: Option<Bytes> := None;
    while pcm == None
      invariant file.bytes == f && fresh(file)
      invariant pcm == None ==> ScanWav(f, file.pos, hdr) == ScanWav(f, 12, NO_HEADER)
      invariant pcm.Some? ==> ScanWav(f, 12, NO_HEADER) == Some(Wav(hdr, pcm.value))
      decreases pcm == None, |f| - file.pos
    {
      WavStep(f, file.pos, hdr);
      var id := file.Read(4);
      if |id| < 4 {
        break;
      }
      var size := file.ReadNumber(4, 0);
      if id == FMT {
        hdr := ReadFields(file, hdr);
        if size > 16 {
          file.Seek(size - 16);
        }
      } else if id == DATA {
        var buffer := ReadBuffer(file, size);
        pcm := Some(buffer);
      } else {
        file.Seek(if size % 2 != 0 then size + 1 else size);
      }
    }
    r := if pcm.Some? then Ok(Wav(hdr, pcm.value)) else Err(NoData);
  }

  method ReadWavPcm(f: Bytes) returns (r: Result<Bytes, WavError>)
    ensures r == PcmOf(f)
  {
    hide Filled, ScanPcm, Got, After, Number;
    Preamble(f);
    var file := new File(f);
    var riff := file.Read(4);
    if riff != RIFF {
      return Err(NotRiff);
    }
    var fileSize := file.ReadNumber(4, 0);
    var wave := file.Read(4);
    if wave != WAVE {
      return Err(NotWave);
    }
    while true
      invariant file.bytes == f && fresh(file)
      invariant ScanPcm(f, file.pos) == ScanPcm(f, 12)
      decreases |f| - file.pos
    {
      PcmStep(f, file.pos);
      var id := file.Read(4);
      if |id| < 4 {
        return Err(NoData);
      }
      var size := file.ReadNumber(4, 0);
      if id == DATA {
        var pcm := ReadBuffer(file, size);
        return Ok(pcm);
      }
      file.Seek(if size % 2 != 0 then size + 1 else size);
    }
  }

  // ---------- When they agree ----------

  /** The 16 bytes readWAV reads plus its unpadded seek reach the padded end of the chunk. */
  predicate FmtOk(size: nat) {
    (if size > 16 then size else 16) == size + size % 2
  }

  /** Which sizes those are: every even size from 16 on, and 15. */
  lemma FmtOkMeans(size: nat)
    ensures FmtOk(size) <==> size == 15 || (size >= 16 && size % 2 == 0)
  {
  }

  /** Sizes declared by the fmt chunks met before the data chunk. */
  function FmtSizes(f: Bytes, pos: nat): seq<nat>
    decreases |f| - pos
  {
    if pos + 8 > |f| || f[pos..pos + 4] == DATA then []
    else (if f[pos..pos + 4] == FMT then [Size(f, pos)] else []) + FmtSizes(f, Skipped(f, pos))
  }

  lemma {:induction false} ScansAgree(f: Bytes, pos: nat, h: Header)
    requires forall s | s in FmtSizes(f, pos) :: FmtOk(s)
    ensures ScanWav(f, pos, h).Some? <==> ScanPcm(f, pos).Some?
    ensures ScanWav(f, pos, h).Some? ==> ScanWav(f, pos, h).value.pcm == ScanPcm(f, pos).value
    decreases |f| - pos
  {
    if pos + 4 <= |f| && f[pos..pos + 4] != DATA {
      var id := f[pos..pos + 4];
      var fields := Fields(f, Body(f, pos), h);
      if pos + 8 > |f| {
        assert FmtSkipped(f, pos) + 4 > |f| && Skipped(f, pos) + 4 > |f|;
      } else if id == FMT {
        assert Size(f, pos) in FmtSizes(f, pos);
        if pos + 24 <= |f| {
          assert FmtSkipped(f, pos) == Skipped(f, pos);
          ScansAgree(f, Skipped(f, pos), fields);
        } else {
          assert FmtSkipped(f, pos) + 4 > |f| && Skipped(f, pos) + 4 > |f|;
        }
      } else {
        ScansAgree(f, Skipped(f, pos), h);
      }
    }
  }

  ghost predicate SameOutcome(f: Bytes) {
    && (WavOf(f).Ok? <==> PcmOf(f).Ok?)
    && (WavOf(f).Ok? ==> WavOf(f).value.pcm == PcmOf(f).value)
  }

  /** Both return the same PCM, or both fail, on every byte string whose fmt chunks before the
      data chunk declare such sizes. */
  lemma ScannersAgree(f: Bytes)
    requires forall s | s in FmtSizes(f, 12) :: FmtOk(s)
    ensures SameOutcome(f)
  {
    hide ScanWav, ScanPcm, FmtSizes;
    ScansAgree(f, 12, NO_HEADER);
  }

  predicate Spells(b: Bytes, text: string) {
    |b| == |text| && forall i | 0 <= i < |b| :: b[i] == text[i] as int
  }

  lemma Tags()
    ensures Spells(RIFF, "RIFF") && Spells(WAVE, "WAVE") && Spells(FMT, "fmt ") && Spells(DATA, "data")
  {
  }

  /** Either scanner looks for chunks in exactly the files that begin with RIFF, four bytes and WAVE;
      there it fails only for lack of a data chunk. */
  lemma OnlyWaveFiles(f: Bytes)
    ensures var wave := |f| >= 12 && Spells(f[..4], "RIFF") && Spells(f[8..12], "WAVE");
      && (wave <==> WavOf(f).Ok? || WavOf(f) == Err(NoData))
      && (wave <==> PcmOf(f).Ok? || PcmOf(f) == Err(NoData))
  {
    hide ScanWav, ScanPcm;
    Tags();
  }

  // ---------- Encoding ----------

  function Le16(n: nat): (r: Bytes)
    ensures |r| == 2
  {
    [n % 256, n / 256 % 256]
  }

  function Le32(n: nat): (r: Bytes)
    ensures |r| == 4
  {
    Le16(n) + Le16(n / 256 / 256)
  }

  lemma Le16Value(n: nat)
    requires n < 0x1_0000
    ensures Value(Le16(n)) == n
  {
    var high := n / 256;
    assert high % 256 == high;
    assert Le16(n)[1..] == [high];
    assert [high][1..] == [];
    assert Value([high]) == high;
  }

  lemma Le32Value(n: nat)
    requires n < 0x1_0000_0000
    ensures Value(Le32(n)) == n
  {
    hide Value;
    var a := n / 256;
    var high := a / 256;
    PairFirst(n % 256, a % 256, Le16(high));
    assert Le32(n) == [n % 256, a % 256] + Le16(high);
    Le16Value(high);
    assert n == n % 256 + 256 * a;
    assert a == a % 256 + 256 * high;
  }

  lemma PairFirst(x: Byte, y: Byte, rest: Bytes)
    ensures Value([x, y] + rest) == x + 256 * (y + 256 * Value(rest))
  {
    assert ([x, y] + rest)[1..] == [y] + rest;
    assert ([y] + rest)[1..] == rest;
  }

  datatype Chunk = Chunk(id: Bytes, payload: Bytes)

  predicate Encodable(c: Chunk) {
    |c.id| == 4 && |c.payload| < 0x1_0000_0000
  }

  function Encode(c: Chunk): Bytes {
    c.id + Le32(|c.payload|) + c.payload + Zeros(|c.payload| % 2)
  }

  function EncodeAll(cs: seq<Chunk>): Bytes {
    if cs == [] then [] else Encode(cs[0]) + EncodeAll(cs[1..])
  }

  function EncodeFile(declared: nat, cs: seq<Chunk>): Bytes {
    RIFF + Le32(declared) + WAVE + EncodeAll(cs)
  }

  function FirstData(cs: seq<Chunk>): Option<Bytes> {
    if cs == [] then None else if cs[0].id == DATA then Some(cs[0].payload) else FirstData(cs[1..])
  }

  /** Reading an encoded chunk behind any prefix and before any suffix. */
  lemma ChunkRead(pre: Bytes, c: Chunk, post: Bytes)
    requires Encodable(c)
    ensures var f := pre + (Encode(c) + post);
      && f[|pre|..|pre| + 4] == c.id
      && Size(f, |pre|) == |c.payload| && Body(f, |pre|) == |pre| + 8
      && Filled(f, |pre| + 8, |c.payload|) == c.payload
      && Skipped(f, |pre|) == |pre + Encode(c)|
  {
    hide Value;
    var f := pre + (Encode(c) + post);
    var p, n := |pre|, |c.payload|;
    assert f[p..p + 4] == c.id;
    assert f[p + 4..p + 8] == Le32(n);
    assert f[p + 8..p + 8 + n] == c.payload;
    assert Got(f, p + 4, 4) == Le32(n);
    Le32Value(n);
    assert Got(f, p + 8, n) == c.payload;
    assert c.payload + Zeros(0) == c.payload;
  }

  lemma {:induction false} PcmOfEncoding(pre: Bytes, cs: seq<Chunk>)
    requires forall c | c in cs :: Encodable(c)
    ensures ScanPcm(pre + EncodeAll(cs), |pre|) == FirstData(cs)
    decreases |cs|
  {
    hide Encode, Size, Body, Skipped, Filled;
    if cs != [] {
      var c, post := cs[0], EncodeAll(cs[1..]);
      var f := pre + EncodeAll(cs);
      ChunkRead(pre, c, post);
      EncodeLength(c);
      if c.id != DATA {
        assert pre + Encode(c) + post == f;
        PcmOfEncoding(pre + Encode(c), cs[1..]);
      }
    }
  }

  lemma EncodeLength(c: Chunk)
    requires Encodable(c)
    ensures |Encode(c)| == 8 + |c.payload| + |c.payload| % 2
  {
  }

  /** Sizes of the fmt chunks before the first data chunk. */
  function FmtsBeforeData(cs: seq<Chunk>): seq<nat> {
    if cs == [] || cs[0].id == DATA then []
    else (if cs[0].id == FMT then [|cs[0].payload|] else []) + FmtsBeforeData(cs[1..])
  }

  lemma {:induction false} FmtSizesOfEncoding(pre: Bytes, cs: seq<Chunk>)
    requires forall c | c in cs :: Encodable(c)
    ensures FmtSizes(pre + EncodeAll(cs), |pre|) == FmtsBeforeData(cs)
    decreases |cs|
  {
    hide Encode, Size, Body, Skipped, Filled;
    if cs != [] {
      var c, post := cs[0], EncodeAll(cs[1..]);
      var f := pre + EncodeAll(cs);
      ChunkRead(pre, c, post);
      EncodeLength(c);
      if c.id != DATA {
        assert pre + Encode(c) + post == f;
        FmtSizesOfEncoding(pre + Encode(c), cs[1..]);
      }
    }
  }

  /** On any odd-padded encoding of a chunk list readWAVPCM returns the first data chunk's payload,
      or fails if there is none; so does readWAV when the fmt chunks before it have such sizes. */
  lemma ScannersInvertTheEncoder(declared: nat, cs: seq<Chunk>)
    requires forall c | c in cs :: Encodable(c)
    ensures var f := EncodeFile(declared, cs);
      && PcmOf(f) == (match FirstData(cs) case None => Err(NoData) case Some(pcm) => Ok(pcm))
      && ((forall s | s in FmtsBeforeData(cs) :: FmtOk(s)) ==>
            match FirstData(cs)
            case None => WavOf(f) == Err(NoData)
            case Some(pcm) => WavOf(f).Ok? && WavOf(f).value.pcm == pcm)
  {
    hide ScanWav, ScanPcm, FmtSizes, EncodeAll, FirstData, Encodable, FmtsBeforeData;
    var f, pre := EncodeFile(declared, cs), RIFF + Le32(declared) + WAVE;
    assert f[..4] == RIFF && f[8..12] == WAVE;
    PcmOfEncoding(pre, cs);
    FmtSizesOfEncoding(pre, cs);
    if forall s | s in FmtsBeforeData(cs) :: FmtOk(s) {
      ScannersAgree(f);
    }
  }

  /** A data chunk cut short by the end of the file still has its declared size: what is there, and
      zeros for the rest. */
  lemma TruncatedDataIsZeroFilled(pre: Bytes, size: nat, there: Bytes, h: Header)
    requires size < 0x1_0000_0000 && |there| <= size
    ensures var f := pre + (DATA + Le32(size) + there);
      && ScanPcm(f, |pre|).Some? && ScanWav(f, |pre|, h) == Some(Wav(h, ScanPcm(f, |pre|).value))
      && var pcm := ScanPcm(f, |pre|).value;
         |pcm| == size && pcm[..|there|] == there && forall i | |there| <= i < size :: pcm[i] == 0
  {
    hide Value, Le32, ScanWav, ScanPcm, Skipped, FmtSkipped, Fields;
    var f, p := pre + (DATA + Le32(size) + there), |pre|;
    assert f[p..p + 4] == DATA && f[p + 4..p + 8] == Le32(size) && f[p + 8..] == there;
    ReadAt(f, p);
    ReadAt(f, p + 4);
    Le32Value(size);
    WavStep(f, p, h);
    PcmStep(f, p);
  }

  // ---------- The header ----------

  function EncodeHeader(h: Header): Bytes {
    Le16(h.audioFormat) + Le16(h.channels) + Le32(h.sampleRate)
      + Le32(h.byteRate) + Le16(h.blockAlign) + Le16(h.bitsPerSample)
  }

  predicate Fits(h: Header) {
    && h.audioFormat < 0x1_0000 && h.channels < 0x1_0000 && h.blockAlign < 0x1_0000 && h.bitsPerSample < 0x1_0000
    && h.sampleRate < 0x1_0000_0000 && h.byteRate < 0x1_0000_0000
  }

  lemma HeaderParts(h: Header)
    ensures var e := EncodeHeader(h);
      && |e| == 16
      && e[0..2] == Le16(h.audioFormat) && e[2..4] == Le16(h.channels) && e[4..8] == Le32(h.sampleRate)
      && e[8..12] == Le32(h.byteRate) && e[12..14] == Le16(h.blockAlign) && e[14..16] == Le16(h.bitsPerSample)
  {
    hide Le16;
  }

  lemma PartRead(f: Bytes, p: nat, e: Bytes, from: nat, n: nat)
    requires p + |e| <= |f| && f[p..p + |e|] == e && from + n <= |e| && n > 0
    ensures Got(f, p + from, n) == e[from..from + n]
  {
    assert forall k | from <= k < from + n :: f[p + k] == f[p..p + |e|][k] == e[k];
  }

  lemma FieldsRead(f: Bytes, p: nat, h: Header, was: Header)
    requires Fits(h) && p + 16 <= |f| && f[p..p + 16] == EncodeHeader(h)
    ensures Fields(f, p, was) == h
  {
    hide Value, Got, Le16, Le32, EncodeHeader;
    var e := EncodeHeader(h);
    HeaderParts(h);
    PartRead(f, p, e, 0, 2);
    PartRead(f, p, e, 2, 2);
    PartRead(f, p, e, 4, 4);
    PartRead(f, p, e, 8, 4);
    PartRead(f, p, e, 12, 2);
    PartRead(f, p, e, 14, 2);
    Le16Value(h.audioFormat);
    Le16Value(h.channels);
    Le32Value(h.sampleRate);
    Le32Value(h.byteRate);
    Le16Value(h.blockAlign);
    Le16Value(h.bitsPerSample);
  }

  lemma FmtScan(pre: Bytes, c: Chunk, post: Bytes, h: Header, was: Header)
    requires Encodable(c) && Fits(h) && c.id == FMT
    requires |c.payload| >= 16 && |c.payload| % 2 == 0 && c.payload[..16] == EncodeHeader(h)
    ensures var f := pre + (Encode(c) + post); ScanWav(f, |pre|, was) == ScanWav(f, |pre + Encode(c)|, h)
  {
    hide Encode, EncodeHeader, Fields, Filled, Size, Body, Skipped, FmtSkipped, ScanWav;
    var f, p := pre + (Encode(c) + post), |pre|;
    EncodeLength(c);
    ChunkRead(pre, c, post);
    PayloadRead(pre, c, post);
    assert f[p + 8..p + 24] == f[p + 8..p + 8 + |c.payload|][..16];
    FieldsRead(f, p + 8, h, was);
    FmtPosition(f, p);
    WavStep(f, p, was);
    ReadAt(f, p);
  }

  lemma DataScan(pre: Bytes, c: Chunk, post: Bytes, h: Header)
    requires Encodable(c) && c.id == DATA
    ensures ScanWav(pre + (Encode(c) + post), |pre|, h) == Some(Wav(h, c.payload))
  {
    hide Encode, Fields, Filled, Size, Body, Skipped, FmtSkipped, ScanWav;
    EncodeLength(c);
    ChunkRead(pre, c, post);
    WavStep(pre + (Encode(c) + post), |pre|, h);
    ReadAt(pre + (Encode(c) + post), |pre|);
  }

  /** A format chunk, possibly extended, and a data chunk come back as they were written. */
  lemma WavRoundTrip(declared: nat, h: Header, extension: Bytes, pcm: Bytes)
    requires Fits(h) && |extension| % 2 == 0
    requires |extension| + 16 < 0x1_0000_0000 && |pcm| < 0x1_0000_0000
    ensures var cs := [Chunk(FMT, EncodeHeader(h) + extension), Chunk(DATA, pcm)];
      WavOf(EncodeFile(declared, cs)) == Ok(Wav(h, pcm))
  {
    hide Encode, EncodeHeader, ScanWav, EncodeAll, Le32;
    HeaderParts(h);
    var c, d := Chunk(FMT, EncodeHeader(h) + extension), Chunk(DATA, pcm);
    var pre, f := RIFF + Le32(declared) + WAVE, EncodeFile(declared, [c, d]);
    TwoChunks(c, d);
    FmtScan(pre, c, Encode(d), h, NO_HEADER);
    DataScan(pre + Encode(c), d, [], h);
    assert f == pre + (Encode(c) + Encode(d)) == (pre + Encode(c)) + (Encode(d) + []);
    assert f[..4] == RIFF && f[8..12] == WAVE && |pre| == 12;
  }

  lemma FmtPosition(f: Bytes, pos: nat)
    requires Body(f, pos) + 16 <= |f|
    ensures FmtSkipped(f, pos) == Body(f, pos) + (if Size(f, pos) > 16 then Size(f, pos) else 16)
  {
  }

  lemma ReadAt(f: Bytes, pos: nat)
    requires pos + 4 <= |f|
    ensures Got(f, pos, 4) == f[pos..pos + 4]
  {
  }

  lemma TwoChunks(c: Chunk, d: Chunk)
    ensures EncodeAll([c, d]) == Encode(c) + Encode(d) == Encode(c) + (Encode(d) + [])
    ensures FirstData([c, d]) ==
      if c.id == DATA then Some(c.payload) else if d.id == DATA then Some(d.payload) else None
  {
    hide Encode;
    assert [c, d][1..] == [d] && [d][1..] == [];
    assert EncodeAll([d]) == Encode(d) + EncodeAll([]);
    assert EncodeAll([c, d]) == Encode(c) + EncodeAll([d]);
    assert FirstData([c, d]) == if c.id == DATA then Some(c.payload) else FirstData([d]);
  }

  lemma PayloadRead(pre: Bytes, c: Chunk, post: Bytes)
    requires Encodable(c)
    ensures var f := pre + (Encode(c) + post); var p := |pre| + 8;
      |f| >= p + |c.payload| && f[p..p + |c.payload|] == c.payload
  {
  }

  // ---------- When they do not ----------

  /** An empty data chunk behind one zero-filled fmt chunk of `size` bytes, padded if odd. */
  function OneFmt(size: nat): Bytes {
    EncodeFile(4, [Chunk(FMT, Zeros(size)), Chunk(DATA, [])])
  }

  /** Where things lie in it. */
  lemma OneFmtLayout(size: nat)
    requires size < 0x1_0000_0000
    ensures var f := OneFmt(size); var end := 20 + size + size % 2;
      && |f| == end + 8 && f[..4] == RIFF && f[8..12] == WAVE && f[12..16] == FMT
      && Size(f, 12) == size && Body(f, 12) == 20
      && (forall i | 20 <= i < end :: f[i] == 0)
      && f[end..] == DATA + [0, 0, 0, 0]
  {
    hide Size, Body, Encode, Le32, EncodeAll, Skipped, Filled;
    var c, d := Chunk(FMT, Zeros(size)), Chunk(DATA, []);
    var pre, f := RIFF + Le32(4) + WAVE, OneFmt(size);
    TwoChunks(c, d);
    EncodeLength(c);
    EmptyData(d);
    assert f == pre + (Encode(c) + Encode(d));
    ChunkRead(pre, c, Encode(d));
    PaddedZeros(pre, c, Encode(d));
    assert f[..4] == RIFF && f[8..12] == WAVE && |pre| == 12;
  }

  lemma EmptyData(d: Chunk)
    requires d == Chunk(DATA, [])
    ensures Encode(d) == DATA + [0, 0, 0, 0]
  {
    assert Le32(0) == [0, 0, 0, 0];
  }

  lemma PaddedZeros(pre: Bytes, c: Chunk, post: Bytes)
    requires Encodable(c) && c.payload == Zeros(|c.payload|)
    ensures var f := pre + (Encode(c) + post); var p := |pre| + 8; var end := p + |c.payload| + |c.payload| % 2;
      |f| == end + |post| && (forall i | p <= i < end :: f[i] == 0) && f[end..] == post
  {
  }

  /** An unknown id with less than a size behind it ends the scan. */
  lemma CutShort(f: Bytes, pos: nat, h: Header)
    requires |f| < pos + 8
    requires pos + 4 <= |f| ==> f[pos..pos + 4] != FMT && f[pos..pos + 4] != DATA
    ensures ScanWav(f, pos, h) == None
  {
    if pos + 4 <= |f| {
      assert Skipped(f, pos) == |f|;
    }
  }

  lemma ShortFmt(size: nat)
    requires size < 15
    ensures ScanWav(OneFmt(size), 12, NO_HEADER) == None
  {
    hide Fields, OneFmt, Size, Body, FmtSkipped, Skipped, ScanWav;
    OneFmtLayout(size);
    var f := OneFmt(size);
    WavStep(f, 12, NO_HEADER);
    ReadAt(f, 12);
    var q, end := FmtSkipped(f, 12), 20 + size + size % 2;
    ShortFmtPosition(f, 12);
    if q + 4 <= |f| {
      var k := q - end;  // 2 or 4
      assert f[q] == f[end..][k] == (DATA + [0, 0, 0, 0])[k];
      assert f[q..q + 4][0] == f[q];
    }
    CutShort(f, q, Fields(f, 20, NO_HEADER));
  }

  lemma ShortFmtPosition(f: Bytes, pos: nat)
    requires Size(f, pos) < 16 && Body(f, pos) <= |f|
    ensures FmtSkipped(f, pos) == if Body(f, pos) + 16 <= |f| then Body(f, pos) + 16 else |f|
  {
  }

  lemma OddFmt(size: nat)
    requires 16 < size < 0x1_0000_0000 && size % 2 == 1
    ensures ScanWav(OneFmt(size), 12, NO_HEADER) == None
  {
    hide Fields, OneFmt, Size, Body, Skipped, FmtSkipped, ScanWav;
    OneFmtLayout(size);
    var f, q := OneFmt(size), 20 + size;
    var h := Fields(f, 20, NO_HEADER);
    WavStep(f, 12, NO_HEADER);
    ReadAt(f, 12);
    FmtPosition(f, 12);
    assert forall k | 0 <= k < 8 :: f[q + 1 + k] == f[q + 1..][k] == (DATA + [0, 0, 0, 0])[k];
    assert f[q..q + 4] == [0, 0x64, 0x61, 0x74];
    BeyondTheEnd(f, q);
    WavStep(f, q, h);
    ReadAt(f, q);
    CutShort(f, Skipped(f, q), h);
  }

  /** For every other size readWAV loses its place in that file: readWAVPCM returns the empty
      payload and readWAV finds no data chunk. */
  lemma BadFmtSize(size: nat)
    requires size < 0x1_0000_0000 && !FmtOk(size)
    ensures PcmOf(OneFmt(size)) == Ok([]) && WavOf(OneFmt(size)) == Err(NoData)
    ensures FmtSizes(OneFmt(size), 12) == [size]
  {
    hide FmtSizes, Fields, PcmOf, OneFmt, ScanWav;
    OneFmtPcm(size);
    OneFmtLayout(size);
    if size < 16 {
      ShortFmt(size);
    } else {
      OddFmt(size);
    }
  }

  lemma OneFmtPcm(size: nat)
    requires size < 0x1_0000_0000
    ensures PcmOf(OneFmt(size)) == Ok([]) && FmtSizes(OneFmt(size), 12) == [size]
  {
    hide PcmOf, FmtSizes, Encode;
    var c, d := Chunk(FMT, Zeros(size)), Chunk(DATA, []);
    var cs := [c, d];
    TwoChunks(c, d);
    assert cs[1..] == [d];
    assert FmtsBeforeData(cs) == [size] + FmtsBeforeData([d]);
    ScannersInvertTheEncoder(4, cs);
    FmtSizesOfEncoding(RIFF + Le32(4) + WAVE, cs);
  }

  lemma BeyondTheEnd(f: Bytes, q: nat)
    requires |f| == q + 9 && f[q + 4] == 0x61 && f[q + 5] == f[q + 6] == f[q + 7] == 0
    ensures Skipped(f, q) > |f|
  {
    assert Got(f, q + 4, 4) == [0x61, 0] + Le16(0);
    PairFirst(0x61, 0, Le16(0));
    Le16Value(0);
  }

  ghost predicate OnlyFmtSize(f: Bytes, size: nat) {
    forall s | s in FmtSizes(f, 12) :: s == size
  }

  /** The exact condition on a fmt size: the scanners agree on every file whose fmt chunks before
      the data chunk declare it if and only if it is 15, or even and at least 16. */
  lemma ExactFmtSizes(size: nat)
    requires size < 0x1_0000_0000
    ensures (size == 15 || (size >= 16 && size % 2 == 0)) <==>
      forall f: Bytes :: OnlyFmtSize(f, size) ==> SameOutcome(f)
  {
    hide FmtSizes, SameOutcome;
    FmtOkMeans(size);
    if FmtOk(size) {
      forall f: Bytes | OnlyFmtSize(f, size) ensures SameOutcome(f) {
        ScannersAgree(f);
      }
    } else {
      BadFmtSize(size);
      Disagree(OneFmt(size));
      assert OnlyFmtSize(OneFmt(size), size);
    }
  }

  lemma Disagree(f: Bytes)
    requires PcmOf(f) == Ok([]) && WavOf(f) == Err(NoData)
    ensures !SameOutcome(f)
  {
  }
}
