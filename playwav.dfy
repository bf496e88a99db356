/** The sample conversion of the WAV player: a 16-bit signed PCM sample is
    turned into an unsigned 8-bit one (int16tobyte), and FromFile's loop reads
    chunks of samples, converts them and writes each non-empty chunk to the
    audio device until the reader reports end of file or an error.

    The WAV reader and the ALSA device are abstracted: the reader is the
    sequence of (chunk, status) results it would return, and the device
    records the byte buffers written to it. */
module PlayWav {
  import opened GoTypes

  // ---------------------------------------------------------------------
  // int16tobyte

  function Pow2(n: nat): (r: nat)
    ensures r > 0
  {
    if n == 0 then 1 else 2 * Pow2(n - 1)
  }

  /** Go's `x >> n` on a signed operand is an arithmetic shift: each step
      drops the low bit and copies the sign bit, which is halving rounded
      toward negative infinity (Dafny's / with divisor 2). The result is
      floor(x / 2^n): the largest r with 2^n * r <= x. */
  function ShiftRight(x: Int16, n: nat): (r: Int16)
    ensures Pow2(n) * (r as int) <= x as int < Pow2(n) * (r as int) + Pow2(n)
    decreases n
  {
    if n == 0 then x
    else
      var half := (x as int / 2) as Int16;
      var r := ShiftRight(half, n - 1);
      assert Pow2(n) * (r as int) == 2 * (Pow2(n - 1) * (r as int));
      r
  }

  /** int16tobyte: `uint8((x >> 8) + 128)`, where `+ 128` is int16 addition
      and `uint8(...)` keeps the low byte. Neither wraps: the result is
      exactly floor(x / 256) + 128, always within 0..255. */
  function Int16ToByte(x: Int16): (r: Uint8)
    ensures r as int == x as int / 256 + 128
  {
    assert Pow2(8) == 256;
    var shifted := ShiftRight(x, 8);
    var sum := ToInt16(shifted as int + 128);
    ToUint8(sum as int)
  }

  /** The int16 sum inside int16tobyte never overflows. */
  lemma Int16ToByteNoOverflow(x: Int16)
    ensures -0x8000 <= ShiftRight(x, 8) as int + 128 < 0x8000
    ensures 0 <= ShiftRight(x, 8) as int + 128 < 0x100
  {
    assert Pow2(8) == 256;
  }

  /** A louder (greater) sample never maps to a smaller byte. */
  lemma Int16ToByteMonotone(x: Int16, y: Int16)
    requires x <= y
    ensures Int16ToByte(x) <= Int16ToByte(y)
  {
  }

  /** The extreme and middle samples map to the extreme and middle bytes. */
  lemma Int16ToByteCorners()
    ensures Int16ToByte(-0x8000) == 0
    ensures Int16ToByte(0) == 128
    ensures Int16ToByte(0x7FFF) == 255
  {
  }

  /** int16tobyte maps a sample and every sample sharing its high byte alike,
      and the 256 samples of one high byte are exactly one output value. */
  lemma Int16ToByteHighByte(x: Int16, y: Int16)
    ensures Int16ToByte(x) == Int16ToByte(y) <==> x as int / 256 == y as int / 256
  {
  }

  // ---------------------------------------------------------------------
  // Converting one chunk (FromFile's two inner loops)

  /** The bytes FromFile writes for one chunk: each sample truncated to int16
      and then mapped byte-for-byte through int16tobyte. */
  function ChunkPcm(samples: seq<int>): (pcm: seq<Uint8>)
    ensures |pcm| == |samples|
    ensures forall i :: 0 <= i < |samples| ==> pcm[i] == Int16ToByte(ToInt16(samples[i]))
  {
    seq(|samples|, i requires 0 <= i < |samples| => Int16ToByte(ToInt16(samples[i])))
  }

  /** `for _, b := range s { cvert = append(cvert, int16(b)) }`: the read
      samples in order, each truncated to int16. */
  method ConvertChunk(s: seq<int>) returns (cvert: seq<Int16>)
    ensures |cvert| == |s|
    ensures forall i :: 0 <= i < |s| ==> cvert[i] == ToInt16(s[i])
  {
    cvert := [];
    for i := 0 to |s|
      invariant |cvert| == i
      invariant forall j :: 0 <= j < i ==> cvert[j] == ToInt16(s[j])
    {
      cvert := cvert + [ToInt16(s[i])];
    }
  }

  /** `bytepcm := make([]byte, len(cvert))` filled with
      `bytepcm[i] = int16tobyte(cvert[i])`. */
  method EncodeBytes(cvert: seq<Int16>) returns (bytepcm: array<Uint8>)
    ensures bytepcm.Length == |cvert|
    ensures forall i :: 0 <= i < |cvert| ==> bytepcm[i] == Int16ToByte(cvert[i])
  {
    bytepcm := new Uint8[|cvert|];
    for i := 0 to |cvert|
      invariant forall j :: 0 <= j < i ==> bytepcm[j] == Int16ToByte(cvert[j])
    {
      bytepcm[i] := Int16ToByte(cvert[i]);
    }
  }

  // ---------------------------------------------------------------------
  // The reader, the device and the read/convert/write loop

  /** What a read returned besides its samples: nothing, end of file, or an
      error with its message. */
  datatype ReadStatus = ReadOk | ReadEof | ReadError(message: string)

  /** One result of `wavReader.ReadSampleEvery(2, 0)`. */
  datatype Read = Read(samples: seq<int>, status: ReadStatus)

  /** A read after which the loop stops. */
  predicate Terminal(r: Read)
  {
    !r.status.ReadOk?
  }

  /** The reader eventually reports end of file or an error. */
  predicate Terminated(results: seq<Read>)
  {
    exists i :: 0 <= i < |results| && Terminal(results[i])
  }

  lemma TerminatedTail(results: seq<Read>)
    requires Terminated(results) && !Terminal(results[0])
    ensures Terminated(results[1..])
  {
    var i :| 0 <= i < |results| && Terminal(results[i]);
    assert results[1..][i - 1] == results[i];
  }

  /** The position of the first read that ends the loop. */
  function TerminalIndex(results: seq<Read>): (k: nat)
    requires Terminated(results)
    ensures k < |results| && Terminal(results[k])
    ensures forall i :: 0 <= i < k ==> !Terminal(results[i])
  {
    if Terminal(results[0]) then 0
    else
      TerminatedTail(results);
      1 + TerminalIndex(results[1..])
  }

  /** The error FromFile builds from a read error: `fmt.Sprint("WAV Decode:", err)`
      (Sprint puts no space after a string operand). */
  function WavDecodeError(message: string): string
  {
    "WAV Decode:" + message
  }

  /** The device writes one read causes: none for an empty chunk (cvert
      stays nil), otherwise its converted bytes. */
  function WriteFor(r: Read): (w: seq<seq<Uint8>>)
    ensures |w| == (if |r.samples| > 0 then 1 else 0)
  {
    if |r.samples| > 0 then [ChunkPcm(r.samples)] else []
  }

  /** The device writes of the whole loop, following the loop read by read. */
  function Writes(results: seq<Read>): seq<seq<Uint8>>
    requires Terminated(results)
  {
    var r := results[0];
    if Terminal(r) then WriteFor(r)
    else
      TerminatedTail(results);
      WriteFor(r) + Writes(results[1..])
  }

  /** FromFile's error result after the loop: nil at end of file, a
      "WAV Decode:" error on a read error. */
  function Outcome(results: seq<Read>): Option<string>
    requires Terminated(results)
  {
    match results[0].status
    case ReadEof => None
    case ReadError(m) => Some(WavDecodeError(m))
    case ReadOk =>
      TerminatedTail(results);
      Outcome(results[1..])
  }

  /** An independent description of the writes, the way the loop builds
      them: the writes caused by the first n reads, in read order. */
  function WritesBefore(results: seq<Read>, n: nat): seq<seq<Uint8>>
    requires n <= |results|
  {
    if n == 0 then [] else WritesBefore(results, n - 1) + WriteFor(results[n - 1])
  }

  /** Dropping the first read drops its writes from the front. */
  lemma {:induction false} WritesBeforeTail(results: seq<Read>, n: nat)
    requires n < |results|
    ensures WritesBefore(results, n + 1) == WriteFor(results[0]) + WritesBefore(results[1..], n)
  {
    if n > 0 {
      WritesBeforeTail(results, n - 1);
      assert results[1..][n - 1] == results[n];
    }
  }

  /** The loop writes exactly the non-empty chunks of the reads up to and
      including the one that ends it, in read order. */
  lemma {:induction false} WritesAreWritesBefore(results: seq<Read>)
    requires Terminated(results)
    ensures Writes(results) == WritesBefore(results, TerminalIndex(results) + 1)
    decreases |results|
  {
    var r := results[0];
    if Terminal(r) {
      assert WritesBefore(results, 1) == WriteFor(r);
    } else {
      var tail := results[1..];
      TerminatedTail(results);
      var k := TerminalIndex(tail);
      assert TerminalIndex(results) == k + 1;
      assert Writes(results) == WriteFor(r) + Writes(tail);
      WritesAreWritesBefore(tail);
      WritesBeforeTail(results, k + 1);
    }
  }

  /** The chunk that comes with end of file or an error is still written,
      and it is the last write. */
  lemma TerminalChunkWritten(results: seq<Read>)
    requires Terminated(results)
    requires |results[TerminalIndex(results)].samples| > 0
    ensures |Writes(results)| > 0
    ensures Writes(results)[|Writes(results)| - 1] == ChunkPcm(results[TerminalIndex(results)].samples)
  {
    WritesAreWritesBefore(results);
  }

  /** Nothing the reader would return after the end of file or the error
      matters: the loop has stopped. */
  lemma {:induction false} ReadsAfterTerminalIgnored(results: seq<Read>, more: seq<Read>)
    requires Terminated(results)
    ensures Terminated(results + more)
    ensures TerminalIndex(results + more) == TerminalIndex(results)
    ensures Writes(results + more) == Writes(results)
    ensures Outcome(results + more) == Outcome(results)
    decreases |results|
  {
    var i :| 0 <= i < |results| && Terminal(results[i]);
    assert (results + more)[i] == results[i];
    assert (results + more)[0] == results[0];
    if !Terminal(results[0]) {
      var tail := results[1..];
      TerminatedTail(results);
      assert (results + more)[1..] == tail + more;
      ReadsAfterTerminalIgnored(tail, more);
    }
  }

  /** The loop returns nil exactly when it stopped at end of file, and the
      "WAV Decode:" error of the read error otherwise. */
  lemma {:induction false} OutcomeOfTerminal(results: seq<Read>)
    requires Terminated(results)
    ensures Outcome(results).None? <==> results[TerminalIndex(results)].status == ReadEof
    ensures results[TerminalIndex(results)].status.ReadError? ==>
      Outcome(results) == Some(WavDecodeError(results[TerminalIndex(results)].status.message))
    decreases |results|
  {
    if !Terminal(results[0]) {
      var tail := results[1..];
      TerminatedTail(results);
      OutcomeOfTerminal(tail);
    }
  }

  /** The WAV reader, as the results it would return from now on. */
  class WavReader {
    var pending: seq<Read>

    constructor (results: seq<Read>)
      ensures pending == results
    {
      pending := results;
    }

    /** `ReadSampleEvery(2, 0)`: the next chunk and its status. */
    method ReadSampleEvery() returns (samples: seq<int>, status: ReadStatus)
      requires pending != []
      modifies this
      ensures Read(samples, status) == old(pending[0])
      ensures pending == old(pending[1..])
    {
      samples, status := pending[0].samples, pending[0].status;
      pending := pending[1..];
    }
  }

  /** The ALSA playback device, as the byte buffers written to it. */
  class PcmDevice {
    var writes: seq<seq<Uint8>>

    constructor ()
      ensures writes == []
    {
      writes := [];
    }

    /** `device.Write(bytepcm, periodSize)`. */
    method Write(data: seq<Uint8>)
      modifies this
      ensures writes == old(writes) + [data]
    {
      writes := writes + [data];
    }
  }

  /** One pass of FromFile's loop body: read the next chunk, convert it and
      write it to the device unless it is empty (cvert stays nil). */
  method PlayNext(reader: WavReader, device: PcmDevice) returns (status: ReadStatus)
    requires reader.pending != []
    modifies reader, device
    ensures reader.pending == old(reader.pending[1..])
    ensures status == old(reader.pending[0].status)
    ensures device.writes == old(device.writes) + WriteFor(old(reader.pending[0]))
  {
    var s;
    s, status := reader.ReadSampleEvery();
    var cvert := ConvertChunk(s);
    var bytepcm := EncodeBytes(cvert);
    if |cvert| > 0 {
      assert bytepcm[..] == ChunkPcm(s);
      device.Write(bytepcm[..]);
    }
  }

  /** FromFile's loop: read a chunk, convert it, write it if it is non-empty,
      and stop after the read that reports end of file (returning nil) or an
      error (returning a "WAV Decode:" error). */
  method PlaySamples(reader: WavReader, device: PcmDevice) returns (err: Option<string>)
    requires Terminated(reader.pending)
    modifies reader, device
    ensures device.writes == old(device.writes) + Writes(old(reader.pending))
    ensures err == Outcome(old(reader.pending))
    ensures reader.pending == old(reader.pending)[TerminalIndex(old(reader.pending)) + 1..]
  {
    ghost var all, before := reader.pending, device.writes;
    while true
      invariant Terminated(reader.pending)
      invariant before + Writes(all) == device.writes + Writes(reader.pending)
      invariant Outcome(reader.pending) == Outcome(all)
      invariant reader.pending[TerminalIndex(reader.pending) + 1..] == all[TerminalIndex(all) + 1..]
      decreases |reader.pending|
    {
      ghost var p, written := reader.pending, device.writes;
      var status := PlayNext(reader, device);
      if !status.ReadOk? {
        assert Writes(p) == WriteFor(p[0]) && TerminalIndex(p) == 0;
        assert device.writes == written + Writes(p);
        err := if status.ReadEof? then None else Some(WavDecodeError(status.message));
        break;
      }
      TerminatedTail(p);
      assert Writes(p) == WriteFor(p[0]) + Writes(p[1..]);
      assert before + Writes(all) == written + WriteFor(p[0]) + Writes(p[1..]);
      assert p[1..][TerminalIndex(p[1..]) + 1..] == p[TerminalIndex(p) + 1..];
    }
  }
}
