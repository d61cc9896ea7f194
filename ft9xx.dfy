/** The FT9xx side of the display library (eve_ui_ft9xx.c): a touch
    calibration record kept once in a 256-byte flash sector, and the two
    loops that feed program-memory data to the EVE in 512-byte chunks. */
module Ft9xx {
  import opened Ints

  // ---------------------------------------------------------------------
  // Touch calibration in the data-logger sector

  /** The key that marks a programmed record, and the key of an erased
      sector. */
  const ValidKey: uint32 := 0xd72f91a3
  const BlankKey: uint32 := 0xFFFF_FFFF

  /** The sector, seen as 32-bit words (256 bytes). */
  const SectorWords: nat := 64

  /** The six touch transform words. */
  type Transform = s: seq<uint32> | |s| == 6 witness [0, 0, 0, 0, 0, 0]

  /** struct touchscreen_calibration: the key, then the transform. */
  datatype Calibration = Calibration(key: uint32, transform: Transform)

  /** The record's words at the head of a sector, the rest erased. */
  function Image(c: Calibration): (w: seq<uint32>)
    ensures |w| == SectorWords
    ensures w[0] == c.key && w[1..7] == c.transform
    ensures forall j :: 7 <= j < SectorWords ==> w[j] == BlankKey
  {
    [c.key] + c.transform + seq(SectorWords - 7, _ => BlankKey)
  }

  /** The record a sector holds. */
  function RecordOf(sector: seq<uint32>): Calibration
    requires |sector| == SectorWords
  {
    Calibration(sector[0], sector[1..7])
  }

  /** eve_ui_arch_flash_calib_init: -1 only for a sector that holds neither
      a record nor an erased key and does not sit on a 256-byte boundary. */
  function InitStatus(sector: seq<uint32>, aligned: bool): (r: int)
    requires |sector| == SectorWords
    ensures r == -1 <==> sector[0] != ValidKey && sector[0] != BlankKey && !aligned
    ensures r == 0 || r == -1
  {
    if sector[0] != ValidKey && sector[0] != BlankKey && !aligned then -1 else 0
  }

  /** eve_ui_arch_flash_calib_write: the status, the sector after, and the
      caller's record after. */
  function Write(sector: seq<uint32>, c: Calibration): (r: (int, seq<uint32>, Calibration))
    requires |sector| == SectorWords
    ensures |r.1| == SectorWords
    ensures r.0 == 0 <==> sector[0] == BlankKey
    ensures r.0 != 0 ==> r == (-1, sector, c)
    ensures r.0 == 0 ==> r.2 == c.(key := ValidKey) && r.1 == Image(r.2)
  {
    if sector[0] == BlankKey then
      var c' := c.(key := ValidKey);
      (0, Image(c'), c')
    else (-1, sector, c)
  }

  /** eve_ui_arch_flash_calib_read: the status and the caller's record
      after. */
  function Read(sector: seq<uint32>, c: Calibration): (r: (int, Calibration))
    requires |sector| == SectorWords
    ensures r.0 == 0 <==> sector[0] == ValidKey
    ensures r.0 != 0 ==> r == (-2, c)
    ensures r.0 == 0 ==> r.1 == RecordOf(sector)
  {
    if sector[0] != ValidKey then (-2, c) else (0, RecordOf(sector))
  }

  /** A record written to an erased sector reads back as written, with the
      valid key. */
  lemma WriteThenRead(sector: seq<uint32>, c: Calibration, c0: Calibration)
    requires |sector| == SectorWords && sector[0] == BlankKey
    ensures var (_, sector', c') := Write(sector, c);
      Read(sector', c0) == (0, c') && c'.transform == c.transform && c'.key == ValidKey
  {
    var (_, sector', c') := Write(sector, c);
    assert RecordOf(sector') == c';
  }

  /** The sector is written once: after a write succeeds, every later write
      fails and leaves the sector and the caller's record alone. */
  lemma WriteOnce(sector: seq<uint32>, c1: Calibration, c2: Calibration)
    requires |sector| == SectorWords
    requires Write(sector, c1).0 == 0
    ensures var sector' := Write(sector, c1).1;
      Write(sector', c2) == (-1, sector', c2) && InitStatus(sector', false) == 0
  {
  }

  /** The 256-byte aligned sector dlog_pm, erased at build time. */
  class CalibSector {
    const words: array<uint32>
    const aligned: bool

    constructor(aligned: bool)
      ensures words.Length == SectorWords && fresh(words) && this.aligned == aligned
      ensures forall j :: 0 <= j < SectorWords ==> words[j] == BlankKey
    {
      words := new uint32[SectorWords](_ => BlankKey);
      this.aligned := aligned;
    }

    method CalibInit() returns (r: int)
      requires words.Length == SectorWords
      ensures r == InitStatus(words[..], aligned)
    {
      r := 0;
      if words[0] != ValidKey && words[0] != BlankKey {
        if !aligned {
          r := -1;
        }
      }
    }

    /** Copy the sector out, check it is erased, lay the record over an
        erased buffer with the valid key, and program the sector. */
    method CalibWrite(calib: Calibration) returns (r: int, calib': Calibration)
      requires words.Length == SectorWords
      modifies words
      ensures (r, words[..], calib') == Write(old(words[..]), calib)
    {
      var buffer := words[..];
      calib' := calib;
      r := -1;
      if buffer[0] == BlankKey {
        calib' := calib'.(key := ValidKey);
        buffer := Image(calib');
        var j := 0;
        while j < SectorWords
          invariant 0 <= j <= SectorWords
          invariant words[..j] == buffer[..j]
        {
          words[j] := buffer[j];
          j := j + 1;
        }
        assert words[..] == buffer;
        r := 0;
      }
    }

    method CalibRead(calib: Calibration) returns (r: int, calib': Calibration)
      requires words.Length == SectorWords
      ensures (r, calib') == Read(words[..], calib)
    {
      var buffer := words[..];
      if buffer[0] != ValidKey {
        return -2, calib;
      }
      r, calib' := 0, Calibration(buffer[0], buffer[1..7]);
    }
  }

  // ---------------------------------------------------------------------
  // The 512-byte chunked copies

  const ChunkSize: nat := 512

  /** `n` bytes of program memory from address `from`. */
  function Window(pm: nat -> uint8, from: nat, n: nat): (w: seq<uint8>)
    ensures |w| == n
  {
    seq(n, k requires 0 <= k < n => pm(from + k))
  }

  /** The chunks a copy of `left` bytes from `from` writes: full chunks of
      512 bytes, then what remains. */
  function Chunks(pm: nat -> uint8, from: nat, left: nat): (c: seq<seq<uint8>>)
    ensures |c| == (left + ChunkSize - 1) / ChunkSize
    ensures forall k :: 0 <= k < |c| ==> 0 < |c[k]| <= ChunkSize
    decreases left
  {
    if left == 0 then []
    else
      var n := Min(ChunkSize, left);
      [Window(pm, from, n)] + Chunks(pm, from + n, left - n)
  }

  function Concat(c: seq<seq<uint8>>): seq<uint8> {
    if |c| == 0 then [] else c[0] + Concat(c[1..])
  }

  /** The chunks, put back together, are exactly the bytes to copy. */
  lemma {:induction false} ChunksCoverWindow(pm: nat -> uint8, from: nat, left: nat)
    ensures Concat(Chunks(pm, from, left)) == Window(pm, from, left)
    decreases left
  {
    if left > 0 {
      var n := Min(ChunkSize, left);
      var c := Chunks(pm, from, left);
      assert c[1..] == Chunks(pm, from + n, left - n);
      ChunksCoverWindow(pm, from + n, left - n);
      assert Window(pm, from, left) == Window(pm, from, n) + Window(pm, from + n, left - n);
    }
  }

  /** Every chunk but the last is a full 512 bytes. */
  lemma {:induction false} ChunksAreFull(pm: nat -> uint8, from: nat, left: nat, k: nat)
    requires k + 1 < |Chunks(pm, from, left)|
    ensures |Chunks(pm, from, left)[k]| == ChunkSize
    decreases left
  {
    if k > 0 {
      var n := Min(ChunkSize, left);
      assert Chunks(pm, from, left)[k] == Chunks(pm, from + n, left - n)[k - 1];
      ChunksAreFull(pm, from + n, left - n, k - 1);
    }
  }

  /** Chunk k of a copy is the program memory 512 * k bytes in. */
  lemma {:induction false} ChunkAt(pm: nat -> uint8, from: nat, left: nat, k: nat)
    requires k < |Chunks(pm, from, left)|
    ensures 512 * k < left
    ensures Chunks(pm, from, left)[k] == Window(pm, from + ChunkSize * k, Min(ChunkSize, left - ChunkSize * k))
    decreases left
  {
    if k > 0 {
      var n := Min(ChunkSize, left);
      assert Chunks(pm, from, left)[k] == Chunks(pm, from + n, left - n)[k - 1];
      ChunkAt(pm, from + n, left - n, k - 1);
    }
  }

  /** Chunk k of a copy of `length` bytes from `from`: the 512 bytes at
      512 * k, or the fewer that remain. */
  function ChunkOf(pm: nat -> uint8, from: nat, length: nat, k: nat): seq<uint8>
    requires ChunkSize * k < length
  {
    Window(pm, from + ChunkSize * k, Min(ChunkSize, length - ChunkSize * k))
  }

  /** The chunks of a copy are its chunks taken one by one. */
  lemma ChunksPointwise(pm: nat -> uint8, from: nat, length: nat, written: seq<seq<uint8>>)
    requires |written| == (length + ChunkSize - 1) / ChunkSize
    requires forall k :: 0 <= k < |written| ==> ChunkSize * k < length && written[k] == ChunkOf(pm, from, length, k)
    ensures written == Chunks(pm, from, length)
  {
    forall k | 0 <= k < |written|
      ensures written[k] == Chunks(pm, from, length)[k]
    {
      ChunkAt(pm, from, length, k);
    }
  }

  /** eve_ui_arch_write_cmd_from_pm: `img` is ImgData's address; returns
      the blocks handed to EVE_LIB_WriteDataToCMD in order, and the bytes of
      each program-memory read, always a full 512 even for the last, partial
      chunk. Each block is the head of its read. */
  method WriteCmdFromPm(pm: nat -> uint8, img: nat, length: uint32)
    returns (written: seq<seq<uint8>>, fetches: seq<seq<uint8>>)
    ensures written == Chunks(pm, img, length)
    ensures |fetches| == |written|
    ensures forall k :: 0 <= k < |fetches| ==> fetches[k] == Window(pm, img + ChunkSize * k, ChunkSize)
    ensures forall k :: 0 <= k < |written| ==>
      |written[k]| <= |fetches[k]| && written[k] == fetches[k][..|written[k]|]
    ensures length <= ChunkSize * |fetches| < length + ChunkSize
  {
    var offset: uint32 := 0;
    var imgData := img;
    written, fetches := [], [];
    while offset < length
      invariant offset <= length && imgData == img + offset
      invariant |written| == (offset + ChunkSize - 1) / ChunkSize == |fetches|
      invariant offset < length ==> offset == ChunkSize * |written|
      invariant forall k :: 0 <= k < |written| ==> ChunkSize * k < length && written[k] == ChunkOf(pm, img, length, k)
      invariant forall k :: 0 <= k < |fetches| ==> fetches[k] == Window(pm, img + ChunkSize * k, ChunkSize)
      invariant forall k :: 0 <= k < |written| ==> written[k] == fetches[k][..|written[k]|]
      decreases length - offset
    {
      var ramData := Window(pm, imgData, ChunkSize);
      fetches := fetches + [ramData];
      var left: uint32;
      if length - offset < 512 {
        left := length - offset;
      } else {
        left := 512;
      }
      assert ramData[..left] == ChunkOf(pm, img, length, |written|);
      written := written + [ramData[..left]];
      offset := offset + left;
      imgData := imgData + left;
    }
    ChunksPointwise(pm, img, length, written);
  }

  /** One block handed to EVE_LIB_WriteDataToRAMG. */
  datatype RamWrite = RamWrite(dest: uint32, data: seq<uint8>)

  /** Advancing a wrapped 32-bit address in two steps is advancing it once. */
  lemma Add32Chain(a: uint32, b: nat, c: nat)
    ensures Add32(Add32(a, b), c) == Add32(a, b + c)
  {
    var m := 0x1_0000_0000;
    var q := (a + b) / m;
    assert Add32(a, b) == a + b - q * m;
    assert (a + b - q * m + c) % m == (a + b + c) % m by {
      assert a + b + c == (a + b - q * m + c) + q * m;
    }
  }

  /** eve_ui_arch_write_ram_from_pm: as the command copy, each block going
      to RAM_G at `dest` advanced by the same amount, in 32-bit
      arithmetic. */
  method WriteRamFromPm(pm: nat -> uint8, img: nat, length: uint32, dest: uint32)
    returns (written: seq<RamWrite>, fetches: seq<seq<uint8>>)
    ensures |written| == |Chunks(pm, img, length)| == |fetches|
    ensures forall k :: 0 <= k < |written| ==> written[k].data == Chunks(pm, img, length)[k]
    ensures forall k :: 0 <= k < |written| ==> written[k].dest == Add32(dest, ChunkSize * k)
    ensures forall k :: 0 <= k < |fetches| ==> fetches[k] == Window(pm, img + ChunkSize * k, ChunkSize)
    ensures forall k :: 0 <= k < |written| ==>
      |written[k].data| <= |fetches[k]| && written[k].data == fetches[k][..|written[k].data|]
    ensures length <= ChunkSize * |fetches| < length + ChunkSize
  {
    var offset: uint32 := 0;
    var imgData := img;
    var d := dest;
    written, fetches := [], [];
    while offset < length
      invariant offset <= length && imgData == img + offset && d == Add32(dest, offset)
      invariant |written| == (offset + ChunkSize - 1) / ChunkSize == |fetches|
      invariant offset < length ==> offset == ChunkSize * |written|
      invariant forall k :: 0 <= k < |written| ==> ChunkSize * k < length && written[k].data == ChunkOf(pm, img, length, k)
      invariant forall k :: 0 <= k < |written| ==> written[k].dest == Add32(dest, ChunkSize * k)
      invariant forall k :: 0 <= k < |fetches| ==> fetches[k] == Window(pm, img + ChunkSize * k, ChunkSize)
      invariant forall k :: 0 <= k < |written| ==> written[k].data == fetches[k][..|written[k].data|]
      decreases length - offset
    {
      var ramData := Window(pm, imgData, ChunkSize);
      fetches := fetches + [ramData];
      var left: uint32;
      if length - offset < 512 {
        left := length - offset;
      } else {
        left := 512;
      }
      assert ramData[..left] == ChunkOf(pm, img, length, |written|);
      written := written + [RamWrite(d, ramData[..left])];
      Add32Chain(dest, offset, left);
      offset := offset + left;
      imgData := imgData + left;
      d := Add32(d, left);
    }
    forall k | 0 <= k < |written|
      ensures written[k].data == Chunks(pm, img, length)[k]
    {
      ChunkAt(pm, img, length, k);
    }
  }

  /** Full reads taken back to back from `from` are the program memory
      from `from` on, 512 bytes per read. */
  lemma {:induction false} ConcatReads(pm: nat -> uint8, from: nat, fetches: seq<seq<uint8>>)
    requires forall k :: 0 <= k < |fetches| ==> fetches[k] == Window(pm, from + ChunkSize * k, ChunkSize)
    ensures Concat(fetches) == Window(pm, from, ChunkSize * |fetches|)
    decreases |fetches|
  {
    if |fetches| > 0 {
      var rest := fetches[1..];
      forall k | 0 <= k < |rest|
        ensures rest[k] == Window(pm, from + ChunkSize + ChunkSize * k, ChunkSize)
      {
        assert rest[k] == fetches[k + 1];
      }
      ConcatReads(pm, from + ChunkSize, rest);
      assert Window(pm, from, ChunkSize * |fetches|) ==
             Window(pm, from, ChunkSize) + Window(pm, from + ChunkSize, ChunkSize * |rest|);
    }
  }

  /** The reads of either copy hold the bytes copied, then overshoot the
      end of the data by less than a chunk, running past it whenever the
      length is not a multiple of 512. */
  lemma ReadsOvershoot(pm: nat -> uint8, img: nat, length: nat, fetches: seq<seq<uint8>>)
    requires |fetches| == |Chunks(pm, img, length)|
    requires forall k :: 0 <= k < |fetches| ==> fetches[k] == Window(pm, img + ChunkSize * k, ChunkSize)
    ensures length <= |Concat(fetches)| < length + ChunkSize
    ensures Concat(fetches)[..length] == Window(pm, img, length)
    ensures length % ChunkSize != 0 ==> |Concat(fetches)| > length
  {
    ConcatReads(pm, img, fetches);
  }
}
