/** The USB string descriptor table of main.c and the walk that
    GET_DESCRIPTOR(STRING) uses to find the n-th string in it. The table is
    an array of 16-bit words read as bytes; each string descriptor starts
    with its own length byte (section 9.6.7 of the USB 2.0 specification)
    and a zero length byte ends the table. */
module StringTable {
  import opened Ints

  /** bDescriptorType of a string descriptor (table 9-5 of USB 2.0). */
  const DescriptorTypeString: uint8 := 3

  /** The word in the table of 256 bytes (STRING_DESCRIPTOR_ALLOCATION). */
  const TableWords: nat := 0x80

  /** UNICODE_LEN: the first word of a descriptor of n UTF-16 characters,
      whose low byte is the descriptor's length in bytes and whose high byte
      is the string descriptor type. */
  function UnicodeLen(n: nat): (w: uint16)
    requires n <= 126
    ensures Lo(w) == 2 * n + 2 && Hi(w) == DescriptorTypeString
  {
    (2 * n + 2) + 0x100 * DescriptorTypeString
  }

  /** A string descriptor: UNICODE_LEN followed by the characters. */
  function Utf16Descriptor(s: string): (d: seq<uint16>)
    requires |s| <= 126 && forall i :: 0 <= i < |s| ==> s[i] as int < 0x1_0000
    ensures |d| == |s| + 1 && Lo(d[0]) == 2 * |d|
  {
    [UnicodeLen(|s|)] + seq(|s|, i requires 0 <= i < |s| => s[i] as int)
  }

  /** String 0 lists the supported languages: English (US) only. */
  const LanguageIds: seq<uint16> := [UnicodeLen(1), 0x0409]

  const Manufacturer: seq<uint16> := Utf16Descriptor("FTDI")
  const Product: seq<uint16> := Utf16Descriptor("BRT_AN_xxx HID Touch Panel")
  const SerialNumber: seq<uint16> := Utf16Descriptor("FT000000")
  const DfuProduct: seq<uint16> := Utf16Descriptor("FT900 DFU Mode")
  const DfuInterface: seq<uint16> := Utf16Descriptor("DFU Interface")

  /** The descriptors and the 0x0000 end word. */
  const UsedWords: seq<uint16> :=
    LanguageIds + Manufacturer + Product + SerialNumber + DfuProduct + DfuInterface + [0x0000]

  /** string_descriptor: the language list, the manufacturer, product,
      serial number, DFU product name and DFU interface name strings, the
      end word, and zero padding up to 128 words. */
  function SourceWords(): (w: seq<uint16>)
    ensures |w| == TableWords
  {
    UsedWords + seq(TableWords - |UsedWords|, _ => 0)
  }

  /** The table's bytes as the little-endian FT900 stores the words. */
  function LittleEndian(w: seq<uint16>): (b: seq<uint8>)
    ensures |b| == 2 * |w|
    ensures forall j :: 0 <= j < |w| ==> b[2 * j] == Lo(w[j]) && b[2 * j + 1] == Hi(w[j])
  {
    seq(2 * |w|, j requires 0 <= j < 2 * |w| => if j % 2 == 0 then Lo(w[j / 2]) else Hi(w[j / 2]))
  }

  // ---------------------------------------------------------------------
  // The walk of standard_req_get_descriptor (main.c:1354-1378)

  /** Where the walk stops: the last string start it visited (the `src`
      pointer, None while still NULL), the length byte it stopped on, and
      how many strings it still had to skip. */
  datatype WalkEnd = WalkEnd(src: Option<uint8>, slen: uint8, rest: uint8)

  /** The walk from byte index i with `rest` strings still to skip. The index
      is a uint8, so it wraps. */
  function Walk(b: seq<uint8>, i: uint8, rest: uint8, src: Option<uint8>): (e: WalkEnd)
    requires |b| == 0x100
    ensures e.slen > 0 ==> e.rest == 0 && e.src.Some? && b[e.src.value] == e.slen
    ensures e.slen == 0 ==> b[i] == 0 || e.src.Some?
    decreases rest
  {
    if b[i] == 0 then WalkEnd(src, 0, rest)
    else if rest == 0 then WalkEnd(Some(i), b[i], 0)
    else Walk(b, (i + b[i]) % 0x100, rest - 1, Some(i))
  }

  /** The `while` loop itself. */
  method FindString(b: seq<uint8>, index: uint8) returns (e: WalkEnd)
    requires |b| == 0x100
    ensures e == Walk(b, 0, index, None)
  {
    var i: uint8 := 0;
    var lValue := index;
    var src: Option<uint8> := None;
    var slen := b[i];
    while slen > 0
      invariant slen == b[i]
      invariant Walk(b, i, lValue, src) == Walk(b, 0, index, None)
      decreases lValue
    {
      src := Some(i);
      if lValue == 0 {
        break;
      }
      i := (i + slen) % 0x100;
      lValue := lValue - 1;
      slen := b[i];
    }
    e := WalkEnd(src, slen, lValue);
  }

  /** What the STRING case answers: the string's start and length byte. */
  datatype StringReply = NotFound | Found(src: Option<uint8>, slen: uint8)

  /** The check after the loop as written: only strings left to skip count
      as "not found". */
  function StringLookupAsWritten(b: seq<uint8>, index: uint8): StringReply
    requires |b| == 0x100
  {
    var e := Walk(b, 0, index, None);
    if e.rest > 0 then NotFound else Found(e.src, e.slen)
  }

  /** The check corrected: a walk that ended on the end marker found no
      string, whatever was left to skip. */
  function StringLookup(b: seq<uint8>, index: uint8): (r: StringReply)
    requires |b| == 0x100
    ensures r.Found? ==> r.slen > 0 && r.src.Some? && b[r.src.value] == r.slen
  {
    var e := Walk(b, 0, index, None);
    if e.rest > 0 || e.slen == 0 then NotFound else Found(e.src, e.slen)
  }

  // ---------------------------------------------------------------------
  // The walk over any chained table

  /** `starts` are the offsets of the strings, then of the end marker: the
      first string starts at 0, each length byte leads to the next start,
      and the last start holds the 0 that ends the table. */
  ghost predicate Chained(b: seq<uint8>, starts: seq<int>) {
    |b| == 0x100 && |starts| > 0 && starts[0] == 0 &&
    (forall k :: 0 <= k < |starts| ==> 0 <= starts[k] < 0x100) &&
    (forall k :: 0 <= k < |starts| - 1 ==> b[starts[k]] > 0 && starts[k + 1] == starts[k] + b[starts[k]]) &&
    b[starts[|starts| - 1]] == 0
  }

  /** Walking a chained table from string k with `rest` strings to skip
      stops at string k + rest if there is one, and otherwise on the end
      marker with the surplus still to skip and `src` at the last string. */
  lemma {:induction false} WalkChain(b: seq<uint8>, starts: seq<int>, k: nat, rest: uint8, src: Option<uint8>)
    requires Chained(b, starts) && k < |starts|
    ensures var last := |starts| - 1;
      var e := Walk(b, starts[k], rest, src);
      if k + rest as int < last then
        e == WalkEnd(Some(starts[k + rest as int]), b[starts[k + rest as int]], 0)
      else
        e == WalkEnd(if k == last then src else Some(starts[last - 1]), 0, (k + rest as int - last) as uint8)
    decreases rest
  {
    var last := |starts| - 1;
    if k < last && rest > 0 {
      assert (starts[k] + b[starts[k]]) % 0x100 == starts[k + 1];
      WalkChain(b, starts, k + 1, rest - 1, Some(starts[k]));
    }
  }

  /** Corrected lookup over a chained table: string n is found, at its own
      start and with its own length byte, exactly when n is below the number
      of strings. */
  lemma StringLookupChained(b: seq<uint8>, starts: seq<int>, n: uint8)
    requires Chained(b, starts)
    ensures n as int < |starts| - 1 ==> StringLookup(b, n) == Found(Some(starts[n]), b[starts[n]])
    ensures n as int >= |starts| - 1 ==> StringLookup(b, n) == NotFound
  {
    WalkChain(b, starts, 0, n, None);
  }

  /** As written, asking a chained table for the string one past the last
      is answered as found, with length 0 and the last string's start. */
  lemma StringLookupAsWrittenOnePast(b: seq<uint8>, starts: seq<int>)
    requires Chained(b, starts) && 1 < |starts| <= 0x100
    ensures StringLookupAsWritten(b, (|starts| - 1) as uint8) == Found(Some(starts[|starts| - 2]), 0)
  {
    WalkChain(b, starts, 0, (|starts| - 1) as uint8, None);
  }

  /** The check as written and the corrected check disagree only where the
      walk ends on the end marker with nothing left to skip; the code then
      answers with length 0. */
  lemma StringLookupAsWrittenDiffers(b: seq<uint8>, index: uint8)
    requires |b| == 0x100
    ensures StringLookup(b, index).Found? ==> StringLookupAsWritten(b, index) == StringLookup(b, index)
    ensures StringLookupAsWritten(b, index).NotFound? ==> StringLookup(b, index).NotFound?
    ensures StringLookupAsWritten(b, index) != StringLookup(b, index) ==>
      StringLookupAsWritten(b, index).Found? && StringLookupAsWritten(b, index).slen == 0
  {
  }

  // ---------------------------------------------------------------------
  // The table of main.c:341-356

  function SourceBytes(): (b: seq<uint8>)
    ensures |b| == 0x100
  {
    LittleEndian(SourceWords())
  }

  /** The strings of the table start at bytes 0, 4, 14, 68, 86 and 116, and
      the end marker at byte 144. */
  const SourceStarts: seq<int> := [0, 4, 14, 68, 86, 116, 144]

  /** The first word of each descriptor and the end word. */
  lemma SourceHeads()
    ensures var w := SourceWords();
      Lo(w[0]) == 4 && Lo(w[2]) == 10 && Lo(w[7]) == 54 && Lo(w[34]) == 18 &&
      Lo(w[43]) == 30 && Lo(w[58]) == 28 && Lo(w[72]) == 0
  {
    assert |Manufacturer| == 5 && |Product| == 27 && |SerialNumber| == 9;
    assert |DfuProduct| == 15 && |DfuInterface| == 14;
    var w := SourceWords();
    assert w[..73] == UsedWords;
    assert UsedWords[2] == Manufacturer[0];
    assert UsedWords[7] == Product[0];
    assert UsedWords[34] == SerialNumber[0];
    assert UsedWords[43] == DfuProduct[0];
    assert UsedWords[58] == DfuInterface[0];
  }

  /** The length bytes the walk reads. */
  lemma SourceLengthBytes()
    ensures var b := SourceBytes();
      b[0] == 4 && b[4] == 10 && b[14] == 54 && b[68] == 18 &&
      b[86] == 30 && b[116] == 28 && b[144] == 0
  {
    SourceHeads();
    var w := SourceWords();
    assert SourceBytes() == LittleEndian(w);
  }

  lemma LengthBytesChain(b: seq<uint8>)
    requires |b| == 0x100
    requires b[0] == 4 && b[4] == 10 && b[14] == 54 && b[68] == 18
    requires b[86] == 30 && b[116] == 28 && b[144] == 0
    ensures Chained(b, SourceStarts)
  {
  }

  lemma SourceChained()
    ensures Chained(SourceBytes(), SourceStarts)
  {
    SourceLengthBytes();
    LengthBytesChain(SourceBytes());
  }

  /** The answers over any table with the length bytes of main.c's. */
  lemma LengthBytesLookup(b: seq<uint8>, n: uint8)
    requires |b| == 0x100
    requires b[0] == 4 && b[4] == 10 && b[14] == 54 && b[68] == 18
    requires b[86] == 30 && b[116] == 28 && b[144] == 0
    ensures StringLookup(b, n) ==
      match n
      case 0 => Found(Some(0), 4)
      case 1 => Found(Some(4), 10)
      case 2 => Found(Some(14), 54)
      case 3 => Found(Some(68), 18)
      case 4 => Found(Some(86), 30)
      case 5 => Found(Some(116), 28)
      case _ => NotFound
  {
    LengthBytesChain(b);
    StringLookupChained(b, SourceStarts, n);
  }

  /** The check as written over any table with the length bytes of
      main.c's: index 6 is answered with the last string's start and
      length 0, the indexes past it are not found. */
  lemma LengthBytesLookupAsWritten(b: seq<uint8>, n: uint8)
    requires |b| == 0x100
    requires b[0] == 4 && b[4] == 10 && b[14] == 54 && b[68] == 18
    requires b[86] == 30 && b[116] == 28 && b[144] == 0
    ensures StringLookupAsWritten(b, n) ==
      match n
      case 0 => Found(Some(0), 4)
      case 1 => Found(Some(4), 10)
      case 2 => Found(Some(14), 54)
      case 3 => Found(Some(68), 18)
      case 4 => Found(Some(86), 30)
      case 5 => Found(Some(116), 28)
      case 6 => Found(Some(116), 0)
      case _ => NotFound
  {
    LengthBytesChain(b);
    WalkChain(b, SourceStarts, 0, n, None);
  }

  /** GET_DESCRIPTOR(STRING, n) on the table finds the six strings with
      lengths 4, 10, 54, 18, 30 and 28; any other index is not found. */
  lemma SourceStrings(n: uint8)
    ensures StringLookup(SourceBytes(), n) ==
      match n
      case 0 => Found(Some(0), 4)
      case 1 => Found(Some(4), 10)
      case 2 => Found(Some(14), 54)
      case 3 => Found(Some(68), 18)
      case 4 => Found(Some(86), 30)
      case 5 => Found(Some(116), 28)
      case _ => NotFound
  {
    SourceLengthBytes();
    LengthBytesLookup(SourceBytes(), n);
  }

  /** As written, string index 6 (one past the DFU interface name) is
      answered with the DFU interface name's start and length 0 instead of
      "not supported". */
  lemma SourceStringSixAsWritten()
    ensures StringLookupAsWritten(SourceBytes(), 6) == Found(Some(116), 0)
  {
    SourceChained();
    StringLookupAsWrittenOnePast(SourceBytes(), SourceStarts);
  }

  /** The check as written over main.c's table: the six strings as the
      corrected check finds them, index 6 with length 0, and nothing past
      it. */
  lemma SourceStringsAsWritten(n: uint8)
    ensures StringLookupAsWritten(SourceBytes(), n) ==
      if n == 6 then Found(Some(116), 0) else StringLookup(SourceBytes(), n)
  {
    SourceLengthBytes();
    LengthBytesLookupAsWritten(SourceBytes(), n);
    LengthBytesLookup(SourceBytes(), n);
  }
}
