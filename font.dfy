/** Font lookup of eve_ui_load_font.c: the header of a font handle comes from
    a font registered by eve_ui_load_fontx, else from the EVE ROM font table
    for handles 16 to 31; widths are read from it. */
module Fonts {
  import opened Ints

  /** FontWidth[128]: the advance width of each character. */
  type Widths = s: seq<uint8> | |s| == 128 witness seq(128, _ => 0)

  /** EVE_GPU_FONT_HEADER. */
  datatype FontHeader = FontHeader(widths: Widths, bitmapFormat: uint32, lineStride: uint32,
                                   widthInPixels: uint32, heightInPixels: uint32, graphicsData: uint32)

  /** sizeof(EVE_GPU_FONT_HEADER): 128 width bytes and five 32-bit words. */
  const HeaderSize: nat := 148

  /** The number of font handles font_pm_pointers holds. */
  const Handles: nat := 32

  /** The `(uint8_t)-1` failure code. */
  const Failed: uint8 := 255

  /** Where eve_ui_font_header takes a header from. */
  datatype HeaderSource = NoHeader | Flash(hdr: FontHeader) | RamG(address: uint32)

  /** A registered header wins; otherwise handles 16 to 31 are read from the
      ROM font table at `fontRoot` (the word at EVE_ROMFONT_TABLEADDRESS);
      everything else fails. */
  function HeaderSourceOf(pointers: seq<Option<FontHeader>>, handle: uint8, fontRoot: uint32): (src: HeaderSource)
    requires |pointers| == Handles
    ensures src.NoHeader? <==> handle >= 32 || (handle < 16 && pointers[handle].None?)
    ensures src.Flash? <==> handle < 32 && pointers[handle].Some?
    ensures src.Flash? ==> pointers[handle] == Some(src.hdr)
    ensures src.RamG? ==> (src.address - fontRoot - (handle - 16) * HeaderSize) % 0x1_0000_0000 == 0
  {
    if handle < 32 then
      if pointers[handle].Some? then Flash(pointers[handle].value)
      else if handle >= 16 then RamG(Add32(fontRoot, (handle - 16) * HeaderSize))
      else NoHeader
    else NoHeader
  }

  /** eve_ui_font_header: the header, or None for the -1 result. `ramG` is
      the header read back from RAM_G at an address. */
  function FontHeaderOf(pointers: seq<Option<FontHeader>>, handle: uint8, fontRoot: uint32,
                        ramG: uint32 -> FontHeader): (h: Option<FontHeader>)
    requires |pointers| == Handles
    ensures h.None? <==> HeaderSourceOf(pointers, handle, fontRoot).NoHeader?
  {
    match HeaderSourceOf(pointers, handle, fontRoot)
    case NoHeader => None
    case Flash(hdr) => Some(hdr)
    case RamG(address) => Some(ramG(address))
  }

  /** The status byte eve_ui_font_header returns. */
  function HeaderStatus(h: Option<FontHeader>): (status: uint8)
    ensures status == 0 <==> h.Some?
  {
    if h.Some? then 0 else Failed
  }

  /** eve_ui_font_size: on success the width and height in pixels, cut to
      16 bits; on failure the caller's two values are left as they were. */
  function FontSize(pointers: seq<Option<FontHeader>>, handle: uint8, fontRoot: uint32,
                    ramG: uint32 -> FontHeader, width: uint16, height: uint16): (r: (uint8, uint16, uint16))
    requires |pointers| == Handles
    ensures var h := FontHeaderOf(pointers, handle, fontRoot, ramG);
      r.0 == HeaderStatus(h) &&
      (h.None? ==> r.1 == width && r.2 == height) &&
      (h.Some? ==> r.1 == h.value.widthInPixels % 0x1_0000 && r.2 == h.value.heightInPixels % 0x1_0000)
  {
    var h := FontHeaderOf(pointers, handle, fontRoot, ramG);
    if h.Some? then (0, h.value.widthInPixels % 0x1_0000, h.value.heightInPixels % 0x1_0000)
    else (Failed, width, height)
  }

  /** eve_ui_font_char_width: the character's width, 0 when the header
      lookup fails. */
  function CharWidth(pointers: seq<Option<FontHeader>>, handle: uint8, fontRoot: uint32,
                     ramG: uint32 -> FontHeader, ch: uint8): (w: uint8)
    requires |pointers| == Handles && ch < 128
    ensures var h := FontHeaderOf(pointers, handle, fontRoot, ramG);
      w == if h.Some? then h.value.widths[ch] else 0
  {
    match FontHeaderOf(pointers, handle, fontRoot, ramG)
    case None => 0
    case Some(hdr) => hdr.widths[ch]
  }

  // ---------------------------------------------------------------------
  // eve_ui_font_string_width

  /** The length of the C string in `s`: the characters before the first
      NUL, or all of them when there is none. */
  function TextLength(s: seq<uint8>): (n: nat)
    ensures n <= |s|
    ensures forall j :: 0 <= j < n ==> s[j] != 0
    ensures n < |s| ==> s[n] == 0
  {
    if |s| == 0 || s[0] == 0 then 0 else 1 + TextLength(s[1..])
  }

  /** A character's contribution: its width when it is below 128, else
      nothing. */
  function Advance(widths: Widths, c: uint8): uint8 {
    if c < 128 then widths[c] else 0
  }

  /** The exact total width of a text. */
  function WidthSum(widths: Widths, text: seq<uint8>): nat
    decreases |text|
  {
    if |text| == 0 then 0
    else WidthSum(widths, text[..|text| - 1]) + Advance(widths, text[|text| - 1])
  }

  /** The width of a concatenation is the sum of the widths. */
  lemma {:induction false} WidthSumAppend(widths: Widths, a: seq<uint8>, b: seq<uint8>)
    ensures WidthSum(widths, a + b) == WidthSum(widths, a) + WidthSum(widths, b)
    decreases |b|
  {
    if |b| == 0 {
      assert a + b == a;
    } else {
      var b' := b[..|b| - 1];
      assert (a + b)[..|a + b| - 1] == a + b';
      WidthSumAppend(widths, a, b');
    }
  }

  /** Characters from 128 up add nothing to the width. */
  lemma HighCharacterAddsNothing(widths: Widths, a: seq<uint8>, c: uint8, b: seq<uint8>)
    requires c >= 128
    ensures WidthSum(widths, a + [c] + b) == WidthSum(widths, a + b)
  {
    WidthSumAppend(widths, a + [c], b);
    WidthSumAppend(widths, a, [c]);
    WidthSumAppend(widths, a, b);
    assert [c][..0] == [];
  }

  /** The width of the text in `s` in the header's font, as the function
      returns it: the 16-bit sum cut to its low byte. */
  function TextWidth(widths: Widths, s: seq<uint8>): (w: uint8)
  {
    (WidthSum(widths, s[..TextLength(s)]) % 0x1_0000) % 0x100
  }

  /** Cutting the 16-bit accumulator to a byte gives the exact sum modulo
      256: the 16-bit wrap-around loses nothing the result keeps. */
  lemma TextWidthIsSumModulo256(widths: Widths, s: seq<uint8>)
    ensures TextWidth(widths, s) == WidthSum(widths, s[..TextLength(s)]) % 0x100
  {
    var n: int := WidthSum(widths, s[..TextLength(s)]);
    var q, r := n / 0x1_0000, n % 0x1_0000;
    assert n == (q * 0x100) * 0x100 + r;
    assert r % 0x100 == n % 0x100;
  }

  /** The loop of eve_ui_font_string_width over a header: a 16-bit
      accumulator, returned as a byte. */
  method StringWidthLoop(widths: Widths, s: seq<uint8>) returns (w: uint8)
    ensures w == TextWidth(widths, s)
  {
    var width: uint16 := 0;
    var i := 0;
    while i < |s| && s[i] != 0
      invariant 0 <= i <= |s|
      invariant forall j :: 0 <= j < i ==> s[j] != 0
      invariant width == WidthSum(widths, s[..i]) % 0x1_0000
    {
      if s[i] < 128 {
        width := (width + widths[s[i]]) % 0x1_0000;
      }
      assert s[..i + 1][..i] == s[..i];
      i := i + 1;
    }
    TextEnd(s, i);
    w := width % 0x100;
  }

  /** A loop that stops at the first NUL, or at the end, stops at the text
      length. */
  lemma TextEnd(s: seq<uint8>, i: nat)
    requires i <= |s| && (i < |s| ==> s[i] == 0)
    requires forall j :: 0 <= j < i ==> s[j] != 0
    ensures i == TextLength(s)
  {
  }

  /** eve_ui_font_string_width: the width of the text, 0 when the header
      lookup fails. */
  method StringWidth(pointers: seq<Option<FontHeader>>, handle: uint8, fontRoot: uint32,
                     ramG: uint32 -> FontHeader, s: seq<uint8>) returns (w: uint8)
    requires |pointers| == Handles
    ensures var h := FontHeaderOf(pointers, handle, fontRoot, ramG);
      w == if h.Some? then WidthSum(h.value.widths, s[..TextLength(s)]) % 0x100 else 0
  {
    var h := FontHeaderOf(pointers, handle, fontRoot, ramG);
    w := 0;
    if h.Some? {
      w := StringWidthLoop(h.value.widths, s);
      TextWidthIsSumModulo256(h.value.widths, s);
    }
  }

  // ---------------------------------------------------------------------
  // eve_ui_load_fontx

  /** The table after loading a font at a RAM_G offset (0 when the
      allocation failed). */
  function Registered(pointers: seq<Option<FontHeader>>, handle: uint8, hdr: FontHeader, offset: uint32): (p: seq<Option<FontHeader>>)
    requires |pointers| == Handles
    ensures |p| == Handles
    ensures forall j :: 0 <= j < Handles && j != handle ==> p[j] == pointers[j]
    ensures handle < 32 ==> p[handle] == if offset != 0 then Some(hdr) else pointers[handle]
  {
    if offset != 0 && handle < 32 then pointers[handle := Some(hdr)] else pointers
  }

  /** A font loaded into RAM_G is found first by every later lookup of its
      handle, whatever the ROM table holds. */
  lemma LoadedFontIsFound(pointers: seq<Option<FontHeader>>, handle: uint8, hdr: FontHeader, offset: uint32,
                          fontRoot: uint32, ramG: uint32 -> FontHeader)
    requires |pointers| == Handles && handle < 32 && offset != 0
    ensures FontHeaderOf(Registered(pointers, handle, hdr, offset), handle, fontRoot, ramG) == Some(hdr)
  {
  }

  /** The bitmap source given to the co-processor, in 32-bit arithmetic:
      one glyph (line stride times height) before the glyph data that
      follows the header at `offset`. */
  function BitmapSource(offset: uint32, hdr: FontHeader): (a: uint32)
    ensures (a + hdr.lineStride * hdr.heightInPixels - offset - HeaderSize) % 0x1_0000_0000 == 0
  {
    ((offset + HeaderSize - (hdr.lineStride * hdr.heightInPixels) % 0x1_0000_0000) % 0x1_0000_0000)
  }

  /** font_pm_pointers. */
  class FontTable {
    const pointers: array<Option<FontHeader>>

    constructor()
      ensures pointers.Length == Handles && fresh(pointers)
      ensures forall j :: 0 <= j < Handles ==> pointers[j].None?
    {
      pointers := new Option<FontHeader>[Handles](_ => None);
    }

    /** eve_ui_load_fontx: `offset` is what malloc_ram_g returned. The
        header is recorded only for a nonzero offset and a handle below 32;
        the offset is returned in every case. */
    method LoadFontx(hdr: FontHeader, handle: uint8, offset: uint32) returns (r: uint32)
      requires pointers.Length == Handles
      modifies pointers
      ensures r == offset
      ensures pointers[..] == Registered(old(pointers[..]), handle, hdr, offset)
    {
      if offset != 0 {
        if handle < 32 {
          pointers[handle] := Some(hdr);
        }
      }
      r := offset;
    }
  }
}
