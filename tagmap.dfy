/** The constant tag map of usb_keyboard.c (and its duplicate in keyboard.c):
    an ordered table from a display key tag to the HID report kind and usage
    code it produces, searched by a linear first-match scan. */
module TagMap {
  import opened Ints

  /** The persistent "active report kind" and the kind recorded in each table
      entry (REPORT_ID_* in usb_keyboard.c, REP_* in keyboard.c). */
  datatype ReportKind = NoReport | Keyboard | SystemControl | ConsumerControl

  /** The key tags of the display keyboard (TAG_* constants), grouped by
      their name prefix: plain keys, TAG_SC_* system keys and TAG_CC_*
      consumer keys. Their numeric values are defined outside this model;
      only their identity matters. */
  datatype KeyboardKey =
    | A | B | C | D | E | F | G | H | I | J | K | L | M
    | N | O | P | Q | R | S | T | U | V | W | X | Y | Z
    | Num1 | Num2 | Num3 | Num4 | Num5 | Num6 | Num7 | Num8 | Num9 | Num0
    | Enter | Escape | Backspace | Tab | Space
    | Minus | Equals | SqbOpen | SqbCls | Backslash | Hash
    | Semicolon | Squote | Tilde | Comma | Dot | Slash | CapsLock
    | F1 | F2 | F3 | F4 | F5 | F6 | F7 | F8 | F9 | F10 | F11 | F12
    | PrintScreen | ScrollLock | Pause | Insert | Home | PageUp
    | Del | End | PageDown | RightArrow | LeftArrow | DownArrow | UpArrow
    | NumberLock | PadDiv | PadMul | PadMinus | PadPlus | PadEnter
    | Pad1 | Pad2 | Pad3 | Pad4 | Pad5 | Pad6 | Pad7 | Pad8 | Pad9 | Pad0 | PadDot
    | App
    | CtrlL | ShiftL | Alt | WinL | CtrlR | ShiftR | AltGr | WinR

  datatype SystemKey = Power | Sleep | Wakeup

  datatype ConsumerKey =
    | Play | Halt | Record | FastForward | Rewind | Next | Previous | Stop
    | Mute | VolumeUp | VolumeDown | Cut | Copy | Paste | Undo | Redo | Find

  datatype Tag = KeyTag(key: KeyboardKey) | SystemTag(sys: SystemKey) | ConsumerTag(media: ConsumerKey)

  /** What the display reports as the active tag: one of the keyboard's tags,
      or a value that is none of them (no touch, or some other screen item). */
  datatype ScanTag = NoTag | Touched(tag: Tag)

  /** One row of the table (struct tagmap_s). */
  datatype TagMapEntry = TagMapEntry(tag: Tag, report: ReportKind, scancode: uint16)

  predicate Matches(e: TagMapEntry, key: ScanTag) {
    key == Touched(e.tag)
  }

  /** The index where the scan stops: the first entry whose tag equals the
      scanned tag, if there is one. */
  function FirstMatch(table: seq<TagMapEntry>, key: ScanTag): (r: Option<nat>)
    ensures r.Some? ==> r.value < |table| && Matches(table[r.value], key)
    ensures r.Some? ==> forall j :: 0 <= j < r.value ==> !Matches(table[j], key)
    ensures r.None? <==> forall j :: 0 <= j < |table| ==> !Matches(table[j], key)
  {
    if table == [] then None
    else if Matches(table[0], key) then Some(0)
    else match FirstMatch(table[1..], key)
      case None => None
      case Some(i) => Some(i + 1)
  }

  /** The entry a scan finds, if any. */
  function Lookup(table: seq<TagMapEntry>, key: ScanTag): Option<TagMapEntry> {
    match FirstMatch(table, key)
    case None => None
    case Some(i) => Some(table[i])
  }

  /** The `for`/`break` scan of keyboard_loop: on a match the persistent kind
      and the scancode come from the entry; otherwise the kind is left as it
      was and the scancode stays 0. */
  method ScanTagMap(table: seq<TagMapEntry>, key: ScanTag, report: ReportKind)
    returns (report': ReportKind, scancode: uint16)
    ensures Lookup(table, key).Some? ==>
              report' == Lookup(table, key).value.report &&
              scancode == Lookup(table, key).value.scancode
    ensures Lookup(table, key).None? ==> report' == report && scancode == 0
  {
    report', scancode := report, 0;
    var i := 0;
    while i < |table|
      invariant 0 <= i <= |table|
      invariant forall j :: 0 <= j < i ==> !Matches(table[j], key)
      invariant report' == report && scancode == 0
    {
      if Matches(table[i], key) {
        report', scancode := table[i].report, table[i].scancode;
        assert FirstMatch(table, key) == Some(i);
        return;
      }
      i := i + 1;
    }
  }

  // ---------------------------------------------------------------------
  // The table as written in usb_keyboard.c:76-135 (keyboard.c:76-135 is the
  // same table under other kind names): first every plain key with the
  // keyboard report, then the three system keys with the system control
  // report, then the consumer keys with the consumer control report. Each
  // row pairs TAG_x with KEY_x.

  const Letters: seq<KeyboardKey> :=
    [A, B, C, D, E, F, G, H, I, J, K, L, M, N, O, P, Q, R, S, T, U, V, W, X, Y, Z]
  const Digits: seq<KeyboardKey> :=
    [Num1, Num2, Num3, Num4, Num5, Num6, Num7, Num8, Num9, Num0]
  const EditingKeys: seq<KeyboardKey> :=
    [Enter, Escape, Backspace, Tab, Space, Minus, Equals, SqbOpen, SqbCls,
     Backslash, Hash, Semicolon, Squote, Tilde, Comma, Dot, Slash, CapsLock]
  const FunctionKeys: seq<KeyboardKey> :=
    [F1, F2, F3, F4, F5, F6, F7, F8, F9, F10, F11, F12]
  const NavigationKeys: seq<KeyboardKey> :=
    [PrintScreen, ScrollLock, Pause, Insert, Home, PageUp, Del, End, PageDown,
     RightArrow, LeftArrow, DownArrow, UpArrow]
  const KeypadKeys: seq<KeyboardKey> :=
    [NumberLock, PadDiv, PadMul, PadMinus, PadPlus, PadEnter,
     Pad1, Pad2, Pad3, Pad4, Pad5, Pad6, Pad7, Pad8, Pad9, Pad0, PadDot, App]
  const ModifierKeys: seq<KeyboardKey> :=
    [CtrlL, ShiftL, Alt, WinL, CtrlR, ShiftR, AltGr, WinR]

  const KeyboardOrder: seq<KeyboardKey> :=
    Letters + Digits + EditingKeys + FunctionKeys + NavigationKeys + KeypadKeys + ModifierKeys
  const SystemOrder: seq<SystemKey> := [Power, Sleep, Wakeup]
  const ConsumerOrder: seq<ConsumerKey> :=
    [Play, Halt, Record, FastForward, Rewind, Next, Previous, Stop,
     Mute, VolumeUp, VolumeDown, Cut, Copy, Paste, Undo, Redo, Find]

  /** The report kind a tag's group is written with in the table. */
  function GroupKind(t: Tag): ReportKind {
    match t
    case KeyTag(_) => Keyboard
    case SystemTag(_) => SystemControl
    case ConsumerTag(_) => ConsumerControl
  }

  /** The table itself; `usage` gives the KEY_x usage code of each tag, whose
      values are defined outside this model. */
  function SourceTagMap(usage: Tag -> uint16): (table: seq<TagMapEntry>)
    ensures |table| == |KeyboardOrder| + |SystemOrder| + |ConsumerOrder|
    ensures forall i :: 0 <= i < |table| ==>
              table[i].report == GroupKind(table[i].tag) && table[i].scancode == usage(table[i].tag)
  {
    seq(|KeyboardOrder|, i requires 0 <= i < |KeyboardOrder| =>
      TagMapEntry(KeyTag(KeyboardOrder[i]), Keyboard, usage(KeyTag(KeyboardOrder[i]))))
    + seq(|SystemOrder|, i requires 0 <= i < |SystemOrder| =>
      TagMapEntry(SystemTag(SystemOrder[i]), SystemControl, usage(SystemTag(SystemOrder[i]))))
    + seq(|ConsumerOrder|, i requires 0 <= i < |ConsumerOrder| =>
      TagMapEntry(ConsumerTag(ConsumerOrder[i]), ConsumerControl, usage(ConsumerTag(ConsumerOrder[i]))))
  }

  /** Which run of KeyboardOrder a plain key is written in. */
  function RunOf(k: KeyboardKey): nat {
    match k
    case A | B | C | D | E | F | G | H | I | J | K | L | M
       | N | O | P | Q | R | S | T | U | V | W | X | Y | Z => 0
    case Num1 | Num2 | Num3 | Num4 | Num5 | Num6 | Num7 | Num8 | Num9 | Num0 => 1
    case Enter | Escape | Backspace | Tab | Space | Minus | Equals | SqbOpen | SqbCls
       | Backslash | Hash | Semicolon | Squote | Tilde | Comma | Dot | Slash | CapsLock => 2
    case F1 | F2 | F3 | F4 | F5 | F6 | F7 | F8 | F9 | F10 | F11 | F12 => 3
    case PrintScreen | ScrollLock | Pause | Insert | Home | PageUp | Del | End | PageDown
       | RightArrow | LeftArrow | DownArrow | UpArrow => 4
    case NumberLock | PadDiv | PadMul | PadMinus | PadPlus | PadEnter
       | Pad1 | Pad2 | Pad3 | Pad4 | Pad5 | Pad6 | Pad7 | Pad8 | Pad9 | Pad0 | PadDot | App => 5
    case CtrlL | ShiftL | Alt | WinL | CtrlR | ShiftR | AltGr | WinR => 6
  }

  lemma LetterListed(k: KeyboardKey) requires RunOf(k) == 0 ensures k in Letters { }
  lemma DigitListed(k: KeyboardKey) requires RunOf(k) == 1 ensures k in Digits { }
  lemma EditingKeyListed(k: KeyboardKey) requires RunOf(k) == 2 ensures k in EditingKeys { }
  lemma FunctionKeyListed(k: KeyboardKey) requires RunOf(k) == 3 ensures k in FunctionKeys { }
  lemma NavigationKeyListed(k: KeyboardKey) requires RunOf(k) == 4 ensures k in NavigationKeys { }
  lemma KeypadKeyListed(k: KeyboardKey) requires RunOf(k) == 5 ensures k in KeypadKeys { }
  lemma ModifierKeyListed(k: KeyboardKey) requires RunOf(k) == 6 ensures k in ModifierKeys { }

  /** Every plain key is written in KeyboardOrder. */
  lemma KeyboardKeyListed(k: KeyboardKey)
    ensures k in KeyboardOrder
  {
    match RunOf(k)
    case 0 => LetterListed(k);
    case 1 => DigitListed(k);
    case 2 => EditingKeyListed(k);
    case 3 => FunctionKeyListed(k);
    case 4 => NavigationKeyListed(k);
    case 5 => KeypadKeyListed(k);
    case 6 => ModifierKeyListed(k);
  }

  lemma SystemKeyListed(s: SystemKey) ensures s in SystemOrder { }
  lemma ConsumerKeyListed(c: ConsumerKey) ensures c in ConsumerOrder { }

  /** Every tag has a row in the table. */
  lemma TagListed(usage: Tag -> uint16, t: Tag)
    ensures exists i :: 0 <= i < |SourceTagMap(usage)| && SourceTagMap(usage)[i].tag == t
  {
    var table := SourceTagMap(usage);
    match t
    case KeyTag(k) =>
      KeyboardKeyListed(k);
      var j :| 0 <= j < |KeyboardOrder| && KeyboardOrder[j] == k;
      assert table[j].tag == t;
    case SystemTag(s) =>
      SystemKeyListed(s);
      var j :| 0 <= j < |SystemOrder| && SystemOrder[j] == s;
      assert table[|KeyboardOrder| + j].tag == t;
    case ConsumerTag(c) =>
      ConsumerKeyListed(c);
      var j :| 0 <= j < |ConsumerOrder| && ConsumerOrder[j] == c;
      assert table[|KeyboardOrder| + |SystemOrder| + j].tag == t;
  }

  /** Looking up any tag in the source table finds that tag's usage code
      with the kind of its group: plain keys map to the keyboard report,
      TAG_SC_* to system control and TAG_CC_* to consumer control. */
  lemma LookupSourceTagMap(usage: Tag -> uint16, t: Tag)
    ensures Lookup(SourceTagMap(usage), Touched(t)) == Some(TagMapEntry(t, GroupKind(t), usage(t)))
  {
    TagListed(usage, t);
  }

  /** A tag that is not in any row is treated as no tag at all. */
  lemma LookupNoTag(table: seq<TagMapEntry>)
    ensures Lookup(table, NoTag) == None
  {
  }
}
