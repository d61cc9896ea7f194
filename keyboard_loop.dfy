/** The HID report state machine of usb_keyboard.c (`keyboard_loop` and
    `keyboard_req_set_report`): each pass asks the display for the touched
    key, looks its tag up in the tag map and fills the boot keyboard report
    or the system/consumer control report, remembering the kind of the last
    key pressed so that the next pass without a key can send its key-up. */
module UsbKeyboard {
  import opened Ints
  import opened TagMap

  /** The eight modifier keys, in the bit order of the boot keyboard report
      (section B.1 of the HID 1.11 specification, usages 0xE0..0xE7). The
      display's key_scan names them CtrlL, ShiftL, Alt, WinL, CtrlR, ShiftR,
      AltGr and WinR. */
  datatype Modifiers = Modifiers(
    leftCtrl: bool, leftShift: bool, leftAlt: bool, leftGui: bool,
    rightCtrl: bool, rightShift: bool, rightAlt: bool, rightGui: bool)

  const NoModifiers := Modifiers(false, false, false, false, false, false, false, false)

  /** What the display hands back (struct key_scan): the active tag and the
      latched state of the modifier keys. */
  datatype KeyScan = KeyScan(keyTag: ScanTag, mods: Modifiers)

  /** The three lock LEDs the host sets (the output report, and struct
      key_report that the display draws them from). */
  datatype Leds = Leds(numLock: bool, capsLock: bool, scrollLock: bool)

  /** Bits of the system control report byte, in the order of the usages
      0x81..0x83 in the control report descriptor (main.c:293-323). */
  const SysPowerDown: uint8 := 0x01
  const SysSleep: uint8 := 0x02
  const SysWake: uint8 := 0x04

  /** Setting one bitfield bit of a byte to 1. */
  function SetBit(b: uint8, mask: uint8): (r: uint8)
    requires mask in {0x01, 0x02, 0x04}
    ensures (b / mask) % 2 == 1 ==> r == b
    ensures (b / mask) % 2 == 0 ==> r == b + mask
  {
    if (b / mask) % 2 == 1 then b else b + mask
  }

  /** The boot keyboard input report buffer (keyboard_report_in in main.c).
      Only the modifier bits and the first key slot are written here. */
  class KeyboardInReport {
    var mods: Modifiers
    var keycode: uint8

    constructor()
      ensures mods == NoModifiers && keycode == 0
    {
      mods, keycode := NoModifiers, 0;
    }
  }

  /** The control input report buffer (control_report_in in main.c): the
      report ID, then a byte that is the system bits (sysMap) for report 1
      and the low byte of the consumer usage for report 2, then the high
      byte of the consumer usage. */
  class ControlInReport {
    var reportId: uint8
    var data1: uint8
    var data2: uint8

    constructor()
      ensures reportId == 0 && data1 == 0 && data2 == 0
    {
      reportId, data1, data2 := 0, 0, 0;
    }
  }

  datatype KbdReport = KbdReport(mods: Modifiers, keycode: uint8)
  datatype CtrlReport = CtrlReport(reportId: uint8, data1: uint8, data2: uint8)

  /** Everything one pass reads and writes: the persistent report kind, the
      display's key_scan and key_report LEDs, and the two report buffers. */
  datatype LoopState = LoopState(
    report: ReportKind, keyScan: KeyScan, leds: Leds, kbd: KbdReport, ctrl: CtrlReport)

  /** What the state machine is built from: the tag map, and the usage
      codes KEY_SC_POWER, KEY_SC_SLEEP and KEY_SC_WAKEUP it compares system
      scancodes with. */
  datatype Machine = Machine(table: seq<TagMapEntry>, power: uint16, sleep: uint16, wake: uint16)

  /** The machine of usb_keyboard.c and keyboard.c, given the KEY_x codes. */
  function SourceMachine(usage: Tag -> uint16): Machine {
    Machine(SourceTagMap(usage), usage(SystemTag(Power)), usage(SystemTag(Sleep)), usage(SystemTag(Wakeup)))
  }

  /** Every KEY_x usage code is a real usage, never 0. */
  ghost predicate NonzeroUsage(usage: Tag -> uint16) {
    forall t :: usage(t) != 0
  }

  /** No entry of the table has scancode 0. */
  ghost predicate NonzeroCodes(m: Machine) {
    forall i :: 0 <= i < |m.table| ==> m.table[i].scancode != 0
  }

  lemma SourceCodesNonzero(usage: Tag -> uint16)
    requires NonzeroUsage(usage)
    ensures NonzeroCodes(SourceMachine(usage))
  {
  }

  /** The system byte for a pressed system key: the bit of each of
      KEY_SC_POWER, KEY_SC_SLEEP and KEY_SC_WAKEUP the scancode equals. */
  function SystemBits(m: Machine, code: uint16): uint8 {
    (if code == m.power then SysPowerDown else 0)
    + (if code == m.sleep then SysSleep else 0)
    + (if code == m.wake then SysWake else 0)
  }

  /** The kind and scancode the tag scan leaves: the found entry's, or the
      previous kind with scancode 0. */
  function Scan(m: Machine, key: ScanTag, report: ReportKind): (ReportKind, uint16) {
    match Lookup(m.table, key)
    case None => (report, 0)
    case Some(e) => (e.report, e.scancode)
  }

  /** A pass with a nonzero scancode: fill the report of the entry's kind. */
  function Press(m: Machine, s: LoopState, kind: ReportKind, code: uint16): (LoopState, ReportKind) {
    match kind
    case Keyboard =>
      (s.(report := Keyboard, kbd := KbdReport(s.keyScan.mods, Lo(code))), Keyboard)
    case SystemControl =>
      (s.(report := SystemControl, ctrl := s.ctrl.(reportId := 1, data1 := SystemBits(m, code))), SystemControl)
    case ConsumerControl =>
      (s.(report := ConsumerControl, ctrl := CtrlReport(2, Lo(code), Hi(code))), ConsumerControl)
    case NoReport =>
      (s.(report := NoReport), NoReport)
  }

  /** A pass with scancode 0: clear the report of the remembered kind, send
      it once, and forget the kind. A keyboard key-up also unlatches the
      display's modifier keys. */
  function Release(s: LoopState, kind: ReportKind): (LoopState, ReportKind) {
    match kind
    case Keyboard =>
      (s.(report := NoReport, keyScan := s.keyScan.(mods := NoModifiers), kbd := KbdReport(NoModifiers, 0)), Keyboard)
    case SystemControl =>
      (s.(report := NoReport, ctrl := s.ctrl.(data1 := 0)), SystemControl)
    case ConsumerControl =>
      (s.(report := NoReport, ctrl := CtrlReport(2, 0, 0)), ConsumerControl)
    case NoReport =>
      (s.(report := NoReport), NoReport)
  }

  /** One call of keyboard_loop, given what the display returned: `ready`
      when eve_keyboard_loop returned 0, and the key_scan it left. */
  function Step(m: Machine, s: LoopState, out: Leds, ready: bool, scan: KeyScan): (LoopState, ReportKind) {
    var s1 := s.(leds := out, keyScan := scan);
    if !ready then (s1, NoReport)
    else
      var (kind, code) := Scan(m, scan.keyTag, s.report);
      if code != 0 then Press(m, s1, kind, code) else Release(s1, kind)
  }

  /** A remembered kind always comes with the report ID of that kind in the
      control buffer, so a later key-up goes out under the right ID. */
  ghost predicate ReportIdsAgree(s: LoopState) {
    (s.report == SystemControl ==> s.ctrl.reportId == 1) &&
    (s.report == ConsumerControl ==> s.ctrl.reportId == 2)
  }

  /** The static state of usb_keyboard.c together with the two report
      buffers main.c passes to every call. */
  class KeyReporter {
    const machine: Machine
    const kbd: KeyboardInReport
    const ctrl: ControlInReport
    var report: ReportKind
    var keyScan: KeyScan
    var leds: Leds

    function State(): LoopState
      reads this, kbd, ctrl
    {
      LoopState(report, keyScan, leds, KbdReport(kbd.mods, kbd.keycode), CtrlReport(ctrl.reportId, ctrl.data1, ctrl.data2))
    }

    ghost predicate Valid()
      reads this, kbd, ctrl
    {
      ReportIdsAgree(State())
    }

    constructor(machine: Machine, kbd: KeyboardInReport, ctrl: ControlInReport)
      ensures Valid()
      ensures this.machine == machine && this.kbd == kbd && this.ctrl == ctrl
      ensures report == NoReport && keyScan == KeyScan(NoTag, NoModifiers) && leds == Leds(false, false, false)
    {
      this.machine, this.kbd, this.ctrl := machine, kbd, ctrl;
      report, keyScan, leds := NoReport, KeyScan(NoTag, NoModifiers), Leds(false, false, false);
    }

    /** keyboard_loop: copy the host's LEDs, let the display run, and if it
        has an event, scan the tag map and fill the report. Returns the kind
        of report to send, NoReport for none. */
    method Loop(out: Leds, ready: bool, scan: KeyScan) returns (reportsend: ReportKind)
      requires Valid()
      modifies this, kbd, ctrl
      ensures Valid()
      ensures (State(), reportsend) == Step(machine, old(State()), out, ready, scan)
    {
      leds := out;
      keyScan := scan;
      reportsend := NoReport;
      if ready {
        var code;
        report, code := ScanTagMap(machine.table, keyScan.keyTag, report);
        if code != 0 {
          if report == Keyboard {
            kbd.mods := keyScan.mods;
            kbd.keycode := Lo(code);
          } else if report == SystemControl {
            ctrl.reportId := 1;
            ctrl.data1 := 0;
            if code == machine.power {
              ctrl.data1 := SetBit(ctrl.data1, SysPowerDown);
            }
            if code == machine.sleep {
              ctrl.data1 := SetBit(ctrl.data1, SysSleep);
            }
            if code == machine.wake {
              ctrl.data1 := SetBit(ctrl.data1, SysWake);
            }
            assert ctrl.data1 == SystemBits(machine, code);
          } else if report == ConsumerControl {
            ctrl.reportId := 2;
            ctrl.data1 := Lo(code);
            ctrl.data2 := Hi(code);
          } else {
            report := NoReport;
          }
          reportsend := report;
        } else {
          if report == Keyboard {
            keyScan := keyScan.(mods := NoModifiers);
            kbd.mods := keyScan.mods;
            kbd.keycode := 0;
          } else if report == SystemControl {
            ctrl.data1 := 0;
          } else if report == ConsumerControl {
            ctrl.reportId := 2;
            ctrl.data1 := 0;
            ctrl.data2 := 0;
          }
          reportsend := report;
          report := NoReport;
        }
      }
      StepKeepsReportIds(machine, old(State()), out, ready, scan);
    }

    /** keyboard_req_set_report: take the LEDs of the host's output report
        and let the display redraw; `scan` is the key_scan it leaves. */
    method SetReport(out: Leds, scan: KeyScan)
      requires Valid()
      modifies this
      ensures Valid()
      ensures leds == out && keyScan == scan
      ensures report == old(report)
    {
      leds := out;
      keyScan := scan;
    }
  }

  // ---------------------------------------------------------------------
  // Properties of one pass

  /** The scan finds every tag of the source table with the kind of its
      group and its usage code. */
  lemma ScanFindsTag(usage: Tag -> uint16, t: Tag, report: ReportKind)
    ensures Scan(SourceMachine(usage), Touched(t), report) == (GroupKind(t), usage(t))
  {
    LookupSourceTagMap(usage, t);
  }

  /** Pressing a key sends a report of the key's kind carrying its usage
      code: a keyboard report with the latched modifiers and the code's low
      byte, a system report with ID 1, or a consumer report with ID 2 whose
      two bytes are the code; the other buffer is left alone. */
  lemma PressSendsKey(usage: Tag -> uint16, s: LoopState, out: Leds, t: Tag, mods: Modifiers)
    requires NonzeroUsage(usage)
    ensures var (s', sent) := Step(SourceMachine(usage), s, out, true, KeyScan(Touched(t), mods));
      sent == GroupKind(t) && s'.report == GroupKind(t) &&
      s'.leds == out &&
      (sent == Keyboard ==> s'.kbd == KbdReport(mods, Lo(usage(t))) && s'.ctrl == s.ctrl) &&
      (sent == SystemControl ==>
        s'.ctrl.reportId == 1 && s'.ctrl.data1 == SystemBits(SourceMachine(usage), usage(t)) && s'.kbd == s.kbd) &&
      (sent == ConsumerControl ==>
        s'.ctrl.reportId == 2 && s'.ctrl.data1 + 0x100 * s'.ctrl.data2 == usage(t) && s'.kbd == s.kbd)
  {
    var m := SourceMachine(usage);
    ScanFindsTag(usage, t, s.report);
    var s1 := s.(leds := out, keyScan := KeyScan(Touched(t), mods));
    assert Step(m, s, out, true, KeyScan(Touched(t), mods)) == Press(m, s1, GroupKind(t), usage(t));
    LoHiJoin(usage(t));
  }

  /** Each system key sets exactly its own bit when the three system usage
      codes differ. */
  lemma SystemKeySetsItsBit(m: Machine)
    requires m.power != m.sleep && m.power != m.wake && m.sleep != m.wake
    ensures SystemBits(m, m.power) == SysPowerDown
    ensures SystemBits(m, m.sleep) == SysSleep
    ensures SystemBits(m, m.wake) == SysWake
  {
  }

  /** A pass with a tag that is in no entry sends the key-up of the
      remembered kind, exactly once: the keyboard report with no modifiers
      and no key (and the display's modifiers unlatched), a system byte of
      0 under the last report ID, or a consumer report 2 of zeros. With no
      kind remembered nothing is sent and no buffer is written. */
  lemma ReleaseSendsKeyUp(m: Machine, s: LoopState, out: Leds, scan: KeyScan)
    requires Lookup(m.table, scan.keyTag).None?
    ensures var (s', sent) := Step(m, s, out, true, scan);
      sent == s.report && s'.report == NoReport && s'.leds == out &&
      (sent == Keyboard ==> s'.kbd == KbdReport(NoModifiers, 0) && s'.keyScan.mods == NoModifiers && s'.ctrl == s.ctrl) &&
      (sent == SystemControl ==> s'.ctrl == s.ctrl.(data1 := 0) && s'.kbd == s.kbd) &&
      (sent == ConsumerControl ==> s'.ctrl == CtrlReport(2, 0, 0) && s'.kbd == s.kbd) &&
      (sent != Keyboard ==> s'.keyScan == scan) &&
      (sent == NoReport ==> s'.kbd == s.kbd && s'.ctrl == s.ctrl)
  {
  }

  /** When the display has no event, nothing is sent and neither the
      remembered kind nor the report buffers change. */
  lemma NotReadySendsNothing(m: Machine, s: LoopState, out: Leds, scan: KeyScan)
    ensures var (s', sent) := Step(m, s, out, false, scan);
      sent == NoReport && s' == s.(leds := out, keyScan := scan)
  {
  }

  /** Holding a key: a second pass with the same scan leaves every buffer
      byte-identical and sends the same kind again. */
  lemma HeldKeyRepeats(m: Machine, s: LoopState, out: Leds, scan: KeyScan)
    requires Lookup(m.table, scan.keyTag).Some? && Lookup(m.table, scan.keyTag).value.scancode != 0
    ensures var (s1, sent1) := Step(m, s, out, true, scan);
      Step(m, s1, out, true, scan) == (s1, sent1)
  {
  }

  /** An entry whose kind is none of the three drops the remembered kind
      and sends nothing, without writing a buffer. */
  lemma UnknownKindSendsNothing(m: Machine, s: LoopState, out: Leds, scan: KeyScan)
    requires Lookup(m.table, scan.keyTag).Some?
    requires Lookup(m.table, scan.keyTag).value.report == NoReport
    ensures var (s', sent) := Step(m, s, out, true, scan);
      sent == NoReport && s' == s.(leds := out, keyScan := scan, report := NoReport)
  {
  }

  /** A press followed by releases sends the press report, then the key-up
      of the same kind once, then nothing. */
  lemma PressThenRelease(usage: Tag -> uint16, s: LoopState, out: Leds, t: Tag, mods: Modifiers, mods': Modifiers)
    requires NonzeroUsage(usage)
    ensures var m := SourceMachine(usage);
      var (s1, sent1) := Step(m, s, out, true, KeyScan(Touched(t), mods));
      var (s2, sent2) := Step(m, s1, out, true, KeyScan(NoTag, mods'));
      var (s3, sent3) := Step(m, s2, out, true, KeyScan(NoTag, mods'));
      sent1 == GroupKind(t) && sent2 == GroupKind(t) && sent3 == NoReport && s3.report == NoReport
  {
    var m := SourceMachine(usage);
    PressSendsKey(usage, s, out, t, mods);
    LookupNoTag(m.table);
    var (s1, _) := Step(m, s, out, true, KeyScan(Touched(t), mods));
    ReleaseSendsKeyUp(m, s1, out, KeyScan(NoTag, mods'));
    var (s2, _) := Step(m, s1, out, true, KeyScan(NoTag, mods'));
    ReleaseSendsKeyUp(m, s2, out, KeyScan(NoTag, mods'));
  }

  /** Moving from a keyboard key straight to a consumer key sends no
      keyboard key-up: the keyboard buffer keeps the old key, and the
      release that follows clears only the consumer report. */
  lemma SwitchKeepsKeyboardKey(usage: Tag -> uint16, s: LoopState, out: Leds, c: ConsumerKey, mods: Modifiers)
    requires NonzeroUsage(usage)
    requires s.report == Keyboard
    ensures var m := SourceMachine(usage);
      var (s1, sent1) := Step(m, s, out, true, KeyScan(Touched(ConsumerTag(c)), mods));
      var (s2, sent2) := Step(m, s1, out, true, KeyScan(NoTag, mods));
      sent1 == ConsumerControl && sent2 == ConsumerControl && s2.kbd == s.kbd
  {
    var m := SourceMachine(usage);
    PressSendsKey(usage, s, out, ConsumerTag(c), mods);
    LookupNoTag(m.table);
    var (s1, _) := Step(m, s, out, true, KeyScan(Touched(ConsumerTag(c)), mods));
    ReleaseSendsKeyUp(m, s1, out, KeyScan(NoTag, mods));
  }

  /** Whatever the table holds, every pass keeps the remembered kind and
      the control report ID in agreement. With no zero scancode in the
      table, every control report sent also carries the ID of its kind (1
      for system, 2 for consumer); an entry with scancode 0 would send its
      own kind as a key-up under the ID of the kind remembered. */
  lemma StepKeepsReportIds(m: Machine, s: LoopState, out: Leds, ready: bool, scan: KeyScan)
    requires ReportIdsAgree(s)
    ensures ReportIdsAgree(Step(m, s, out, ready, scan).0)
    ensures var (s', sent) := Step(m, s, out, ready, scan);
      NonzeroCodes(m) ==>
        (sent == SystemControl ==> s'.ctrl.reportId == 1) &&
        (sent == ConsumerControl ==> s'.ctrl.reportId == 2)
  {
    var i := FirstMatch(m.table, scan.keyTag);
    if i.Some? && NonzeroCodes(m) {
      assert m.table[i.value].scancode != 0;
    }
  }
}
