/** The HID side of main.c: the interface callbacks, the class request
    handler that writes the registry, reset_cb, and the pass of the polling
    loop that routes each report kind to its IN endpoint. */
module HidDevice {
  import opened Ints
  import opened TagMap
  import opened UsbKeyboard
  import opened HidRegistry
  import opened UsbRequests
  import opened Descriptors

  // ---------------------------------------------------------------------
  // setif_req_cb and getif_req_cb (main.c:968-997)

  /** SET_INTERFACE: only interface 0 exists, with alternate setting 0. */
  function SetInterface(req: SetupPacket): (s: Status)
    ensures s == Ok <==> req.wIndex == 0 && req.wValue == 0
    ensures s != Ok ==> s == NotSupported
  {
    if req.wIndex == 0 && req.wValue == 0 then Ok else NotSupported
  }

  /** GET_INTERFACE: the alternate setting of interface 0, which is 0;
      None is NOT_SUPPORTED. */
  function GetInterface(req: SetupPacket): (alt: Option<uint8>)
    ensures alt.Some? <==> req.wIndex == 0
    ensures alt.Some? ==> alt.value == 0
  {
    if req.wIndex == 0 then Some(0) else None
  }

  /** The setting GET_INTERFACE reports is the one setting SET_INTERFACE
      accepts. */
  lemma InterfaceSettingsAgree(req: SetupPacket)
    ensures GetInterface(req).Some? ==>
              SetInterface(req.(wValue := GetInterface(req).value)) == Ok
    ensures SetInterface(req) == Ok ==> GetInterface(req) == Some(req.wValue as uint8)
  {
  }

  // ---------------------------------------------------------------------
  // class_req_cb (main.c:1202-1242)

  /** The handler a class request reaches. */
  datatype Handler = ToHid | ToDfuRuntime | ToDfuMode | ToEndpoint | Unhandled

  /** Interface requests go to the DFU runtime handler for interface 2 and
      to the HID handler otherwise; in DFU mode only interface 0 is served.
      Endpoint requests go to the (empty) endpoint handler. */
  function ClassRoute(req: SetupPacket, runtime: bool): (h: Handler)
    ensures h == ToHid <==> runtime && Recipient(req) == RecipientInterface && InterfaceOf(req) != 2
    ensures h == ToEndpoint <==> Recipient(req) == RecipientEndpoint
  {
    if Recipient(req) == RecipientInterface then
      if runtime then (if InterfaceOf(req) == 2 then ToDfuRuntime else ToHid)
      else if InterfaceOf(req) == 0 then ToDfuMode else Unhandled
    else if Recipient(req) == RecipientEndpoint then ToEndpoint
    else Unhandled
  }

  // ---------------------------------------------------------------------
  // class_req_interface_hid (main.c:999-1085)

  /** What the HID handler does with a request. */
  datatype Action =
    | StoreIdle(interface: nat, rate: uint8)
    | ReadIdle(interface: nat)
    | StoreProtocol(interface: nat, protocol: uint8)
    | ReadProtocol(interface: nat)
    | TakeLeds
    | NoAction
    | Reject(status: Status)

  /** The handler as written: the interface is used unchecked, SET_PROTOCOL
      takes the high byte of wValue, and only SET_REPORT to an interface
      other than the boot keyboard fails. */
  function HidActionAsWritten(req: SetupPacket): (a: Action)
    ensures a.Reject? <==> req.bRequest == HidSetReport && InterfaceOf(req) != 0
    ensures a.Reject? ==> a.status == InvalidParameter
    ensures a.StoreIdle? ==> a.rate == Hi(req.wValue)
    ensures a.StoreProtocol? ==> a.protocol == Hi(req.wValue)
  {
    var interface := InterfaceOf(req);
    if req.bRequest == HidSetIdle then StoreIdle(interface, Hi(req.wValue))
    else if req.bRequest == HidGetIdle then ReadIdle(interface)
    else if req.bRequest == HidSetProtocol then StoreProtocol(interface, Hi(req.wValue))
    else if req.bRequest == HidGetProtocol then ReadProtocol(interface)
    else if req.bRequest == HidSetReport then
      (if interface == 0 then TakeLeds else Reject(InvalidParameter))
    else NoAction
  }

  /** Whether a request reads or writes the registry. */
  predicate TouchesRegistry(bRequest: uint8) {
    bRequest == HidSetIdle || bRequest == HidGetIdle ||
    bRequest == HidSetProtocol || bRequest == HidGetProtocol
  }

  /** The handler corrected: a registry request for an interface the
      registry does not hold is refused, and SET_PROTOCOL takes the low byte
      of wValue (section 7.2.6 of HID 1.11). */
  function HidAction(req: SetupPacket): (a: Action)
    ensures (a.StoreIdle? || a.ReadIdle? || a.StoreProtocol? || a.ReadProtocol?) ==>
              a.interface == InterfaceOf(req) < Slots
    ensures a.Reject? <==>
              (TouchesRegistry(req.bRequest) && InterfaceOf(req) >= Slots) ||
              (req.bRequest == HidSetReport && InterfaceOf(req) != 0)
    ensures a.StoreIdle? ==> a.rate == Hi(req.wValue)
    ensures a.StoreProtocol? ==> a.protocol == Lo(req.wValue)
  {
    var interface := InterfaceOf(req);
    if TouchesRegistry(req.bRequest) && interface >= Slots then Reject(NotSupported)
    else if req.bRequest == HidSetIdle then StoreIdle(interface, Hi(req.wValue))
    else if req.bRequest == HidGetIdle then ReadIdle(interface)
    else if req.bRequest == HidSetProtocol then StoreProtocol(interface, Lo(req.wValue))
    else if req.bRequest == HidGetProtocol then ReadProtocol(interface)
    else if req.bRequest == HidSetReport then
      (if interface == 0 then TakeLeds else Reject(InvalidParameter))
    else NoAction
  }

  /** The status the handler returns. */
  function ActionStatus(a: Action): Status {
    if a.Reject? then a.status else Ok
  }

  /** The registry after the action. */
  function Registered(a: Action, slots: seq<Slot>): (slots': seq<Slot>)
    requires |slots| == Slots
    requires (a.StoreIdle? || a.StoreProtocol?) ==> a.interface < Slots
    ensures |slots'| == Slots
    ensures forall j :: 0 <= j < Slots && !((a.StoreIdle? || a.StoreProtocol?) && j == a.interface) ==>
              slots'[j] == slots[j]
  {
    match a
    case StoreIdle(i, rate) => slots[i := slots[i].(enabled := true, idle := rate)]
    case StoreProtocol(i, p) => slots[i := slots[i].(protocol := p)]
    case _ => slots
  }

  /** The one byte sent back in the data stage, if any. */
  function Answer(a: Action, slots: seq<Slot>): (b: Option<uint8>)
    requires |slots| == Slots
    requires (a.ReadIdle? || a.ReadProtocol?) ==> a.interface < Slots
    ensures b.Some? <==> a.ReadIdle? || a.ReadProtocol?
  {
    match a
    case ReadIdle(i) => Some(slots[i].idle)
    case ReadProtocol(i) => Some(slots[i].protocol)
    case _ => None
  }

  /** Except for the protocol byte and the out-of-range interfaces, the
      corrected handler does what the handler as written does. */
  lemma HidActionRefinesAsWritten(req: SetupPacket)
    requires InterfaceOf(req) < Slots
    ensures req.bRequest != HidSetProtocol ==> HidAction(req) == HidActionAsWritten(req)
    ensures req.bRequest == HidSetProtocol ==>
              HidActionAsWritten(req) == StoreProtocol(InterfaceOf(req), Hi(req.wValue)) &&
              HidAction(req) == StoreProtocol(InterfaceOf(req), Lo(req.wValue))
  {
  }

  /** GET_IDLE after SET_IDLE on the same interface returns the duration the
      host sent (the high byte of wValue), and the interface is enabled. */
  lemma SetIdleThenGetIdle(setReq: SetupPacket, getReq: SetupPacket, slots: seq<Slot>)
    requires |slots| == Slots
    requires setReq.bRequest == HidSetIdle && getReq.bRequest == HidGetIdle
    requires InterfaceOf(setReq) == InterfaceOf(getReq) < Slots
    ensures var slots' := Registered(HidAction(setReq), slots);
      Answer(HidAction(getReq), slots') == Some(Hi(setReq.wValue)) &&
      slots'[InterfaceOf(setReq)].enabled
  {
  }

  /** GET_PROTOCOL after SET_PROTOCOL on the same interface returns the
      protocol the host sent (the low byte of wValue). */
  lemma SetProtocolThenGetProtocol(setReq: SetupPacket, getReq: SetupPacket, slots: seq<Slot>)
    requires |slots| == Slots
    requires setReq.bRequest == HidSetProtocol && getReq.bRequest == HidGetProtocol
    requires InterfaceOf(setReq) == InterfaceOf(getReq) < Slots
    ensures Answer(HidAction(getReq), Registered(HidAction(setReq), slots)) == Some(Lo(setReq.wValue))
  {
  }

  /** As written, SET_PROTOCOL(Report protocol) on the keyboard interface
      (wValue 1) stores 0, the Boot protocol, so GET_PROTOCOL then answers 0. */
  lemma SetProtocolAsWrittenStoresHighByte(slots: seq<Slot>)
    requires |slots| == Slots
    ensures var setReq := SetupPacket(0x21, HidSetProtocol, 1, 0, 0);
      var getReq := SetupPacket(0xA1, HidGetProtocol, 0, 0, 1);
      HidActionAsWritten(setReq) == StoreProtocol(0, 0) &&
      Answer(HidActionAsWritten(getReq), Registered(HidActionAsWritten(setReq), slots)) == Some(0) &&
      Answer(HidAction(getReq), Registered(HidAction(setReq), slots)) == Some(1)
  {
  }

  /** As written, a SET_IDLE addressed to interface 3 reaches the HID handler
      and indexes the two-slot registry at 3; a GET_DESCRIPTOR(REPORT) for
      interface 2 indexes it at 2. The corrected handlers refuse both. */
  lemma InterfaceEscapesRegistry(strings: seq<uint8>, slots: seq<Slot>)
    requires |strings| == 0x100 && |slots| == Slots
    ensures var setIdle := SetupPacket(0x21, HidSetIdle, 0, 3, 0);
      ClassRoute(setIdle, true) == ToHid &&
      HidActionAsWritten(setIdle) == StoreIdle(3, 0) && 3 >= Slots &&
      HidAction(setIdle) == Reject(NotSupported)
    ensures var getReport := SetupPacket(0x81, 6, 0x2200, 2, 0xFF);
      InterfaceOf(getReport) == 2 >= Slots &&
      Describe(getReport, true, true, strings, slots) == Refused
  {
  }

  // ---------------------------------------------------------------------
  // The polling loop (main.c:1586-1621) and reset_cb (main.c:1501-1521)

  /** What one pass hands to USBD_transfer. */
  datatype Transfer = NoTransfer | KeyboardEp(kbd: KbdReport) | ControlEp(ctrl: CtrlReport)

  /** Keyboard reports go to the keyboard IN endpoint and system or consumer
      reports to the control IN endpoint, each only while its interface is
      enabled. */
  function RouteReport(kind: ReportKind, slots: seq<Slot>, kbd: KbdReport, ctrl: CtrlReport): (t: Transfer)
    requires |slots| == Slots
    ensures t.KeyboardEp? <==> kind == Keyboard && slots[0].enabled
    ensures t.ControlEp? <==> (kind == SystemControl || kind == ConsumerControl) && slots[1].enabled
    ensures t.KeyboardEp? ==> t.kbd == kbd
    ensures t.ControlEp? ==> t.ctrl == ctrl
  {
    if kind == Keyboard && slots[0].enabled then KeyboardEp(kbd)
    else if (kind == SystemControl || kind == ConsumerControl) && slots[1].enabled then ControlEp(ctrl)
    else NoTransfer
  }

  /** The device: the registry, the key reporter with its two IN report
      buffers, the host's last output report, and the `not_connected` flag
      of usbd_testing. `idleSinceReset` records whether the host has sent
      SET_IDLE to the keyboard interface since the last bus reset. */
  class Device {
    const registry: Registry
    const reporter: KeyReporter
    var ledsOut: Leds
    var notConnected: bool
    ghost var idleSinceReset: bool

    ghost predicate Valid()
      reads this, registry, reporter, reporter.kbd, reporter.ctrl, registry.enable
    {
      registry.Valid() && reporter.Valid() &&
      (registry.enable[0] ==> idleSinceReset)
    }

    /** usbd_testing's set-up: store the two report descriptors. */
    constructor(machine: Machine)
      ensures Valid()
      ensures registry.Contents() == RegisteredSlots
      ensures reporter.machine == machine && reporter.report == NoReport
      ensures notConnected && !idleSinceReset
    {
      var reg := new Registry();
      var kbd := new KeyboardInReport();
      var ctrl := new ControlInReport();
      var rep := new KeyReporter(machine, kbd, ctrl);
      reg.SetReportDescriptor(0, Some(KeyboardReportDescriptor), |KeyboardReportDescriptor| as uint16);
      ControlReportIds();
      reg.SetReportDescriptor(1, Some(ControlReportDescriptor), |ControlReportDescriptor| as uint16);
      registry, reporter := reg, rep;
      ledsOut := Leds(false, false, false);
      notConnected := true;
      idleSinceReset := false;
    }

    /** reset_cb: a bus reset disables both interfaces. */
    method ResetCb()
      requires Valid()
      modifies this, registry.enable
      ensures Valid()
      ensures registry.Contents() ==
        old(registry.Contents())[0 := old(registry.Contents())[0].(enabled := false)]
                                [1 := old(registry.Contents())[1].(enabled := false)]
      ensures !idleSinceReset && notConnected == old(notConnected) && ledsOut == old(ledsOut)
    {
      registry.ReportEnable(0, false);
      registry.ReportEnable(1, false);
      idleSinceReset := false;
    }

    /** The end of an outer iteration of usbd_testing: reconnecting draws
      the keyboard anew. */
    method Restart()
      requires Valid()
      modifies this
      ensures Valid() && notConnected
      ensures idleSinceReset == old(idleSinceReset) && ledsOut == old(ledsOut)
    {
      notConnected := true;
    }

    /** One pass of the configured branch: the first pass after connecting
        enables the control interface only; later passes run the key loop
        and route its report. `ready` and `scan` are what the display
        produces. */
    method ConfiguredPass(ready: bool, scan: KeyScan) returns (t: Transfer)
      requires Valid()
      modifies this, registry.enable, reporter, reporter.kbd, reporter.ctrl
      ensures Valid()
      ensures !notConnected && idleSinceReset == old(idleSinceReset) && ledsOut == old(ledsOut)
      ensures old(notConnected) ==>
        t == NoTransfer && reporter.State() == old(reporter.State()) &&
        registry.Contents() == old(registry.Contents())[1 := old(registry.Contents())[1].(enabled := true)]
      ensures !old(notConnected) ==>
        var (s', kind) := Step(reporter.machine, old(reporter.State()), ledsOut, ready, scan);
        reporter.State() == s' && registry.Contents() == old(registry.Contents()) &&
        t == RouteReport(kind, registry.Contents(), s'.kbd, s'.ctrl)
      ensures t.KeyboardEp? ==> idleSinceReset
    {
      if notConnected {
        registry.ReportEnable(1, true);
        notConnected := false;
        t := NoTransfer;
      } else {
        var kind := reporter.Loop(ledsOut, ready, scan);
        t := NoTransfer;
        if kind == Keyboard {
          var on := registry.ReportEnabled(0);
          if on {
            t := KeyboardEp(KbdReport(reporter.kbd.mods, reporter.kbd.keycode));
          }
        }
        if kind == SystemControl || kind == ConsumerControl {
          var on := registry.ReportEnabled(1);
          if on {
            t := ControlEp(CtrlReport(reporter.ctrl.reportId, reporter.ctrl.data1, reporter.ctrl.data2));
          }
        }
      }
    }

    /** class_req_interface_hid, corrected, for a request class_req_cb
        routes to it. `hostLeds` is the output report of a SET_REPORT data
        stage and `scan` what the display leaves after redrawing. */
    method HidClassRequest(req: SetupPacket, hostLeds: Leds, scan: KeyScan) returns (status: Status, reply: Option<uint8>)
      requires Valid()
      modifies this, registry.enable, registry.idle, registry.protocol, reporter
      ensures Valid()
      ensures status == ActionStatus(HidAction(req))
      ensures reply == Answer(HidAction(req), old(registry.Contents()))
      ensures registry.Contents() == Registered(HidAction(req), old(registry.Contents()))
      ensures HidAction(req) == TakeLeds ==>
        ledsOut == hostLeds && reporter.leds == hostLeds && reporter.keyScan == scan
      ensures HidAction(req) != TakeLeds ==>
        ledsOut == old(ledsOut) && reporter.State() == old(reporter.State())
      ensures reporter.report == old(reporter.report) && notConnected == old(notConnected)
    {
      var a := HidAction(req);
      status, reply := ActionStatus(a), None;
      match a {
        case StoreIdle(i, rate) =>
          registry.SetIdle(i, rate);
          if i == 0 {
            idleSinceReset := true;
          }
        case ReadIdle(i) =>
          var rate := registry.GetIdle(i);
          reply := Some(rate);
        case StoreProtocol(i, p) =>
          registry.SetProtocol(i, p);
        case ReadProtocol(i) =>
          var p := registry.GetProtocol(i);
          reply := Some(p);
        case TakeLeds =>
          ledsOut := hostLeds;
          reporter.SetReport(hostLeds, scan);
        case NoAction =>
        case Reject(_) =>
      }
    }
  }
}
