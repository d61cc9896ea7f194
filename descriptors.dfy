/** standard_req_get_descriptor of main.c: which descriptor answers a
    GET_DESCRIPTOR request (section 9.4.3 of the USB 2.0 specification) and
    how many of its bytes are returned. */
module Descriptors {
  import opened Ints
  import opened UsbRequests
  import opened StringTable
  import opened HidRegistry

  // Sizes of the fixed descriptors
  const DeviceSize: uint16 := 18        // sizeof(USB_device_descriptor)
  const PanelConfigSize: uint16 := 59   // configuration, then interface, HID and endpoint twice
  const DfuModeConfigSize: uint16 := 27 // configuration, DFU interface, DFU functional
  const QualifierSize: uint16 := 10     // sizeof(USB_device_qualifier_descriptor)

  /** The boot keyboard report descriptor: eight modifier bits, a reserved
      byte, three LED bits out and five bits of padding, six key codes
      (Appendix B.1 of HID 1.11). */
  const KeyboardReportDescriptor: seq<uint8> :=
    [0x05, 0x01, 0x09, 0x06, 0xA1, 0x01, 0x05, 0x07, 0x19, 0xE0, 0x29, 0xE7, 0x15,
     0x00, 0x25, 0x01, 0x75, 0x01, 0x95, 0x08, 0x81, 0x02, 0x95, 0x01, 0x75,
     0x08, 0x81, 0x01, 0x95, 0x03, 0x75, 0x01, 0x05, 0x08, 0x19, 0x01, 0x29,
     0x03, 0x91, 0x02, 0x95, 0x05, 0x75, 0x01, 0x91, 0x01, 0x95, 0x06, 0x75,
     0x08, 0x15, 0x00, 0x26, 0xFF, 0x00, 0x05, 0x07, 0x19, 0x00, 0x2A, 0xFF,
     0x00, 0x81, 0x00, 0xC0]

  /** The System Control collection: report 1 holds the System Power Down,
      Sleep and Wake Up bits (usages 0x81 to 0x83) and five bits of padding. */
  const SystemControlCollection: seq<uint8> :=
    [0x05, 0x01, 0x09, 0x80, 0xA1, 0x01, 0x85, 0x01, 0x19, 0x81, 0x29, 0x83, 0x15,
     0x00, 0x25, 0x01, 0x75, 0x01, 0x95, 0x03, 0x81, 0x02, 0x95, 0x05, 0x81,
     0x01, 0xC0]

  /** The Consumer Control collection: report 2 holds one 16-bit usage. */
  const ConsumerControlCollection: seq<uint8> :=
    [0x05, 0x0C, 0x09, 0x01, 0xA1, 0x01, 0x85, 0x02, 0x19, 0x00, 0x2A, 0x3C,
     0x02, 0x15, 0x00, 0x26, 0x3C, 0x02, 0x95, 0x01, 0x75, 0x10, 0x81, 0x00,
     0xC0]

  /** The control report descriptor: the two collections in turn. */
  const ControlReportDescriptor: seq<uint8> := SystemControlCollection + ConsumerControlCollection

  /** The registry as usbd_testing leaves it after storing the two report
      descriptors. */
  const RegisteredSlots: seq<Slot> :=
    [EmptySlot.(descriptor := Some(KeyboardReportDescriptor), descriptorLen := 65),
     EmptySlot.(descriptor := Some(ControlReportDescriptor), descriptorLen := 52)]

  /** Where the reply's bytes come from. The configuration buffer is the
      copy of the high- or full-speed layout with its type byte rewritten.
      `PastRegistry` is the pointer read past the end of the registry's
      two-entry arrays, with `size` the word read past the length array. */
  datatype Source =
    | Null
    | DevicePanel
    | DeviceDfuMode
    | PanelConfig(highSpeedLayout: bool, descriptorType: uint8)
    | DfuModeConfig
    | QualifierPanel
    | StringAt(offset: uint8)
    | ReportDescriptor(descriptor: Option<seq<uint8>>, size: uint16)
    | PastRegistry(interface: nat, size: uint16)

  /** NOT_SUPPORTED, or OK with the buffer and length handed to the stack. */
  datatype Reply = Refused | Send(src: Source, length: uint16)

  /** The size of the descriptor a source points at. */
  function Size(src: Source, strings: seq<uint8>): (n: uint16)
    requires |strings| == 0x100
  {
    match src
    case Null => 0
    case DevicePanel => DeviceSize
    case DeviceDfuMode => DeviceSize
    case PanelConfig(_, _) => PanelConfigSize
    case DfuModeConfig => DfuModeConfigSize
    case QualifierPanel => QualifierSize
    case StringAt(offset) => strings[offset]
    case ReportDescriptor(_, size) => size
    case PastRegistry(_, size) => size
  }

  /** `if (length > size) length = size;` */
  function Clamp(wLength: uint16, size: uint16): (n: uint16)
    ensures n == Min(wLength, size)
  {
    if wLength > size then size else wLength
  }

  /** The answer of the corrected GET_DESCRIPTOR handler, in runtime or DFU
      mode, at high or full speed, over a string table and the registry's
      slots. Unlike the code as written (`DescribeAsWritten`), a string
      index past the table and a report descriptor for an interface the
      registry does not hold are refused. */
  function Describe(req: SetupPacket, runtime: bool, highSpeed: bool,
                    strings: seq<uint8>, slots: seq<Slot>): (r: Reply)
    requires |strings| == 0x100 && |slots| == Slots
    ensures r.Send? ==> r.length <= req.wLength
    ensures r.Send? && r.src != Null ==> r.length == Min(req.wLength, Size(r.src, strings))
    ensures r.Send? && r.src == Null <==>
              !runtime && Hi(req.wValue) == DescriptorOtherSpeed
    ensures r.Refused? <==>
              Hi(req.wValue) !in {DescriptorDevice, DescriptorConfiguration, DescriptorOtherSpeed,
                                  DescriptorDeviceQualifier, DescriptorString, DescriptorReport} ||
              (Hi(req.wValue) == DescriptorString && StringLookup(strings, Lo(req.wValue)).NotFound?) ||
              (Hi(req.wValue) == DescriptorReport && InterfaceOf(req) >= Slots)
  {
    var hValue := Hi(req.wValue);
    var length := req.wLength;
    if hValue == DescriptorDevice then
      Send(if runtime then DevicePanel else DeviceDfuMode, Clamp(length, DeviceSize))
    else if hValue == DescriptorConfiguration then
      if runtime then Send(PanelConfig(highSpeed, DescriptorConfiguration), Clamp(length, PanelConfigSize))
      else Send(DfuModeConfig, Clamp(length, DfuModeConfigSize))
    else if hValue == DescriptorOtherSpeed then
      if runtime then Send(PanelConfig(!highSpeed, DescriptorOtherSpeed), Clamp(length, PanelConfigSize))
      else Send(Null, length)
    else if hValue == DescriptorDeviceQualifier then
      Send(QualifierPanel, Clamp(length, QualifierSize))
    else if hValue == DescriptorString then
      match StringLookup(strings, Lo(req.wValue))
      case NotFound => Refused
      case Found(src, slen) => Send(StringAt(src.value), Clamp(length, slen))
    else if hValue == DescriptorReport then
      var interface := InterfaceOf(req);
      if interface >= Slots then Refused
      else Send(ReportDescriptor(slots[interface].descriptor, slots[interface].descriptorLen),
                Clamp(length, slots[interface].descriptorLen))
    else
      Refused
  }

  /** The answer of standard_req_get_descriptor as written. The STRING
      case refuses only when strings were left to skip, so the walk that
      ends on the end marker answers OK with the last start it visited (or
      the NULL buffer) and length 0. The REPORT case reads the registry at
      any interface from 0 to 15; past its two slots `beyond` is the
      length word found there. */
  function DescribeAsWritten(req: SetupPacket, runtime: bool, highSpeed: bool,
                             strings: seq<uint8>, slots: seq<Slot>, beyond: uint16): (r: Reply)
    requires |strings| == 0x100 && |slots| == Slots
    ensures r.Send? ==> r.length <= req.wLength
    ensures r.Send? && Hi(req.wValue) != DescriptorString && r.src != Null ==>
              r.length == Min(req.wLength, Size(r.src, strings))
    ensures r.Send? && Hi(req.wValue) == DescriptorString ==>
              var found := StringLookupAsWritten(strings, Lo(req.wValue));
              found.Found? && r.length == Min(req.wLength, found.slen)
    ensures r.Refused? <==>
              Hi(req.wValue) !in {DescriptorDevice, DescriptorConfiguration, DescriptorOtherSpeed,
                                  DescriptorDeviceQualifier, DescriptorString, DescriptorReport} ||
              (Hi(req.wValue) == DescriptorString && StringLookupAsWritten(strings, Lo(req.wValue)).NotFound?)
    ensures Hi(req.wValue) == DescriptorReport && InterfaceOf(req) >= Slots ==>
              r == Send(PastRegistry(InterfaceOf(req), beyond), Min(req.wLength, beyond))
  {
    var hValue := Hi(req.wValue);
    if hValue == DescriptorString then
      match StringLookupAsWritten(strings, Lo(req.wValue))
      case NotFound => Refused
      case Found(src, slen) =>
        Send(if src.Some? then StringAt(src.value) else Null, Clamp(req.wLength, slen))
    else if hValue == DescriptorReport && InterfaceOf(req) >= Slots then
      Send(PastRegistry(InterfaceOf(req), beyond), Clamp(req.wLength, beyond))
    else
      Describe(req, runtime, highSpeed, strings, slots)
  }

  /** The corrected handler answers as the code does, except where the code
      answers a string index past the table with length 0 or reads a report
      descriptor past the registry; the corrected handler refuses both. */
  lemma DescribeRefinesAsWritten(req: SetupPacket, runtime: bool, highSpeed: bool,
                                 strings: seq<uint8>, slots: seq<Slot>, beyond: uint16)
    requires |strings| == 0x100 && |slots| == Slots
    ensures var asWritten := DescribeAsWritten(req, runtime, highSpeed, strings, slots, beyond);
      var corrected := Describe(req, runtime, highSpeed, strings, slots);
      asWritten == corrected ||
      (corrected.Refused? && asWritten.Send? && asWritten.length == 0 &&
       Hi(req.wValue) == DescriptorString && StringLookup(strings, Lo(req.wValue)).NotFound?) ||
      (corrected.Refused? && asWritten.src.PastRegistry? &&
       Hi(req.wValue) == DescriptorReport && InterfaceOf(req) >= Slots)
  {
    StringLookupAsWrittenDiffers(strings, Lo(req.wValue));
  }

  /** standard_req_get_descriptor, corrected as `Describe` is, over
      main.c's string table and the registry. */
  method GetDescriptor(req: SetupPacket, runtime: bool, highSpeed: bool, reg: Registry) returns (r: Reply)
    requires reg.Valid()
    ensures r == Describe(req, runtime, highSpeed, SourceBytes(), reg.Contents())
  {
    var length := req.wLength;
    var hValue := Hi(req.wValue);
    var lValue := Lo(req.wValue);
    var interface := InterfaceOf(req);
    if hValue == DescriptorDevice {
      r := Send(if runtime then DevicePanel else DeviceDfuMode, Clamp(length, DeviceSize));
    } else if hValue == DescriptorConfiguration {
      if runtime {
        r := Send(PanelConfig(highSpeed, DescriptorConfiguration), Clamp(length, PanelConfigSize));
      } else {
        r := Send(DfuModeConfig, Clamp(length, DfuModeConfigSize));
      }
    } else if hValue == DescriptorOtherSpeed {
      if runtime {
        r := Send(PanelConfig(!highSpeed, DescriptorOtherSpeed), Clamp(length, PanelConfigSize));
      } else {
        r := Send(Null, length);
      }
    } else if hValue == DescriptorDeviceQualifier {
      r := Send(QualifierPanel, Clamp(length, QualifierSize));
    } else if hValue == DescriptorString {
      var e := FindString(SourceBytes(), lValue);
      if e.rest > 0 || e.slen == 0 {
        r := Refused;
      } else {
        r := Send(StringAt(e.src.value), Clamp(length, e.slen));
      }
    } else if hValue == DescriptorReport {
      if interface >= Slots {
        r := Refused;
      } else {
        var d, dlen := reg.GetReportDescriptor(interface);
        r := Send(ReportDescriptor(d, dlen), Clamp(length, dlen));
      }
    } else {
      r := Refused;
    }
  }

  /** The corrected GET_DESCRIPTOR(STRING, n) returns the language list and
      the five strings, each cut to wLength, and refuses every other
      index. */
  lemma StringDescriptors(req: SetupPacket, runtime: bool, highSpeed: bool, slots: seq<Slot>)
    requires |slots| == Slots && Hi(req.wValue) == DescriptorString
    ensures Describe(req, runtime, highSpeed, SourceBytes(), slots) ==
      match Lo(req.wValue)
      case 0 => Send(StringAt(0), Min(req.wLength, 4))
      case 1 => Send(StringAt(4), Min(req.wLength, 10))
      case 2 => Send(StringAt(14), Min(req.wLength, 54))
      case 3 => Send(StringAt(68), Min(req.wLength, 18))
      case 4 => Send(StringAt(86), Min(req.wLength, 30))
      case 5 => Send(StringAt(116), Min(req.wLength, 28))
      case _ => Refused
  {
    SourceStrings(Lo(req.wValue));
  }

  /** After the two report descriptors are stored, GET_DESCRIPTOR(REPORT)
      answers interface 0 with the keyboard descriptor and interface 1 with
      the control descriptor, whole when wLength allows. */
  lemma RegisteredReportDescriptors(req: SetupPacket, runtime: bool, highSpeed: bool, strings: seq<uint8>)
    requires |strings| == 0x100 && Hi(req.wValue) == DescriptorReport
    ensures InterfaceOf(req) == 0 ==>
      Describe(req, runtime, highSpeed, strings, RegisteredSlots) ==
        Send(ReportDescriptor(Some(KeyboardReportDescriptor), |KeyboardReportDescriptor| as uint16),
             Min(req.wLength, |KeyboardReportDescriptor|))
    ensures InterfaceOf(req) == 1 ==>
      Describe(req, runtime, highSpeed, strings, RegisteredSlots) ==
        Send(ReportDescriptor(Some(ControlReportDescriptor), |ControlReportDescriptor| as uint16),
             Min(req.wLength, |ControlReportDescriptor|))
  {
  }

  /** The control report descriptor declares the report IDs the key loop
      writes: ID 1 for the three system bits, ID 2 for the 16-bit consumer
      usage. */
  lemma ControlReportIds()
    ensures |ControlReportDescriptor| == 52
    ensures ControlReportDescriptor[6] == 0x85 && ControlReportDescriptor[7] == 1
    ensures ControlReportDescriptor[8] == 0x19 && ControlReportDescriptor[9] == 0x81
    ensures ControlReportDescriptor[10] == 0x29 && ControlReportDescriptor[11] == 0x83
    ensures ControlReportDescriptor[33] == 0x85 && ControlReportDescriptor[34] == 2
    ensures ControlReportDescriptor[47] == 0x75 && ControlReportDescriptor[48] == 0x10
  {
    var s, c := SystemControlCollection, ConsumerControlCollection;
    assert s[6] == 0x85 && s[7] == 1 && s[8] == 0x19 && s[9] == 0x81 && s[10] == 0x29 && s[11] == 0x83;
    assert c[6] == 0x85 && c[7] == 2 && c[20] == 0x75 && c[21] == 0x10;
  }

  /** GET_DESCRIPTOR(STRING, n) as written: the six strings as the
      corrected handler sends them, then index 6 answered OK with length 0
      from the DFU interface name's start, and every index past it
      refused. */
  lemma StringDescriptorsAsWritten(req: SetupPacket, runtime: bool, highSpeed: bool,
                                   slots: seq<Slot>, beyond: uint16)
    requires |slots| == Slots && Hi(req.wValue) == DescriptorString
    ensures DescribeAsWritten(req, runtime, highSpeed, SourceBytes(), slots, beyond) ==
      if Lo(req.wValue) == 6 then Send(StringAt(116), 0)
      else Describe(req, runtime, highSpeed, SourceBytes(), slots)
  {
    SourceStringsAsWritten(Lo(req.wValue));
  }

  /** As written, GET_DESCRIPTOR(REPORT) for interface 2 (wIndex 2, the DFU
      interface) reads the registry past its two slots, where the corrected
      handler refuses. */
  lemma ReportPastRegistryAsWritten(runtime: bool, highSpeed: bool, strings: seq<uint8>,
                                    slots: seq<Slot>, beyond: uint16)
    requires |strings| == 0x100 && |slots| == Slots
    ensures var req := SetupPacket(0x81, 6, 0x2200, 2, 0xFF);
      DescribeAsWritten(req, runtime, highSpeed, strings, slots, beyond) ==
        Send(PastRegistry(2, beyond), Min(0xFF, beyond)) &&
      Describe(req, runtime, highSpeed, strings, slots) == Refused
  {
    var req := SetupPacket(0x81, 6, 0x2200, 2, 0xFF);
    assert Hi(req.wValue) == DescriptorReport && InterfaceOf(req) == 2;
  }
}
