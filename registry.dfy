/** The two-slot report registry of usb_keyboard.c (and keyboard.c): per HID
    interface, the report descriptor and its length, the protocol, whether
    reporting is enabled, and the idle rate. Slot 0 is the boot keyboard
    interface, slot 1 the system/consumer control interface. */
module HidRegistry {
  import opened Ints

  /** The number of HID interfaces the registry holds. */
  const Slots: nat := 2

  /** One interface's entry; a null descriptor pointer is None. */
  datatype Slot = Slot(descriptor: Option<seq<uint8>>, descriptorLen: uint16,
                       protocol: uint8, enabled: bool, idle: uint8)

  const EmptySlot := Slot(None, 0, 0, false, 0)

  /** The five static arrays, each of two entries. */
  class Registry {
    const descriptor: array<Option<seq<uint8>>>
    const descriptorLen: array<uint16>
    const protocol: array<uint8>
    const enable: array<bool>
    const idle: array<uint8>

    ghost predicate Valid()
      reads this
    {
      descriptor.Length == Slots && descriptorLen.Length == Slots &&
      protocol.Length == Slots && enable.Length == Slots && idle.Length == Slots &&
      protocol != idle
    }

    /** Entry i of every array. */
    function SlotAt(i: nat): Slot
      requires Valid() && i < Slots
      reads this, descriptor, descriptorLen, protocol, enable, idle
    {
      Slot(descriptor[i], descriptorLen[i], protocol[i], enable[i], idle[i])
    }

    /** The registry as a value, one slot per interface. */
    function Contents(): (r: seq<Slot>)
      requires Valid()
      reads this, descriptor, descriptorLen, protocol, enable, idle
      ensures |r| == Slots && forall i :: 0 <= i < Slots ==> r[i] == SlotAt(i)
    {
      [SlotAt(0), SlotAt(1)]
    }

    /** All arrays start zeroed. */
    constructor()
      ensures Valid() && Contents() == [EmptySlot, EmptySlot]
      ensures fresh(descriptor) && fresh(descriptorLen) && fresh(protocol) && fresh(enable) && fresh(idle)
    {
      descriptor := new Option<seq<uint8>>[Slots](_ => None);
      descriptorLen := new uint16[Slots](_ => 0);
      protocol := new uint8[Slots](_ => 0);
      enable := new bool[Slots](_ => false);
      idle := new uint8[Slots](_ => 0);
    }

    /** keyboard_get_report_descriptor: the pointer and length of a slot. */
    method GetReportDescriptor(interface: nat) returns (d: Option<seq<uint8>>, len: uint16)
      requires Valid() && interface < Slots
      ensures d == Contents()[interface].descriptor && len == Contents()[interface].descriptorLen
    {
      d, len := descriptor[interface], descriptorLen[interface];
    }

    /** keyboard_set_report_descriptor: store a slot's pointer and length. */
    method SetReportDescriptor(interface: nat, d: Option<seq<uint8>>, len: uint16)
      requires Valid() && interface < Slots
      modifies descriptor, descriptorLen
      ensures Valid()
      ensures Contents() == old(Contents())[interface := old(Contents())[interface].(descriptor := d, descriptorLen := len)]
    {
      descriptor[interface] := d;
      descriptorLen[interface] := len;
    }

    /** keyboard_req_set_idle: a SET_IDLE request both records the idle rate
        and switches reporting on for the interface. */
    method SetIdle(interface: nat, rate: uint8)
      requires Valid() && interface < Slots
      modifies enable, idle
      ensures Valid()
      ensures Contents() == old(Contents())[interface := old(Contents())[interface].(enabled := true, idle := rate)]
    {
      enable[interface] := true;
      idle[interface] := rate;
    }

    /** The keyboard.c form of keyboard_req_set_idle, which decodes the
        request itself: the rate is the high byte of wValue (section 7.2.4 of
        the HID 1.11 specification). */
    method SetIdleFromRequest(interface: nat, wValue: uint16)
      requires Valid() && interface < Slots
      modifies enable, idle
      ensures Valid()
      ensures Contents() == old(Contents())[interface := old(Contents())[interface].(enabled := true, idle := Hi(wValue))]
    {
      SetIdle(interface, Hi(wValue));
    }

    /** keyboard_req_get_idle. */
    method GetIdle(interface: nat) returns (rate: uint8)
      requires Valid() && interface < Slots
      ensures rate == Contents()[interface].idle
    {
      rate := idle[interface];
    }

    /** keyboard_req_set_protocol. */
    method SetProtocol(interface: nat, p: uint8)
      requires Valid() && interface < Slots
      modifies protocol
      ensures Valid()
      ensures Contents() == old(Contents())[interface := old(Contents())[interface].(protocol := p)]
    {
      protocol[interface] := p;
    }

    /** The keyboard.c form of keyboard_req_set_protocol: the protocol is the
        low byte of wValue (section 7.2.6 of the HID 1.11 specification). */
    method SetProtocolFromRequest(interface: nat, wValue: uint16)
      requires Valid() && interface < Slots
      modifies protocol
      ensures Valid()
      ensures Contents() == old(Contents())[interface := old(Contents())[interface].(protocol := Lo(wValue))]
    {
      SetProtocol(interface, Lo(wValue));
    }

    /** keyboard_req_get_protocol. */
    method GetProtocol(interface: nat) returns (p: uint8)
      requires Valid() && interface < Slots
      ensures p == Contents()[interface].protocol
    {
      p := protocol[interface];
    }

    /** keyboard_report_enabled. */
    method ReportEnabled(interface: nat) returns (on: bool)
      requires Valid() && interface < Slots
      ensures on == Contents()[interface].enabled
    {
      on := enable[interface];
    }

    /** keyboard_report_enable. */
    method ReportEnable(interface: nat, on: bool)
      requires Valid() && interface < Slots
      modifies enable
      ensures Valid()
      ensures Contents() == old(Contents())[interface := old(Contents())[interface].(enabled := on)]
    {
      enable[interface] := on;
    }
  }
}
