/** The SETUP packet of a USB control transfer and the request and descriptor
    codes the device answers (section 9.3 and table 9-5 of the USB 2.0
    specification; section 7 of the HID 1.11 specification). */
module UsbRequests {
  import opened Ints

  /** What a request callback returns to the USB stack. */
  datatype Status = Ok | NotSupported | InvalidParameter

  datatype SetupPacket = SetupPacket(bmRequestType: uint8, bRequest: uint8,
                                     wValue: uint16, wIndex: uint16, wLength: uint16)

  // Descriptor types (high byte of wValue in GET_DESCRIPTOR)
  const DescriptorDevice: uint8 := 1
  const DescriptorConfiguration: uint8 := 2
  const DescriptorString: uint8 := 3
  const DescriptorDeviceQualifier: uint8 := 6
  const DescriptorOtherSpeed: uint8 := 7
  const DescriptorReport: uint8 := 0x22

  // HID class request codes
  const HidGetReport: uint8 := 0x01
  const HidGetIdle: uint8 := 0x02
  const HidGetProtocol: uint8 := 0x03
  const HidSetReport: uint8 := 0x09
  const HidSetIdle: uint8 := 0x0A
  const HidSetProtocol: uint8 := 0x0B

  // Recipient field, the low five bits of bmRequestType
  const RecipientInterface: uint8 := 1
  const RecipientEndpoint: uint8 := 2

  function Recipient(req: SetupPacket): (r: uint8)
    ensures r < 0x20
  {
    req.bmRequestType % 0x20
  }

  /** `LSB(req->wIndex) & 0x0F`: the interface number as main.c reads it. */
  function InterfaceOf(req: SetupPacket): (r: nat)
    ensures r < 16
  {
    Lo(req.wIndex) % 16
  }
}
