# FT900 HID touch-panel keyboard — a Dafny model

This project models the firmware of an FT900 USB HID device whose keys are
drawn on an EVE touch display. Each poll of the main loop asks the display for
the touched key tag. The tag is looked up in a constant tag map, and the
result fills one of two USB input reports:

- the boot keyboard report (modifier bits and a key code), or
- the control report: report ID 1 carries three System Control bits (power
  down, sleep, wake up), report ID 2 one 16-bit Consumer usage.

The kind of the last key pressed is remembered, so the next poll without a key
sends that kind's key-up once. Around this state machine sit:

- the two-slot report registry (report descriptor, idle rate, protocol,
  enable) that HID class requests write and the poll loop reads;
- the GET_DESCRIPTOR handler with its string-table walk and length clamps;
- the interface and class request callbacks, the bus-reset callback, and the
  routing of each report kind to its IN endpoint;
- from the display library: font header lookup and text width, the font
  table that font loading fills, the touch-calibration record kept once in a
  256-byte flash sector, and the loops that feed program memory to the EVE in
  512-byte chunks.

Modules:

- `Ints` (ints.dfy): C integer widths, bytes of a word, 32-bit wrapping add.
- `TagMap` (tagmap.dfy): the tag map and its first-match scan.
- `UsbKeyboard` (keyboard_loop.dfy): the poll state machine, as the
  `KeyReporter` class and the `Step` function that specifies it.
- `HidRegistry` (registry.dfy): the five two-entry arrays.
- `UsbRequests` (usb_requests.dfy): the SETUP packet and request codes.
- `StringTable` (string_table.dfy): the string descriptor table and its walk.
- `Descriptors` (descriptors.dfy): GET_DESCRIPTOR and the report descriptors.
- `HidDevice` (hid_device.dfy): interface and class requests, reset, and the
  configured pass of the poll loop.
- `Fonts` (font.dfy): font headers, widths and the font table.
- `Ft9xx` (ft9xx.dfy): the calibration sector and the chunked copies.

Foreign calls become parameters:

- The display's `eve_keyboard_loop` becomes `ready` (it returned 0) and the
  `KeyScan` it leaves.
- The bus speed and the DFU runtime/DFU-mode state become booleans.
- `malloc_ram_g` becomes the offset it returned.
- Reads of RAM_G become a function from address to header.
- Program memory becomes a function from address to byte.
- Writes to the EVE become the returned list of blocks.

The numeric TAG_x and KEY_x codes are defined in a display header that is not
part of this model. Tags are therefore an enumerated datatype, and the usage
codes are a parameter `usage: Tag -> uint16` of the table. Proofs about the
source table hold for every such assignment with no zero code.

`Sources/keyboard.c` repeats `tagmap` and `keyboard_loop` of
`Sources/usb_keyboard.c` under other kind names, so both are modelled once.
Its registry functions that decode `wValue` themselves are the
`...FromRequest` methods.

## Model

| member | source | states |
|---|---|---|
| TagMap.FirstMatch | Sources/usb_keyboard.c:272-280 | The scan stops at an entry whose tag equals the scanned tag, and no earlier entry matches; it finds nothing exactly when no entry matches. |
| TagMap.ScanTagMap | Sources/usb_keyboard.c:272-280 | The `for`/`break` loop takes the kind and scancode of the first matching entry. Without a match it keeps the previous kind and leaves the scancode 0. |
| TagMap.SourceTagMap | Sources/keyboard.c:76-135 | The table holds every plain key, then the three system keys, then the consumer keys; each row carries the kind of its group and the tag's usage code. |
| TagMap.TagListed | Sources/usb_keyboard.c:76-135 | Every tag of the display keyboard has a row in the table. |
| TagMap.LookupSourceTagMap | Sources/usb_keyboard.c:76-135 | Looking up any tag finds its own usage code with the kind of its group: keyboard, system control or consumer control. |
| TagMap.LookupNoTag | Sources/usb_keyboard.c:274 | No row matches when no key is touched. |
| UsbKeyboard.KeyReporter.constructor | Sources/usb_keyboard.c:141-142 | The remembered kind starts as none (usb_keyboard.c:261), with no key scanned and all LEDs off. |
| UsbKeyboard.KeyReporter.Loop | Sources/usb_keyboard.c:257-371 | One call leaves exactly the state and return value of `Step`, and keeps the kind and report ID in agreement. |
| UsbKeyboard.KeyReporter.SetReport | Sources/usb_keyboard.c:218-228 | The host's LEDs reach the display, which leaves a new key scan; the remembered kind is kept. |
| UsbKeyboard.ScanFindsTag | Sources/usb_keyboard.c:272-280 | With the source table, the scan of a touched tag yields the tag's group kind and usage code. |
| UsbKeyboard.PressSendsKey | Sources/usb_keyboard.c:282-327 | A key-down returns the key's kind and fills only that kind's buffer. Keyboard: the latched modifiers and the code's low byte. System: ID 1 and the key's bit. Consumer: ID 2 and bytes whose value is the code. |
| UsbKeyboard.SystemKeySetsItsBit | Sources/usb_keyboard.c:299-316 | When the three system codes differ, each sets exactly its own bit: power down 1, sleep 2, wake 4. |
| UsbKeyboard.ReleaseSendsKeyUp | Sources/usb_keyboard.c:329-368 | An unmatched tag returns the remembered kind and forgets it. Keyboard: zero report, modifiers unlatched. System: only the system byte cleared. Consumer: ID 2 with zero usage. None: nothing written. |
| UsbKeyboard.NotReadySendsNothing | Sources/usb_keyboard.c:266-270 | Without a display event nothing is returned, no buffer is written and the remembered kind is kept. |
| UsbKeyboard.HeldKeyRepeats | Sources/keyboard.c:282-328 | Polling again with the same key leaves every buffer identical and returns the same kind. |
| UsbKeyboard.UnknownKindSendsNothing | Sources/keyboard.c:323-327 | An entry of no known kind resets the remembered kind to none, returns none and writes no buffer. |
| UsbKeyboard.PressThenRelease | Sources/usb_keyboard.c:282-368 | Press, release, release returns the key's kind, the same kind once more, then none. |
| UsbKeyboard.SwitchKeepsKeyboardKey | Sources/keyboard.c:274-327 | Going from a keyboard key straight to a consumer key sends no keyboard key-up; the keyboard buffer keeps the old key even after the consumer release. |
| UsbKeyboard.StepKeepsReportIds | Sources/usb_keyboard.c:299-322 | For any table, the remembered kind and the control report ID stay in agreement. With no zero code in the table, every system report is also sent with ID 1 and every consumer report with ID 2. |
| HidRegistry.Registry.constructor | Sources/usb_keyboard.c:148-172 | Both slots start with no descriptor, length 0, protocol 0, disabled, idle 0. |
| HidRegistry.Registry.GetReportDescriptor | Sources/usb_keyboard.c:181-186 | Returns the slot's descriptor and length. |
| HidRegistry.Registry.SetReportDescriptor | Sources/usb_keyboard.c:240-244 | Stores a descriptor and length in the named slot only. |
| HidRegistry.Registry.SetIdle | Sources/usb_keyboard.c:188-193 | Enables the named slot and stores the idle byte; the other slot is unchanged. |
| HidRegistry.Registry.SetIdleFromRequest | Sources/keyboard.c:188-193 | Stores the high byte of wValue, the duration of section 7.2.4 of HID 1.11, and enables the slot. |
| HidRegistry.Registry.GetIdle | Sources/usb_keyboard.c:195-199 | Returns the last stored idle byte. |
| HidRegistry.Registry.SetProtocol | Sources/usb_keyboard.c:201-205 | Stores the protocol in the named slot only. |
| HidRegistry.Registry.SetProtocolFromRequest | Sources/keyboard.c:201-205 | Stores the low byte of wValue, the protocol of section 7.2.6 of HID 1.11. |
| HidRegistry.Registry.GetProtocol | Sources/usb_keyboard.c:207-211 | Returns the last stored protocol. |
| HidRegistry.Registry.ReportEnabled | Sources/usb_keyboard.c:230-233 | Returns the slot's enable flag. |
| HidRegistry.Registry.ReportEnable | Sources/usb_keyboard.c:235-238 | Overwrites only the named slot's enable flag. |
| StringTable.UnicodeLen | Sources/main.c:339 | The low byte is the descriptor length 2n+2 and the high byte the STRING type 3. |
| StringTable.Utf16Descriptor | Sources/main.c:341-356 | A string of n characters becomes n+1 words whose first word's low byte is the length in bytes, 2(n+1). |
| StringTable.Walk | Sources/main.c:1354-1367 | A walk that stops on a nonzero length byte has no strings left to skip, and it stopped at the string it points at. |
| StringTable.FindString | Sources/main.c:1354-1367 | The `while` loop over a 256-byte table with a wrapping byte index ends where `Walk` ends. |
| StringTable.StringLookup | Sources/main.c:1354-1378 | A found string has a nonzero length and starts with that length byte (the corrected check). |
| StringTable.WalkChain | Sources/main.c:1354-1367 | Over any table whose length bytes chain string to string, the walk for index k stops at the k-th start, or at the end marker once the strings run out. |
| StringTable.StringLookupChained | Sources/main.c:1354-1378 | In a chained table, index n finds the n-th string, at the sum of the earlier lengths, for n below the count; every other index is not found. |
| StringTable.StringLookupAsWrittenOnePast | Sources/main.c:1368-1378 | As written, the index equal to the count is accepted with length 0 and the last string's start. |
| StringTable.SourceStrings | Sources/main.c:341-356 | The table holds the language list and the manufacturer, product, serial, DFU product and DFU interface strings, at offsets 0, 4, 14, 68, 86, 116. Their lengths are 4, 10, 54, 18, 30, 28. Index 6 and above are not found. |
| StringTable.SourceStringSixAsWritten | Sources/main.c:1355-1378 | As written, string index 6 is answered OK with length 0. |
| StringTable.StringLookupAsWrittenDiffers | Sources/main.c:1368-1378 | The check as written and the corrected check agree on every found string; they differ only where the code answers OK with length 0. |
| StringTable.SourceStringsAsWritten | Sources/main.c:1354-1378 | As written over the source table, indexes 0-5 are found as by the corrected check, index 6 is answered with offset 116 and length 0, and 7 and above are not found. |
| Descriptors.Describe | Sources/main.c:1264-1398 | The corrected handler. A reply never exceeds wLength, and is min(wLength, size) for every selected descriptor. Only OTHER_SPEED in DFU mode answers with no buffer and the full wLength. A request is refused exactly for an unknown type, a missing string or a report interface outside the registry. |
| Descriptors.DescribeAsWritten | Sources/main.c:1264-1398 | The handler as written. A reply never exceeds wLength. STRING is refused only when strings were left to skip, and otherwise answers min(wLength, the length byte the walk stopped on). REPORT for an interface past the registry answers with what lies past its arrays. |
| Descriptors.DescribeRefinesAsWritten | Sources/main.c:1342-1388 | The corrected handler answers as the code does, except a string answered with length 0 and a report descriptor read past the registry, both of which it refuses. |
| Descriptors.GetDescriptor | Sources/main.c:1264-1398 | The loop-based corrected handler over the string table and the registry answers as `Describe`. |
| Descriptors.StringDescriptors | Sources/main.c:1342-1380 | Corrected: GET_DESCRIPTOR(STRING, n) returns each of the six strings cut to wLength, and refuses every other index. |
| Descriptors.RegisteredReportDescriptors | Sources/main.c:1382-1388 | After set-up, interface 0 gets the 65-byte keyboard descriptor and interface 1 the 52-byte control descriptor, cut to wLength. |
| Descriptors.StringDescriptorsAsWritten | Sources/main.c:1342-1380 | As written: the six strings as the corrected handler sends them, index 6 answered OK from offset 116 with length 0, later indexes refused. |
| Descriptors.ReportPastRegistryAsWritten | Sources/main.c:1382-1388 | As written, GET_DESCRIPTOR(REPORT) with wIndex 2 reads the registry past its two slots; the corrected handler refuses it. |
| Descriptors.ControlReportIds | Sources/main.c:317-323 | The control descriptor declares report ID 1 over usages 0x81-0x83 and report ID 2 with a 16-bit field, the IDs the key loop writes. |
| HidDevice.SetInterface | Sources/main.c:968-982 | OK exactly for interface 0 with alternate setting 0; otherwise NOT_SUPPORTED. |
| HidDevice.GetInterface | Sources/main.c:984-997 | Answers alternate setting 0 exactly for interface 0. |
| HidDevice.InterfaceSettingsAgree | Sources/main.c:968-997 | The setting GET_INTERFACE reports is the one SET_INTERFACE accepts. |
| HidDevice.ClassRoute | Sources/main.c:1202-1242 | In runtime mode an interface request reaches the HID handler exactly when its interface is not 2, the DFU interface; endpoint requests reach the endpoint handler. |
| HidDevice.HidActionAsWritten | Sources/main.c:999-1085 | As written, only SET_REPORT to an interface other than 0 fails, with INVALID_PARAMETER. SET_IDLE and SET_PROTOCOL both store the high byte of wValue. |
| HidDevice.HidAction | Sources/main.c:999-1085 | Corrected: every registry access is to an existing slot, and registry requests for other interfaces are refused. SET_PROTOCOL stores the low byte. |
| HidDevice.Registered | Sources/usb_keyboard.c:188-205 | SET_IDLE and SET_PROTOCOL change only their own slot; other requests change no slot. |
| HidDevice.Answer | Sources/main.c:1023-1050 | Only GET_IDLE and GET_PROTOCOL send a data byte. |
| HidDevice.HidActionRefinesAsWritten | Sources/main.c:1014-1084 | For interfaces 0 and 1 the corrected handler does what the code does, except for the protocol byte. |
| HidDevice.SetIdleThenGetIdle | Sources/usb_keyboard.c:188-199 | GET_IDLE after SET_IDLE on the same interface returns the duration sent, and the interface is enabled. |
| HidDevice.SetProtocolThenGetProtocol | Sources/keyboard.c:201-211 | GET_PROTOCOL after SET_PROTOCOL returns the protocol sent. |
| HidDevice.SetProtocolAsWrittenStoresHighByte | Sources/main.c:1033-1040 | As written, SET_PROTOCOL(report protocol 1) stores 0, so GET_PROTOCOL answers 0; corrected it answers 1. |
| HidDevice.InterfaceEscapesRegistry | Sources/main.c:1003 | As written, SET_IDLE to interface 3 reaches the HID handler and indexes slot 3, and GET_DESCRIPTOR(REPORT) for interface 2 indexes slot 2; the corrected handlers refuse both. |
| HidDevice.RouteReport | Sources/main.c:1603-1620 | A keyboard report goes to the keyboard endpoint only while interface 0 is enabled. System and consumer reports go to the control endpoint only while interface 1 is enabled. None sends nothing. |
| HidDevice.Device.constructor | Sources/main.c:1530-1534 | Set-up stores the keyboard and control report descriptors in slots 0 and 1. |
| HidDevice.Device.ResetCb | Sources/main.c:1501-1521 | A bus reset disables both interfaces and changes nothing else. |
| HidDevice.Device.Restart | Sources/main.c:1632-1634 | Reconnecting sets `not_connected` again. |
| HidDevice.Device.ConfiguredPass | Sources/main.c:1590-1621 | The first pass enables interface 1 only and sends nothing. Later passes run `Step` and route its report. A keyboard report is sent only after a SET_IDLE to interface 0 since the last reset. |
| HidDevice.Device.HidClassRequest | Sources/main.c:999-1085 | The corrected handler returns the status, reply byte and registry of `HidAction`; SET_REPORT passes the host's LEDs to the display. |
| Fonts.HeaderSourceOf | lib/eve_ui/source/eve_ui_load_font.c:58-81 | Lookup fails exactly for handles 32 and up, and for handles below 16 with no loaded font. A loaded font wins. Other handles 16-31 read the ROM table at font_root + (handle-16)*148, modulo 2^32. |
| Fonts.FontHeaderOf | lib/eve_ui/source/eve_ui_load_font.c:58-81 | A header is produced exactly when the lookup has a source. |
| Fonts.HeaderStatus | lib/eve_ui/source/eve_ui_load_font.c:68-80 | Status 0 exactly on success, otherwise 255. |
| Fonts.FontSize | lib/eve_ui/source/eve_ui_load_font.c:83-94 | On success, the width and height cut to 16 bits; on failure the caller's values are unchanged and 255 is returned. |
| Fonts.CharWidth | lib/eve_ui/source/eve_ui_load_font.c:96-106 | The character's width on success, 0 on failure. |
| Fonts.TextLength | lib/eve_ui/source/eve_ui_load_font.c:116 | The loop stops at the first NUL. |
| Fonts.WidthSumAppend | lib/eve_ui/source/eve_ui_load_font.c:116-123 | The width of a concatenation is the sum of the widths. |
| Fonts.HighCharacterAddsNothing | lib/eve_ui/source/eve_ui_load_font.c:118-121 | Characters 128 and up add nothing. |
| Fonts.TextWidthIsSumModulo256 | lib/eve_ui/source/eve_ui_load_font.c:112-125 | The 16-bit sum cut to a byte is the exact sum modulo 256. |
| Fonts.StringWidthLoop | lib/eve_ui/source/eve_ui_load_font.c:114-125 | The pointer walk with a 16-bit accumulator returns the text's width as a byte. |
| Fonts.StringWidth | lib/eve_ui/source/eve_ui_load_font.c:108-126 | The exact width of the text before the NUL modulo 256, or 0 when the header lookup fails. |
| Fonts.Registered | lib/eve_ui/source/eve_ui_load_font.c:133-138 | Loading records a font only for a nonzero offset and a handle below 32; other handles are untouched. |
| Fonts.LoadedFontIsFound | lib/eve_ui/source/eve_ui_load_font.c:58-69 | After a successful load, the handle's lookup returns the loaded header, whatever the ROM holds. |
| Fonts.BitmapSource | lib/eve_ui/source/eve_ui_load_font.c:146-147 | The bitmap source plus one glyph is the address after the header, modulo 2^32. |
| Fonts.FontTable.constructor | lib/eve_ui/source/eve_ui_load_font.c:56 | All 32 pointers start null. |
| Fonts.FontTable.LoadFontx | lib/eve_ui/source/eve_ui_load_font.c:128-171 | Returns the offset in every case and updates the table as `Registered`. |
| Ft9xx.Image | lib/eve_ui/eve_ui_arch_ft9xx/eve_ui_ft9xx.c:122-128 | The programmed sector holds the key, then the transform, then erased words. |
| Ft9xx.InitStatus | lib/eve_ui/eve_ui_arch_ft9xx/eve_ui_ft9xx.c:91-106 | -1 exactly when the key is neither valid nor erased and the sector is not 256-byte aligned; otherwise 0. |
| Ft9xx.Write | lib/eve_ui/eve_ui_arch_ft9xx/eve_ui_ft9xx.c:108-135 | Succeeds exactly on an erased key, setting the caller's key to the valid key and programming its image. Otherwise returns -1 and changes nothing. |
| Ft9xx.Read | lib/eve_ui/eve_ui_arch_ft9xx/eve_ui_ft9xx.c:137-157 | Succeeds exactly on a valid key and copies the record out; otherwise returns -2 and leaves the caller's record. |
| Ft9xx.WriteThenRead | lib/eve_ui/eve_ui_arch_ft9xx/eve_ui_ft9xx.c:108-157 | A record written to an erased sector reads back with the valid key and the same transform. |
| Ft9xx.WriteOnce | lib/eve_ui/eve_ui_arch_ft9xx/eve_ui_ft9xx.c:119-134 | After a successful write every later write fails and changes nothing, and init reports 0. |
| Ft9xx.CalibSector.constructor | lib/eve_ui/eve_ui_arch_ft9xx/eve_ui_ft9xx.c:81 | The sector starts erased. |
| Ft9xx.CalibSector.CalibInit | lib/eve_ui/eve_ui_arch_ft9xx/eve_ui_ft9xx.c:91-106 | Returns `InitStatus` of the sector. |
| Ft9xx.CalibSector.CalibWrite | lib/eve_ui/eve_ui_arch_ft9xx/eve_ui_ft9xx.c:108-135 | Status, sector and caller's record are those of `Write`. |
| Ft9xx.CalibSector.CalibRead | lib/eve_ui/eve_ui_arch_ft9xx/eve_ui_ft9xx.c:137-157 | Status and caller's record are those of `Read`. |
| Ft9xx.Chunks | lib/eve_ui/eve_ui_arch_ft9xx/eve_ui_ft9xx.c:166-181 | A copy of n bytes makes ceil(n/512) chunks of 1 to 512 bytes each. |
| Ft9xx.ChunksCoverWindow | lib/eve_ui/eve_ui_arch_ft9xx/eve_ui_ft9xx.c:166-181 | The chunks put together are exactly the bytes to copy. |
| Ft9xx.ChunksAreFull | lib/eve_ui/eve_ui_arch_ft9xx/eve_ui_ft9xx.c:170-177 | Every chunk but the last is 512 bytes. |
| Ft9xx.ChunkAt | lib/eve_ui/eve_ui_arch_ft9xx/eve_ui_ft9xx.c:170-180 | Chunk k is the min(512, length - 512k) bytes 512k in. |
| Ft9xx.ChunksPointwise | lib/eve_ui/eve_ui_arch_ft9xx/eve_ui_ft9xx.c:166-181 | Blocks that are chunk by chunk the copy's chunks, and as many, are its chunk list. |
| Ft9xx.WriteCmdFromPm | lib/eve_ui/eve_ui_arch_ft9xx/eve_ui_ft9xx.c:160-182 | The command FIFO receives exactly the chunks in order. Read k fetches a full 512 bytes from 512k bytes into the image, even for the last partial chunk, and each chunk is the head of its read. The reads span at least the length and less than one chunk more. |
| Ft9xx.WriteRamFromPm | lib/eve_ui/eve_ui_arch_ft9xx/eve_ui_ft9xx.c:184-207 | Chunk k is written to RAM_G at dest + 512k, modulo 2^32. Read k fetches a full 512 bytes from 512k bytes into the image, and each chunk is the head of its read. |
| Ft9xx.ConcatReads | lib/eve_ui/eve_ui_arch_ft9xx/eve_ui_ft9xx.c:168-181 | Back-to-back full reads are the program memory from the image on, 512 bytes per read. |
| Ft9xx.ReadsOvershoot | lib/eve_ui/eve_ui_arch_ft9xx/eve_ui_ft9xx.c:168-181 | The copy's reads begin with exactly the bytes copied and end less than a chunk past them, and past the data whenever the length is not a multiple of 512. |

## Left out

- USB stack calls (`USBD_*`), endpoint creation, attach/connect and the forever loops: they are library I/O. One pass of the configured branch is modelled; the bus state and speed are inputs.
- The DFU request handlers, suspend/resume callbacks, the WCID vendor request (compiled out) and `main`: outside the HID core.
- The concurrency between the USB interrupt handlers and the poll loop: requests and passes are modelled as separate sequential calls.
- Descriptor contents other than the string table, the two report descriptors and the sizes 18, 59, 27 and 10. The configuration buffer is a `Source` value naming its layout and type byte, not bytes.
- `keyboard_msg_state`: it is written by SET_REPORT but never read.
- `keyboard_req_get_report`, `keyboard_timer` and `class_req_endpoint_hid_1`: empty.
- The bitfield layout of the report structs: the modifier bits are a datatype, and the control report is three bytes (ID, then the system byte or consumer low byte, then the consumer high byte).
- The EVE co-processor command list of `eve_ui_load_fontx`, and the copy of the font into RAM_G: foreign writes.
- UsbKeyboard.StepKeepsReportIds: that a sent control report carries the ID of its kind is proved only for tables with no zero scancode. That holds for the source table when every KEY_x code is nonzero. A row with scancode 0 would send its own kind's key-up under the remembered kind's ID.
- Descriptors.GetDescriptor, Descriptors.Describe, Descriptors.StringDescriptors: these are the corrected handler, which refuses string index 6 and report interfaces past the registry; the code as written is `Descriptors.DescribeAsWritten`, which is specified as a function only.
- Fonts.CharWidth: requires a character below 128. The code indexes FontWidth[128] with any `char`, which reads outside the array.
- Fonts.StringWidth: characters are unsigned bytes. With a signed `char`, bytes 128 and up would pass the `< 128` test and index before the width array.
- Ft9xx: struct touchscreen_calibration is declared in a header that is not part of this model. It is taken to be the key and six 32-bit transform words, and the sector is modelled as 64 words rather than 256 bytes.
- Ft9xx.CalibSector.CalibInit: the alignment of `dlog_pm` is an input; the declaration aligns it to 256, so -1 cannot occur in the build as declared.
- Ft9xx.WriteCmdFromPm and Ft9xx.WriteRamFromPm: `length` is at most 2^32 - 1 and program memory is a total function, so reads past the image return whatever the memory holds.

## Findings

| source | as written | input that shows it | evidently intended | confidence | as-written member | corrected member |
|---|---|---|---|---|---|---|
| Sources/main.c:1355-1378 | The string walk exits on the end marker with no strings left to skip; only `lValue > 0` counts as not found, so the index equal to the count is answered OK with length 0. | GET_DESCRIPTOR(STRING, index 6) | NOT_SUPPORTED for every index past the last string | high, not executed | Descriptors.StringDescriptorsAsWritten | Descriptors.StringDescriptors |
| Sources/main.c:1033-1034 | SET_PROTOCOL passes `wValue >> 8` to the registry, but section 7.2.6 of HID 1.11 puts the protocol in the low byte, as keyboard.c:203 reads it. | SET_PROTOCOL with wValue 1 (report protocol) on interface 0 stores 0 | store the low byte of wValue | high, not executed | HidDevice.SetProtocolAsWrittenStoresHighByte | HidDevice.SetProtocolThenGetProtocol |
| Sources/main.c:1003 | The interface of a class request is `LSB(wIndex) & 0x0F`, up to 15, and indexes the two-entry registry arrays unchecked. | SET_IDLE with wIndex 3 | refuse interfaces the registry does not hold | medium, not executed | HidDevice.InterfaceEscapesRegistry | HidDevice.HidAction |
| Sources/main.c:1382-1388 | GET_DESCRIPTOR(REPORT) passes the interface `LSB(wIndex) & 0x0F` (main.c:1271) to the registry unchecked, which reads past its two-entry arrays. | GET_DESCRIPTOR(REPORT) with wIndex 2 | refuse interfaces the registry does not hold | medium, not executed | Descriptors.ReportPastRegistryAsWritten | Descriptors.Describe |
