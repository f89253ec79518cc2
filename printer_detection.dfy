/** USB inventory parsing and printer resolution: the `lsusb` and
    `system_profiler` readers, the five-entry catalog of supported printers,
    the derived CUPS queue name and device URI, and the `lpoptions -l`
    reader of the detector. */
module PrinterDetection {
  import opened Strings
  import opened Process
  import opened Utils

  // ---------------------------------------------------------------------------
  // Catalog and records

  /** One entry of the catalog of supported printers. */
  datatype CatalogEntry = CatalogEntry(name: string, model: string, vendor: string, ppd: string)

  /** The catalog, keyed by "<vendor id>:<product id>". */
  const SupportedPrinters: map<string, CatalogEntry> := map[
    "04a9:327b" := CatalogEntry("Canon SELPHY CP1300", "Canon SELPHY CP1300", "Canon", "raw"),
    "04a9:3302" := CatalogEntry("Canon SELPHY CP1500", "Canon SELPHY CP1500", "Canon", "raw"),
    "04a9:327a" := CatalogEntry("Canon SELPHY CP910", "Canon SELPHY CP910", "Canon", "raw"),
    "1343:0003" := CatalogEntry("DNP QW410", "DNP QW410", "DNP", "raw"),
    "1452:9201" := CatalogEntry("DNP Photo Printer", "DNP Photo Printer", "DNP", "raw")]

  /** A USB device as the inventory readers report it. `devicePath` is the
      device node the Linux reader checked; the macOS reader has none. */
  datatype UsbDevice = UsbDevice(
    bus: string, device: string, vendorId: string, productId: string,
    vendorProduct: string, description: string, devicePath: Option<string>)

  /** The printer descriptor. */
  datatype PrinterInfo = PrinterInfo(
    name: string, model: string, vendor: string, deviceUri: string, cupsName: string,
    ppdFile: string, usbDevice: string, vendorId: string, productId: string)

  /** The CUPS queue name: "prig_" and the lower-cased name with spaces made
      underscores. */
  function CupsName(name: string): string {
    "prig_" + Replace(Lower(name), ' ', "_")
  }

  /** The device URI: scheme "usb", the vendor, and the name with every space
      written "%20". */
  function DeviceUri(vendor: string, name: string): string {
    "usb://" + vendor + "/" + Replace(name, ' ', "%20")
  }

  /** The queue name is "prig_" followed by the name, character by character
      lower-cased with spaces made underscores; it contains no space. */
  lemma CupsNameShape(name: string)
    ensures StartsWith(CupsName(name), "prig_") && ' ' !in CupsName(name)
    ensures |CupsName(name)| == 5 + |name|
    ensures forall i :: 0 <= i < |name| ==>
              CupsName(name)[5 + i] == if name[i] == ' ' then '_' else LowerChar(name[i])
  {
    var low := Lower(name);
    ReplaceRemoves(low, ' ', "_");
    if |name| > 0 {
      ReplaceByCharAt(low, ' ', '_', 0);
    }
    forall i | 0 <= i < |name|
      ensures CupsName(name)[5 + i] == if name[i] == ' ' then '_' else LowerChar(name[i])
    {
      ReplaceByCharAt(low, ' ', '_', i);
    }
  }
  /** The queue name of the catalog's "Canon SELPHY CP1300". */
  lemma Cp1300QueueName(name: string)
    requires name == "Canon SELPHY CP1300"
    ensures CupsName(name) == "prig_canon_selphy_cp1300"
  {
    var want := "prig_canon_selphy_cp1300";
    CupsNameShape(name);
    var q := CupsName(name);
    assert q[..5] == want[..5];
    CupsNameAt(name, 0);
    CupsNameAt(name, 1);
    CupsNameAt(name, 2);
    CupsNameAt(name, 3);
    CupsNameAt(name, 4);
    CupsNameAt(name, 5);
    CupsNameAt(name, 6);
    CupsNameAt(name, 7);
    CupsNameAt(name, 8);
    CupsNameAt(name, 9);
    CupsNameAt(name, 10);
    CupsNameAt(name, 11);
    CupsNameAt(name, 12);
    CupsNameAt(name, 13);
    CupsNameAt(name, 14);
    CupsNameAt(name, 15);
    CupsNameAt(name, 16);
    CupsNameAt(name, 17);
    CupsNameAt(name, 18);
    assert forall k :: 0 <= k < 5 ==> q[k] == q[..5][k];
  }

  /** One character of the queue name. */
  lemma CupsNameAt(name: string, i: nat)
    requires i < |name|
    ensures |CupsName(name)| == 5 + |name|
    ensures CupsName(name)[5 + i] == if name[i] == ' ' then '_' else LowerChar(name[i])
  {
    CupsNameShape(name);
  }

  /** Undoes the "%20" escaping of the device URI. */
  function UnescapeSpaces(s: string): string {
    if s == [] then []
    else if StartsWith(s, "%20") then " " + UnescapeSpaces(s[3..])
    else [s[0]] + UnescapeSpaces(s[1..])
  }

  /** The name part of the device URI has no space, and reading its "%20"
      escapes back gives the name, as long as the name has no '%'. */
  lemma {:induction false} EscapeRoundTrip(name: string)
    requires '%' !in name
    ensures ' ' !in Replace(name, ' ', "%20")
    ensures UnescapeSpaces(Replace(name, ' ', "%20")) == name
  {
    ReplaceRemoves(name, ' ', "%20");
    if name != [] {
      EscapeRoundTrip(name[1..]);
      var e := Replace(name, ' ', "%20");
      if name[0] == ' ' {
        assert e == "%20" + Replace(name[1..], ' ', "%20");
        assert e[3..] == Replace(name[1..], ' ', "%20");
      } else {
        assert e == [name[0]] + Replace(name[1..], ' ', "%20");
        assert name[0] in name;
        assert e[0] != '%';
        assert e[1..] == Replace(name[1..], ' ', "%20");
      }
    }
  }

  /** `_create_printer_info`: the catalog lookup is total; an unknown key gives
      no descriptor and a known one a descriptor carrying the record's ids. */
  function CreatePrinterInfo(device: UsbDevice): (r: Option<PrinterInfo>)
    ensures r.None? <==> device.vendorProduct !in SupportedPrinters
    ensures r.Some? ==> r.value.vendorId == device.vendorId && r.value.productId == device.productId
    ensures r.Some? ==>
              var e := SupportedPrinters[device.vendorProduct];
              && r.value.name == e.name && r.value.model == e.model && r.value.vendor == e.vendor
              && r.value.ppdFile == e.ppd
              && r.value.cupsName == CupsName(e.name)
              && r.value.deviceUri == DeviceUri(e.vendor, e.name)
    ensures r.Some? ==> r.value.usbDevice == "Bus " + device.bus + " Device " + device.device
  {
    if device.vendorProduct !in SupportedPrinters then None
    else
      var e := SupportedPrinters[device.vendorProduct];
      Some(PrinterInfo(
        name := e.name, model := e.model, vendor := e.vendor,
        deviceUri := DeviceUri(e.vendor, e.name), cupsName := CupsName(e.name), ppdFile := e.ppd,
        usbDevice := "Bus " + device.bus + " Device " + device.device,
        vendorId := device.vendorId, productId := device.productId))
  }

  /** A device URI has no space when the vendor has none, and its name part
      reads back as the name when the name has no '%'. */
  lemma DeviceUriShape(vendor: string, name: string)
    requires ' ' !in vendor && '%' !in name
    ensures ' ' !in DeviceUri(vendor, name)
    ensures StartsWith(DeviceUri(vendor, name), "usb://" + vendor + "/")
    ensures UnescapeSpaces(DeviceUri(vendor, name)[7 + |vendor|..]) == name
  {
    EscapeRoundTrip(name);
    var prefix := "usb://" + vendor + "/";
    var e := Replace(name, ' ', "%20");
    assert DeviceUri(vendor, name) == prefix + e;
    assert (prefix + e)[|prefix|..] == e;
    assert ' ' !in prefix;
  }

  /** The catalog texts `DeviceUriShape` needs: a vendor without spaces and a
      name without '%'. */
  predicate CleanEntry(e: CatalogEntry) {
    ' ' !in e.vendor && '%' !in e.name
  }

  lemma CleanSelphyEntries()
    ensures CleanEntry(SupportedPrinters["04a9:327b"]) && CleanEntry(SupportedPrinters["04a9:3302"])
    ensures CleanEntry(SupportedPrinters["04a9:327a"])
  {
    assert SupportedPrinters["04a9:327b"] == CatalogEntry("Canon SELPHY CP1300", "Canon SELPHY CP1300", "Canon", "raw");
    assert SupportedPrinters["04a9:3302"] == CatalogEntry("Canon SELPHY CP1500", "Canon SELPHY CP1500", "Canon", "raw");
    assert SupportedPrinters["04a9:327a"] == CatalogEntry("Canon SELPHY CP910", "Canon SELPHY CP910", "Canon", "raw");
    assert ' ' !in "Canon";
    assert '%' !in "Canon SELPHY CP1300" && '%' !in "Canon SELPHY CP1500" && '%' !in "Canon SELPHY CP910";
  }

  lemma CleanDnpEntries()
    ensures CleanEntry(SupportedPrinters["1343:0003"]) && CleanEntry(SupportedPrinters["1452:9201"])
  {
    assert SupportedPrinters["1343:0003"] == CatalogEntry("DNP QW410", "DNP QW410", "DNP", "raw");
    assert SupportedPrinters["1452:9201"] == CatalogEntry("DNP Photo Printer", "DNP Photo Printer", "DNP", "raw");
    assert ' ' !in "DNP";
    assert '%' !in "DNP QW410" && '%' !in "DNP Photo Printer";
  }

  /** Every catalog vendor is free of spaces and every catalog name free of
      '%', so `DeviceUriShape` applies to every supported printer. */
  lemma CatalogTextsAreClean(key: string)
    requires key in SupportedPrinters
    ensures ' ' !in SupportedPrinters[key].vendor && '%' !in SupportedPrinters[key].name
  {
    assert key in {"04a9:327b", "04a9:3302", "04a9:327a", "1343:0003", "1452:9201"};
    CleanSelphyEntries();
    CleanDnpEntries();
    assert CleanEntry(SupportedPrinters[key]);
  }

  // ---------------------------------------------------------------------------
  // Linux: lsusb

  /** Number of leading ASCII digits of `s`. */
  function DigitCount(s: string): (k: nat)
    ensures k <= |s|
  {
    if s == [] || !IsDigit(s[0]) then 0 else 1 + DigitCount(s[1..])
  }

  /** Four lower-case hexadecimal digits: `[0-9a-f]{4}`. */
  predicate IsHex4(s: string) {
    |s| == 4 && IsLowerHex(s[0]) && IsLowerHex(s[1]) && IsLowerHex(s[2]) && IsLowerHex(s[3])
  }

  /** The groups of `Bus (\d+) Device (\d+): ID ([0-9a-f]{4}):([0-9a-f]{4}) (.+)`. */
  datatype LsusbMatch = LsusbMatch(
    bus: string, device: string, vendorId: string, productId: string, description: string)

  predicate WellFormedMatch(m: LsusbMatch) {
    && m.bus != [] && AllDigits(m.bus) && m.device != [] && AllDigits(m.device)
    && IsHex4(m.vendorId) && IsHex4(m.productId) && m.description != []
  }

  /** The text the pattern matches for the given groups. */
  function LsusbText(m: LsusbMatch): string {
    "Bus " + (m.bus + (" Device " + (m.device + (": ID " + IdsText(m)))))
  }

  function IdsText(m: LsusbMatch): string {
    m.vendorId + ":" + m.productId + " " + m.description
  }

  /** The pattern anchored at the start of `s`; `.+` runs to the end of the
      line. Each stage reads one field and hands the rest to the next. */
  function MatchLsusbAt(s: string): (r: Option<LsusbMatch>)
    ensures r.Some? ==> WellFormedMatch(r.value)
  {
    if StartsWith(s, "Bus ") then MatchBus(s[4..]) else None
  }

  function MatchBus(a: string): (r: Option<LsusbMatch>)
    ensures r.Some? ==> WellFormedMatch(r.value)
  {
    var n := DigitCount(a);
    if n == 0 || !StartsWith(a[n..], " Device ") then None
    else
      DigitsPrefix(a, n);
      MatchDevice(a[..n], a[n + 8..])
  }

  function MatchDevice(bus: string, c: string): (r: Option<LsusbMatch>)
    requires bus != [] && AllDigits(bus)
    ensures r.Some? ==> WellFormedMatch(r.value) && r.value.bus == bus
  {
    var n := DigitCount(c);
    if n == 0 || !StartsWith(c[n..], ": ID ") then None
    else
      DigitsPrefix(c, n);
      MatchIds(bus, c[..n], c[n + 5..])
  }

  function MatchIds(bus: string, device: string, e: string): (r: Option<LsusbMatch>)
    requires bus != [] && AllDigits(bus) && device != [] && AllDigits(device)
    ensures r.Some? ==> WellFormedMatch(r.value) && r.value.bus == bus && r.value.device == device
  {
    if |e| < 11 || !IsHex4(e[..4]) || e[4] != ':' || !IsHex4(e[5..9]) || e[9] != ' ' then None
    else Some(LsusbMatch(bus, device, e[..4], e[5..9], e[10..]))
  }

  lemma {:induction false} DigitsPrefix(s: string, n: nat)
    requires n == DigitCount(s)
    ensures AllDigits(s[..n])
  {
    if n > 0 {
      DigitsPrefix(s[1..], n - 1);
      assert s[..n] == [s[0]] + s[1..][..n - 1];
    }
  }

  lemma {:induction false} DigitCountOf(digits: string, rest: string)
    requires AllDigits(digits)
    requires rest == [] || !IsDigit(rest[0])
    ensures DigitCount(digits + rest) == |digits|
  {
    if digits != [] {
      assert (digits + rest)[1..] == digits[1..] + rest;
      DigitCountOf(digits[1..], rest);
    }
  }

  /** The pattern recognises exactly the lines it describes: matching the text
      of well-formed groups gives those groups back. */
  lemma LsusbRoundTrip(m: LsusbMatch)
    requires WellFormedMatch(m)
    ensures MatchLsusbAt(LsusbText(m)) == Some(m)
  {
    var c := m.device + (": ID " + IdsText(m));
    DeviceRoundTrip(m);
    var restA := " Device " + c;
    var a := m.bus + restA;
    DigitCountOf(m.bus, restA);
    assert a[..|m.bus|] == m.bus && a[|m.bus|..] == restA && a[|m.bus| + 8..] == c;
    assert MatchBus(a) == Some(m);
    assert LsusbText(m)[4..] == a;
  }

  /** The device stage of the round trip: the device number, ": ID " and the
      identifiers give the groups back. */
  lemma DeviceRoundTrip(m: LsusbMatch)
    requires WellFormedMatch(m)
    ensures MatchDevice(m.bus, m.device + (": ID " + IdsText(m))) == Some(m)
  {
    var e := IdsText(m);
    assert e[..4] == m.vendorId && e[4] == ':' && e[5..9] == m.productId && e[9] == ' ' && e[10..] == m.description;
    assert MatchIds(m.bus, m.device, e) == Some(m);
    var restC := ": ID " + e;
    var c := m.device + restC;
    DigitCountOf(m.device, restC);
    assert c[..|m.device|] == m.device && c[|m.device|..] == restC && c[|m.device| + 5..] == e;
  }


  /** `re.search` of the lsusb pattern: the match at the leftmost position. */
  function SearchLsusb(line: string, from: nat): (r: Option<LsusbMatch>)
    requires from <= |line|
    ensures r.Some? ==> WellFormedMatch(r.value)
    decreases |line| - from
  {
    var m := MatchLsusbAt(line[from..]);
    if m.Some? || from == |line| then m else SearchLsusb(line, from + 1)
  }

  /** The device node `/dev/bus/usb/BBB/DDD` of a match. */
  function DevicePath(m: LsusbMatch): string {
    "/dev/bus/usb/" + ZFill(m.bus, 3) + "/" + ZFill(m.device, 3)
  }

  function LsusbDevice(m: LsusbMatch): UsbDevice {
    UsbDevice(m.bus, m.device, m.vendorId, m.productId, m.vendorId + ":" + m.productId,
              m.description, Some(DevicePath(m)))
  }

  /** The records one line of lsusb output yields, given the existing device
      nodes: one if it matches and its node exists, none otherwise. */
  function LsusbLine(line: string, nodes: set<string>): seq<UsbDevice> {
    match SearchLsusb(line, 0)
    case None => []
    case Some(m) => if DevicePath(m) in nodes then [LsusbDevice(m)] else []
  }

  function LinuxDevices(lines: seq<string>, nodes: set<string>): seq<UsbDevice> {
    if lines == [] then []
    else LinuxDevices(lines[..|lines| - 1], nodes) + LsusbLine(lines[|lines| - 1], nodes)
  }

  /** `_get_linux_usb_devices` from the lsusb exit code and output; `nodes`
      are the device nodes that exist. */
  method GetLinuxUsbDevices(lsusb: CommandResult, nodes: set<string>) returns (devices: seq<UsbDevice>)
    ensures lsusb.exitCode != 0 ==> devices == []
    ensures lsusb.exitCode == 0 ==> devices == LinuxDevices(Lines(lsusb.stdout), nodes)
  {
    devices := [];
    if lsusb.exitCode != 0 {
      return;
    }
    var lines := Lines(lsusb.stdout);
    var i := 0;
    while i < |lines|
      invariant 0 <= i <= |lines|
      invariant devices == LinuxDevices(lines[..i], nodes)
    {
      var found := SearchLsusb(lines[i], 0);
      if found.Some? {
        var path := DevicePath(found.value);
        if path in nodes {
          devices := devices + [LsusbDevice(found.value)];
        }
      }
      assert lines[..i + 1][..i] == lines[..i];
      i := i + 1;
    }
    assert lines[..i] == lines;
  }

  /** What every Linux record satisfies: lower-case 4-hex ids, the
      "vid:pid" key built from them, and an existing node named after the
      zero-padded bus and device numbers. */
  predicate ValidLinuxRecord(d: UsbDevice, nodes: set<string>) {
    && IsHex4(d.vendorId) && IsHex4(d.productId)
    && d.vendorProduct == d.vendorId + ":" + d.productId
    && d.devicePath == Some("/dev/bus/usb/" + ZFill(d.bus, 3) + "/" + ZFill(d.device, 3))
    && d.devicePath.value in nodes
  }

  lemma {:induction false} LinuxDevicesValid(lines: seq<string>, nodes: set<string>)
    ensures forall d :: d in LinuxDevices(lines, nodes) ==> ValidLinuxRecord(d, nodes)
  {
    if lines != [] {
      LinuxDevicesValid(lines[..|lines| - 1], nodes);
    }
  }

  // ---------------------------------------------------------------------------
  // macOS: system_profiler

  /** `re.search(tag + '([0-9a-f]{4})', line)`: the four hex digits after
      the leftmost occurrence of `tag` that is followed by four. */
  function SearchHex(line: string, tag: string, from: nat): (r: Option<string>)
    requires from <= |line|
    ensures r.Some? ==> IsHex4(r.value)
    decreases |line| - from
  {
    var t := line[from..];
    if StartsWith(t, tag) && |t| >= |tag| + 4 && IsHex4(t[|tag|..|tag| + 4]) then
      Some(t[|tag|..|tag| + 4])
    else if from == |line| then None
    else SearchHex(line, tag, from + 1)
  }

  /** `re.search(tag + '(.+)', line)`: the rest of the line after the
      leftmost occurrence of `tag` that is followed by a character. */
  function SearchRest(line: string, tag: string, from: nat): (r: Option<string>)
    requires from <= |line|
    ensures r.Some? ==> r.value != []
    decreases |line| - from
  {
    var t := line[from..];
    if StartsWith(t, tag) && |t| > |tag| then Some(t[|tag|..])
    else if from == |line| then None
    else SearchRest(line, tag, from + 1)
  }

  /** The `current_device` accumulator of the macOS reader. */
  datatype Pending = Pending(vendorId: Option<string>, productId: Option<string>, description: Option<string>)

  const NoPending := Pending(None, None, None)

  predicate Complete(p: Pending) { p.vendorId.Some? && p.productId.Some? }

  /** What one line does to the accumulator, before the emission check. */
  function ReadProfilerLine(acc: Pending, raw: string): Pending {
    var line := Strip(raw);
    if Contains(line, "Product ID:") then
      match SearchHex(line, "Product ID: 0x", 0)
      case Some(p) => acc.(productId := Some(p))
      case None => acc
    else if Contains(line, "Vendor ID:") then
      match SearchHex(line, "Vendor ID: 0x", 0)
      case Some(v) => acc.(vendorId := Some(v))
      case None => acc
    else if Contains(line, "Manufacturer:") then
      match SearchRest(line, "Manufacturer: ", 0)
      case Some(m) => acc.(description := Some(m))
      case None => acc
    else acc
  }

  /** The record emitted for a complete accumulator. */
  function MacDevice(p: Pending): UsbDevice
    requires Complete(p)
  {
    var v, pr := p.vendorId.value, p.productId.value;
    UsbDevice("001", "001", v, pr, v + ":" + pr,
              if p.description.Some? then p.description.value else "Unknown Device", None)
  }

  datatype ProfilerState = ProfilerState(pending: Pending, devices: seq<UsbDevice>)

  function ProfilerStep(st: ProfilerState, raw: string): ProfilerState {
    var p := ReadProfilerLine(st.pending, raw);
    if Complete(p) then ProfilerState(NoPending, st.devices + [MacDevice(p)])
    else ProfilerState(p, st.devices)
  }

  function ProfilerRun(lines: seq<string>): ProfilerState {
    if lines == [] then ProfilerState(NoPending, [])
    else ProfilerStep(ProfilerRun(lines[..|lines| - 1]), lines[|lines| - 1])
  }

  /** `_get_macos_usb_devices` from the `system_profiler` output (its exit
      code is not consulted). */
  method GetMacosUsbDevices(profiler: CommandResult) returns (devices: seq<UsbDevice>)
    ensures devices == ProfilerRun(Lines(profiler.stdout)).devices
  {
    var lines := Lines(profiler.stdout);
    devices := [];
    var current := NoPending;
    var i := 0;
    while i < |lines|
      invariant 0 <= i <= |lines|
      invariant ProfilerRun(lines[..i]) == ProfilerState(current, devices)
    {
      current := ReadProfilerField(current, lines[i]);
      if current.vendorId.Some? && current.productId.Some? {
        devices := devices + [MacDevice(current)];
        current := NoPending;
      }
      assert lines[..i + 1][..i] == lines[..i];
      i := i + 1;
    }
    assert lines[..i] == lines;
  }

  /** The field tests of the reader's loop: a product id, else a vendor id,
      else a manufacturer line updates its field when its pattern matches. */
  method ReadProfilerField(current0: Pending, raw: string) returns (current: Pending)
    ensures current == ReadProfilerLine(current0, raw)
  {
    current := current0;
    var line := Strip(raw);
    if Contains(line, "Product ID:") {
      var m := SearchHex(line, "Product ID: 0x", 0);
      if m.Some? {
        current := current.(productId := m);
      }
    } else if Contains(line, "Vendor ID:") {
      var m := SearchHex(line, "Vendor ID: 0x", 0);
      if m.Some? {
        current := current.(vendorId := m);
      }
    } else if Contains(line, "Manufacturer:") {
      var m := SearchRest(line, "Manufacturer: ", 0);
      if m.Some? {
        current := current.(description := m);
      }
    }
  }

  /** What every macOS record satisfies: bus and device "001", 4-hex ids, the
      "vid:pid" key, a non-empty description ("Unknown Device" when no
      manufacturer was read), and no device node. */
  predicate ValidMacRecord(d: UsbDevice) {
    && d.bus == "001" && d.device == "001"
    && IsHex4(d.vendorId) && IsHex4(d.productId)
    && d.vendorProduct == d.vendorId + ":" + d.productId
    && d.description != [] && d.devicePath.None?
  }

  /** Ids only ever enter the accumulator as four hex digits. */
  predicate PendingHex(p: Pending) {
    (p.vendorId.Some? ==> IsHex4(p.vendorId.value))
    && (p.productId.Some? ==> IsHex4(p.productId.value))
    && (p.description.Some? ==> p.description.value != [])
  }

  /** The reader emits as soon as both ids are known: after every line the
      accumulator never holds both, and every record emitted is valid. */
  lemma {:induction false} ProfilerRunInvariant(lines: seq<string>)
    ensures !Complete(ProfilerRun(lines).pending)
    ensures PendingHex(ProfilerRun(lines).pending)
    ensures forall d :: d in ProfilerRun(lines).devices ==> ValidMacRecord(d)
  {
    if lines != [] {
      var st := ProfilerRun(lines[..|lines| - 1]);
      ProfilerRunInvariant(lines[..|lines| - 1]);
      ReadKeepsHex(st.pending, lines[|lines| - 1]);
      var p := ReadProfilerLine(st.pending, lines[|lines| - 1]);
      if Complete(p) {
        assert ValidMacRecord(MacDevice(p));
      }
    }
  }

  /** A line only ever stores four hex digits as an id and a non-empty
      manufacturer. */
  lemma ReadKeepsHex(acc: Pending, raw: string)
    requires PendingHex(acc)
    ensures PendingHex(ReadProfilerLine(acc, raw))
  {
  }

  /** A line that stores a manufacturer when read. */
  predicate NamesManufacturer(raw: string) {
    ReadProfilerLine(NoPending, raw).description.Some?
  }

  /** Any other line leaves the stored manufacturer as it was. */
  lemma DescriptionKept(acc: Pending, raw: string)
    requires !NamesManufacturer(raw)
    ensures ReadProfilerLine(acc, raw).description == acc.description
  {
  }

  /** The line that completes a record emits exactly that one record and
      empties the accumulator. */
  lemma EmissionResets(lines: seq<string>, raw: string)
    ensures var before, after := ProfilerRun(lines), ProfilerRun(lines + [raw]);
      && before.devices <= after.devices && |after.devices| <= |before.devices| + 1
      && (|after.devices| > |before.devices| ==> after.pending == NoPending)
  {
    assert (lines + [raw])[..|lines|] == lines;
  }

  /** From a point where no manufacturer is stored (the start, or right
      after an emission), a record completed without a manufacturer line
      gets the description "Unknown Device": nothing is carried over from
      the record before. */
  lemma {:induction false} UnknownWithoutManufacturer(lines: seq<string>, more: seq<string>)
    requires ProfilerRun(lines).pending.description.None?
    requires forall k :: 0 <= k < |more| ==> !NamesManufacturer(more[k])
    ensures var before, after := ProfilerRun(lines), ProfilerRun(lines + more);
      && after.pending.description.None?
      && before.devices <= after.devices
      && forall j :: |before.devices| <= j < |after.devices| ==> after.devices[j].description == "Unknown Device"
  {
    if more == [] {
      assert lines + more == lines;
    } else {
      var init, last := more[..|more| - 1], more[|more| - 1];
      UnknownWithoutManufacturer(lines, init);
      assert (lines + more)[..|lines + more| - 1] == lines + init;
      var mid := ProfilerRun(lines + init);
      DescriptionKept(mid.pending, last);
      var p := ReadProfilerLine(mid.pending, last);
      if Complete(p) {
        assert ProfilerRun(lines + more) == ProfilerState(NoPending, mid.devices + [MacDevice(p)]);
      } else {
        assert ProfilerRun(lines + more) == ProfilerState(p, mid.devices);
      }
    }
  }

  // ---------------------------------------------------------------------------
  // Inventory and resolution

  /** `_get_usb_devices`: the platform picks the reader; an exception while
      running the reader's commands (`None`) gives no devices. */
  method GetUsbDevices(isDarwin: bool, lsusb: Option<CommandResult>, profiler: Option<CommandResult>,
                       nodes: set<string>)
    returns (devices: seq<UsbDevice>)
    ensures isDarwin ==> devices == if profiler.None? then [] else ProfilerRun(Lines(profiler.value.stdout)).devices
    ensures !isDarwin ==> devices == if !Succeeded(lsusb) then [] else LinuxDevices(Lines(lsusb.value.stdout), nodes)
  {
    devices := [];
    if isDarwin {
      if profiler.Some? {
        devices := GetMacosUsbDevices(profiler.value);
      }
    } else if lsusb.Some? {
      devices := GetLinuxUsbDevices(lsusb.value, nodes);
    }
  }

  /** The records whose "vid:pid" key is in the catalog, in input order. */
  function Supported(ds: seq<UsbDevice>): seq<UsbDevice> {
    if ds == [] then []
    else Supported(ds[..|ds| - 1]) + (if ds[|ds| - 1].vendorProduct in SupportedPrinters then [ds[|ds| - 1]] else [])
  }

  lemma {:induction false} SupportedMembers(ds: seq<UsbDevice>)
    ensures forall d :: d in Supported(ds) <==> d in ds && d.vendorProduct in SupportedPrinters
  {
    if ds != [] {
      var init := ds[..|ds| - 1];
      SupportedMembers(init);
      assert ds == init + [ds[|ds| - 1]];
    }
  }

  /** `get_connected_printers` over the inventory: one descriptor per
      supported record, in input order. */
  method GetConnectedPrinters(devices: seq<UsbDevice>) returns (printers: seq<PrinterInfo>)
    ensures |printers| == |Supported(devices)|
    ensures forall i :: 0 <= i < |printers| ==> CreatePrinterInfo(Supported(devices)[i]) == Some(printers[i])
  {
    printers := [];
    var i := 0;
    while i < |devices|
      invariant 0 <= i <= |devices|
      invariant |printers| == |Supported(devices[..i])|
      invariant forall j :: 0 <= j < |printers| ==> CreatePrinterInfo(Supported(devices[..i])[j]) == Some(printers[j])
    {
      assert devices[..i + 1][..i] == devices[..i];
      var device := devices[i];
      if device.vendorProduct in SupportedPrinters {
        var info := CreatePrinterInfo(device);
        if info.Some? {
          printers := printers + [info.value];
        }
      }
      i := i + 1;
    }
    assert devices[..i] == devices;
  }

  // ---------------------------------------------------------------------------
  // Capabilities

  /** `line.split(':')[1] if ':' in line else ''`: the text between the first
      and the second ':'. */
  function SecondField(line: string): (r: string)
    ensures ':' !in r
    ensures ':' in line ==>
              var i := IndexOf(line, ':');
              && i + 1 + |r| <= |line|
              && line == line[..i] + [':'] + r + line[i + 1 + |r|..] && ':' !in line[..i]
              && (i + 1 + |r| == |line| || line[i + 1 + |r|] == ':')
    ensures ':' !in line ==> r == []
  {
    if ':' in line then
      var i := IndexOf(line, ':');
      var rest := line[i + 1..];
      var j := IndexOf(rest, ':');
      ColonFields(line, i, j);
      assert rest[j..] == line[i + 1 + j..];
      rest[..j]
    else ""
  }

  /** The pieces around the first ':' and the next one after it. */
  lemma ColonFields(line: string, i: nat, j: nat)
    requires i == IndexOf(line, ':') < |line| && j == IndexOf(line[i + 1..], ':')
    ensures var rest := line[i + 1..];
      && line == line[..i] + [':'] + rest[..j] + rest[j..]
      && ':' !in line[..i] && ':' !in rest[..j]
      && (rest[j..] == [] || rest[j..][0] == ':')
  {
    ColonSplit(line, i, j);
    UpToColon(line);
    UpToColon(line[i + 1..]);
  }

  lemma ColonSplit(line: string, i: nat, j: nat)
    requires i < |line| && line[i] == ':' && j <= |line[i + 1..]|
    ensures line == line[..i] + [':'] + line[i + 1..][..j] + line[i + 1..][j..]
  {
    var rest := line[i + 1..];
    var pre, mid, post := line[..i], rest[..j], rest[j..];
    assert rest == mid + post;
    assert line == pre + [':'] + rest;
    Regroup(pre, ':', mid, post);
  }

  lemma Regroup(a: string, c: char, m: string, b: string)
    ensures a + [c] + (m + b) == a + [c] + m + b
  {
  }

  /** The text before the first ':' holds none, and what follows starts
      with it. */
  lemma UpToColon(s: string)
    ensures ':' !in s[..IndexOf(s, ':')]
    ensures s[IndexOf(s, ':')..] == [] || s[IndexOf(s, ':')..][0] == ':'
  {
  }

  /** The detector's prefixes: no `PrintQuality/`. */
  function DetectorKindOf(l: string): LineKind {
    if StartsWith(l, "PageSize/") then PageSizeLine
    else if StartsWith(l, "MediaType/") then MediaTypeLine
    else if StartsWith(l, "Quality/") then QualityLine
    else if StartsWith(l, "ColorModel/") then ColorModelLine
    else OtherLine
  }

  /** What one line of `lpoptions -l` adds in the detector's reader: page
      sizes are the word runs with an inner 'x', the other three the words of
      the second ':'-field. */
  function OptionLine(line: string): (r: Capabilities)
    ensures DetectorKindOf(Strip(line)) == OtherLine ==> r == NoCapabilities
    ensures DetectorKindOf(Strip(line)) == PageSizeLine ==> r == NoCapabilities.(paperSizes := InnerXRuns(Strip(line)))
    ensures DetectorKindOf(Strip(line)) == MediaTypeLine ==> r == NoCapabilities.(mediaTypes := WordRuns(SecondField(Strip(line))))
    ensures DetectorKindOf(Strip(line)) == QualityLine ==> r == NoCapabilities.(qualityLevels := WordRuns(SecondField(Strip(line))))
    ensures DetectorKindOf(Strip(line)) == ColorModelLine ==> r == NoCapabilities.(colorModes := WordRuns(SecondField(Strip(line))))
    ensures ':' !in Strip(line) && DetectorKindOf(Strip(line)) != PageSizeLine ==> r == NoCapabilities
  {
    var l := Strip(line);
    match DetectorKindOf(l)
    case PageSizeLine => NoCapabilities.(paperSizes := InnerXRuns(l))
    case MediaTypeLine => NoCapabilities.(mediaTypes := WordRuns(SecondField(l)))
    case QualityLine => NoCapabilities.(qualityLevels := WordRuns(SecondField(l)))
    case ColorModelLine => NoCapabilities.(colorModes := WordRuns(SecondField(l)))
    case OtherLine => NoCapabilities
  }

  function OptionsOf(lines: seq<string>): Capabilities {
    Accumulate(lines, OptionLine)
  }

  /** `_parse_printer_options`. */
  method ParsePrinterOptions(output: string) returns (caps: Capabilities)
    ensures caps == OptionsOf(Lines(output))
  {
    var lines := Lines(output);
    caps := NoCapabilities;
    var i := 0;
    while i < |lines|
      invariant 0 <= i <= |lines|
      invariant caps == OptionsOf(lines[..i])
    {
      caps := AddOptionLine(caps, lines[i]);
      AccumulateStep(lines, i, OptionLine);
      i := i + 1;
    }
    assert lines[..i] == lines;
  }

  /** The body of the reader's loop: the stripped line extends the list its
      prefix names. */
  method AddOptionLine(caps0: Capabilities, raw: string) returns (caps: Capabilities)
    ensures caps == Join(caps0, OptionLine(raw))
  {
    caps := caps0;
    var line := Strip(raw);
    match DetectorKindOf(line) {
      case PageSizeLine =>
        caps := caps.(paperSizes := caps.paperSizes + InnerXRuns(line));
      case MediaTypeLine =>
        caps := caps.(mediaTypes := caps.mediaTypes + WordRuns(SecondField(line)));
      case QualityLine =>
        caps := caps.(qualityLevels := caps.qualityLevels + WordRuns(SecondField(line)));
      case ColorModelLine =>
        caps := caps.(colorModes := caps.colorModes + WordRuns(SecondField(line)));
      case OtherLine =>
    }
    assert caps0.paperSizes + [] == caps0.paperSizes && caps0.mediaTypes + [] == caps0.mediaTypes;
    assert caps0.qualityLevels + [] == caps0.qualityLevels && caps0.colorModes + [] == caps0.colorModes;
  }

  /** Tokens are appended in line order. */
  lemma OptionsOfAppend(a: seq<string>, b: seq<string>)
    ensures OptionsOf(a + b) == Join(OptionsOf(a), OptionsOf(b))
  {
    AccumulateAppend(a, b, OptionLine);
  }

  const CanonCapabilities := Capabilities(["4x6", "5x7"], ["PhotoPaper", "GlossyPhoto"],
                                          ["Draft", "Normal", "High"], ["RGB", "sRGB"])

  const DnpCapabilities := Capabilities(["4x6", "5x7", "6x8"], ["Ribbon"], ["Standard", "Fine"], ["RGB"])

  /** `get_printer_capabilities`: the parsed `lpoptions` answer, replaced
      wholesale by the fixed lists for Canon and DNP models. */
  method GetPrinterCapabilities(model: string, lpoptions: Option<CommandResult>) returns (caps: Capabilities)
    ensures StartsWith(model, "Canon") ==> caps == CanonCapabilities
    ensures !StartsWith(model, "Canon") && StartsWith(model, "DNP") ==> caps == DnpCapabilities
    ensures !StartsWith(model, "Canon") && !StartsWith(model, "DNP") ==>
              caps == if Succeeded(lpoptions) then OptionsOf(Lines(lpoptions.value.stdout)) else NoCapabilities
  {
    caps := NoCapabilities;
    if Succeeded(lpoptions) {
      caps := ParsePrinterOptions(lpoptions.value.stdout);
    }
    if StartsWith(model, "Canon") {
      caps := CanonCapabilities;
    } else if StartsWith(model, "DNP") {
      caps := DnpCapabilities;
    }
  }

  /** `test_printer_communication`: `lpstat -p` exits 0 and says "idle" in
      any letter case. */
  function Communicates(lpstat: Option<CommandResult>): (ok: bool)
    ensures ok <==> lpstat.Some? && lpstat.value.exitCode == 0
                    && exists i :: LowersTo(lpstat.value.stdout, i, "idle")
  {
    if lpstat.Some? then
      LowerWindow(lpstat.value.stdout, "idle");
      lpstat.value.exitCode == 0 && Contains(Lower(lpstat.value.stdout), "idle")
    else false
  }

  /** The window of `s` at `i` as long as `w` lower-cases to `w`. */
  predicate LowersTo(s: string, i: int, w: string) {
    0 <= i && i + |w| <= |s| && Lower(s[i..i + |w|]) == w
  }

  /** A word occurs in the lower-cased text exactly where a window of the
      text lower-cases to it. */
  lemma LowerWindow(s: string, w: string)
    ensures Contains(Lower(s), w) <==> exists i :: LowersTo(s, i, w)
  {
    if Contains(Lower(s), w) {
      var i :| 0 <= i <= |s| && w <= Lower(s)[i..];
      assert Lower(s[i..i + |w|]) == Lower(s)[i..i + |w|];
      assert LowersTo(s, i, w);
    }
    if exists i :: LowersTo(s, i, w) {
      var i :| LowersTo(s, i, w);
      assert Lower(s[i..i + |w|]) == Lower(s)[i..i + |w|];
      assert w <= Lower(s)[i..];
    }
  }

  /** "IDLE" in capitals also counts: the test folds case. */
  lemma IdleInCapitals(pre: string, post: string)
    ensures Communicates(Some(CommandResult(0, pre + "IDLE" + post)))
  {
    var s := pre + "IDLE" + post;
    assert s[|pre|..|pre| + 4] == "IDLE";
    assert LowersTo(s, |pre|, "idle");
  }
}
