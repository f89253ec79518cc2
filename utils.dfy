/** The pure helpers of the rig's utility module: the `lpoptions -l`
    capability parser, the configuration merge, the test-report summary and
    the duration formatter. */
module Utils {
  import opened Strings
  import opened Process

  // ---------------------------------------------------------------------------
  // Printer capabilities

  /** The capability dictionary: exactly the four keys `paper_sizes`,
      `media_types`, `quality_levels` and `color_modes`. */
  datatype Capabilities = Capabilities(
    paperSizes: seq<string>,
    mediaTypes: seq<string>,
    qualityLevels: seq<string>,
    colorModes: seq<string>)

  const NoCapabilities := Capabilities([], [], [], [])

  /** Extending every list of `a` by the matching list of `b`. */
  function Join(a: Capabilities, b: Capabilities): Capabilities {
    Capabilities(a.paperSizes + b.paperSizes, a.mediaTypes + b.mediaTypes,
                 a.qualityLevels + b.qualityLevels, a.colorModes + b.colorModes)
  }

  /** Index of the first occurrence of `c` in `s`, or `|s|`. */
  function IndexOf(s: string, c: char): (k: nat)
    ensures k <= |s|
    ensures k < |s| ==> s[k] == c
    ensures forall i :: 0 <= i < k ==> s[i] != c
  {
    if s == [] || s[0] == c then 0 else 1 + IndexOf(s[1..], c)
  }

  /** `line.split(':', 1)[1]`: everything after the first ':'. */
  function AfterFirstColon(line: string): (r: string)
    requires ':' in line
    ensures |r| < |line| && line == line[..|line| - |r| - 1] + ":" + r
    ensures ':' !in line[..|line| - |r| - 1]
  {
    var i := IndexOf(line, ':');
    assert line == line[..i] + ":" + line[i + 1..];
    line[i + 1..]
  }

  /** The `\w+` tokens after the first ':', or none when the line has no ':'. */
  function OptionWords(line: string): seq<string> {
    if ':' in line then WordRuns(AfterFirstColon(line)) else []
  }

  /** Which capability a stripped line of `lpoptions -l` describes, decided by
      its prefix in the order the parser tests them. */
  datatype LineKind = PageSizeLine | MediaTypeLine | QualityLine | ColorModelLine | OtherLine

  function KindOf(l: string): LineKind {
    if StartsWith(l, "PageSize/") then PageSizeLine
    else if StartsWith(l, "MediaType/") then MediaTypeLine
    else if StartsWith(l, "Quality/") || StartsWith(l, "PrintQuality/") then QualityLine
    else if StartsWith(l, "ColorModel/") then ColorModelLine
    else OtherLine
  }

  /** What one line of `lpoptions -l` adds to the capabilities. */
  function CapabilityLine(line: string): (r: Capabilities)
    ensures KindOf(Strip(line)) == OtherLine ==> r == NoCapabilities
    ensures ':' !in Strip(line) && KindOf(Strip(line)) != PageSizeLine ==> r == NoCapabilities
    ensures KindOf(Strip(line)) == PageSizeLine ==> r == NoCapabilities.(paperSizes := WordRuns(Strip(line)))
    ensures KindOf(Strip(line)) == MediaTypeLine ==> r == NoCapabilities.(mediaTypes := OptionWords(Strip(line)))
    ensures KindOf(Strip(line)) == QualityLine ==> r == NoCapabilities.(qualityLevels := OptionWords(Strip(line)))
    ensures KindOf(Strip(line)) == ColorModelLine ==> r == NoCapabilities.(colorModes := OptionWords(Strip(line)))
  {
    var l := Strip(line);
    match KindOf(l)
    case PageSizeLine => NoCapabilities.(paperSizes := WordRuns(l))
    case MediaTypeLine => NoCapabilities.(mediaTypes := OptionWords(l))
    case QualityLine => NoCapabilities.(qualityLevels := OptionWords(l))
    case ColorModelLine => NoCapabilities.(colorModes := OptionWords(l))
    case OtherLine => NoCapabilities
  }

  /** The capabilities read from a sequence of lines, line by line. */
  function CapabilitiesOf(lines: seq<string>): Capabilities {
    Accumulate(lines, CapabilityLine)
  }

  /** The capabilities of a sequence of lines when each line adds
      `add(line)` to the lists, line by line. */
  function Accumulate(lines: seq<string>, add: string -> Capabilities): Capabilities {
    if lines == [] then NoCapabilities
    else Join(Accumulate(lines[..|lines| - 1], add), add(lines[|lines| - 1]))
  }

  /** `_parse_printer_capabilities`: extends the four lists line by line. */
  method ParsePrinterCapabilities(output: string) returns (caps: Capabilities)
    ensures caps == CapabilitiesOf(Lines(output))
  {
    var lines := Lines(output);
    caps := NoCapabilities;
    var i := 0;
    while i < |lines|
      invariant 0 <= i <= |lines|
      invariant caps == CapabilitiesOf(lines[..i])
    {
      caps := AddCapabilityLine(caps, lines[i]);
      AccumulateStep(lines, i, CapabilityLine);
      i := i + 1;
    }
    assert lines[..i] == lines;
  }

  /** The body of the parsing loop: the stripped line extends the list its
      prefix names by the words after its first colon (page sizes: all its
      words). */
  method AddCapabilityLine(caps0: Capabilities, raw: string) returns (caps: Capabilities)
    ensures caps == Join(caps0, CapabilityLine(raw))
  {
    caps := caps0;
    var line := Strip(raw);
    match KindOf(line) {
    case PageSizeLine =>
      caps := caps.(paperSizes := caps.paperSizes + WordRuns(line));
    case MediaTypeLine =>
      if ':' in line {
        caps := caps.(mediaTypes := caps.mediaTypes + WordRuns(AfterFirstColon(line)));
      }
    case QualityLine =>
      if ':' in line {
        caps := caps.(qualityLevels := caps.qualityLevels + WordRuns(AfterFirstColon(line)));
      }
    case ColorModelLine =>
      if ':' in line {
        caps := caps.(colorModes := caps.colorModes + WordRuns(AfterFirstColon(line)));
      }
    case OtherLine =>
    }
    assert caps0.paperSizes + [] == caps0.paperSizes && caps0.mediaTypes + [] == caps0.mediaTypes;
    assert caps0.qualityLevels + [] == caps0.qualityLevels && caps0.colorModes + [] == caps0.colorModes;
  }

  /** Parsing two blocks of lines extends the lists of the first by those of
      the second: tokens appear in line order. */
  lemma CapabilitiesOfAppend(a: seq<string>, b: seq<string>)
    ensures CapabilitiesOf(a + b) == Join(CapabilitiesOf(a), CapabilitiesOf(b))
  {
    AccumulateAppend(a, b, CapabilityLine);
  }

  /** One more line adds what it gives to the lists. */
  lemma AccumulateStep(lines: seq<string>, i: nat, add: string -> Capabilities)
    requires i < |lines|
    ensures Accumulate(lines[..i + 1], add) == Join(Accumulate(lines[..i], add), add(lines[i]))
  {
    assert lines[..i + 1][..i] == lines[..i];
  }

  /** Accumulating two blocks of lines joins what each block gives. */
  lemma {:induction false} AccumulateAppend(a: seq<string>, b: seq<string>, add: string -> Capabilities)
    ensures Accumulate(a + b, add) == Join(Accumulate(a, add), Accumulate(b, add))
  {
    if b == [] {
      assert a + b == a;
      assert Join(Accumulate(a, add), NoCapabilities) == Accumulate(a, add) by {
        var pa := Accumulate(a, add);
        assert pa.paperSizes + [] == pa.paperSizes && pa.mediaTypes + [] == pa.mediaTypes;
        assert pa.qualityLevels + [] == pa.qualityLevels && pa.colorModes + [] == pa.colorModes;
      }
    } else {
      var b', x := b[..|b| - 1], b[|b| - 1];
      AccumulateAppend(a, b', add);
      assert (a + b)[..|a + b| - 1] == a + b';
      assert (a + b)[|a + b| - 1] == x;
      var pa, pb, px := Accumulate(a, add), Accumulate(b', add), add(x);
      assert Accumulate(b, add) == Join(pb, px);
      assert Accumulate(a + b, add) == Join(Join(pa, pb), px);
      JoinAssociative(pa, pb, px);
    }
  }

  lemma JoinAssociative(x: Capabilities, y: Capabilities, z: Capabilities)
    ensures Join(Join(x, y), z) == Join(x, Join(y, z))
  {
    assert (x.paperSizes + y.paperSizes) + z.paperSizes == x.paperSizes + (y.paperSizes + z.paperSizes);
    assert (x.mediaTypes + y.mediaTypes) + z.mediaTypes == x.mediaTypes + (y.mediaTypes + z.mediaTypes);
    assert (x.qualityLevels + y.qualityLevels) + z.qualityLevels == x.qualityLevels + (y.qualityLevels + z.qualityLevels);
    assert (x.colorModes + y.colorModes) + z.colorModes == x.colorModes + (y.colorModes + z.colorModes);
  }

  /** Lines with no recognised prefix leave the capabilities empty. */
  lemma {:induction false} UnrecognisedLinesIgnored(lines: seq<string>)
    requires forall l :: l in lines ==> KindOf(Strip(l)) == OtherLine
    ensures CapabilitiesOf(lines) == NoCapabilities
  {
    if lines != [] {
      assert lines[|lines| - 1] in lines;
      UnrecognisedLinesIgnored(lines[..|lines| - 1]);
    }
  }

  lemma {:induction false} WordLengthOfWord(w: string, rest: string)
    requires forall i :: 0 <= i < |w| ==> IsWordChar(w[i])
    requires rest == [] || !IsWordChar(rest[0])
    ensures WordLength(w + rest) == |w|
  {
    if w != [] {
      assert (w + rest)[1..] == w[1..] + rest;
      WordLengthOfWord(w[1..], rest);
    }
  }

  /** A `PageSize/` line contributes its own label "PageSize" first. */
  lemma PageSizeLabelFirst(line: string)
    requires KindOf(Strip(line)) == PageSizeLine
    ensures CapabilityLine(line).paperSizes != []
    ensures CapabilityLine(line).paperSizes[0] == "PageSize"
  {
    var l := Strip(line);
    assert "PageSize/" <= l;
    assert l == "PageSize" + l[8..];
    WordLengthOfWord("PageSize", l[8..]);
  }

  // ---------------------------------------------------------------------------
  // Configuration

  /** A JSON value as `json.load` returns it. */
  datatype Json =
    | JNull
    | JBool(b: bool)
    | JInt(i: int)
    | JString(s: string)
    | JArray(items: seq<Json>)
    | JObject(fields: map<string, Json>)

  /** The built-in configuration of `load_config`. */
  const DefaultConfig: map<string, Json> := map[
    "log_level" := JString("INFO"),
    "test_images" := JObject(map[
      "formats" := JArray([JString("PNG")]),
      "resolution" := JArray([JInt(1800), JInt(1200)])]),
    "printer_settings" := JObject(map[
      "timeout" := JInt(120),
      "retry_attempts" := JInt(3),
      "print_delay" := JInt(5)]),
    "supported_printers" := JObject(map[
      "canon_selphy" := JObject(map[
        "vendor_id" := JString("04a9"),
        "models" := JArray([JString("CP1300"), JString("CP1500"), JString("CP910")])]),
      "dnp_qw410" := JObject(map[
        "vendor_id" := JString("1343"),
        "product_id" := JString("0003")])])]

  /** What reading the configuration file gave: no file, an error while
      opening or decoding it, or a decoded JSON document. */
  datatype ConfigFile = Absent | Unreadable | Loaded(document: Json)

  /** `load_config`: the user's top-level keys override the defaults; a
      missing file, an unreadable one, or a document that is not a JSON object
      (the `**` unpacking then raises) gives the defaults. */
  function LoadConfig(file: ConfigFile): (config: map<string, Json>)
    ensures file.Loaded? && file.document.JObject? ==>
              && config.Keys == DefaultConfig.Keys + file.document.fields.Keys
              && (forall k :: k in file.document.fields ==> config[k] == file.document.fields[k])
              && (forall k :: k in DefaultConfig && k !in file.document.fields ==> config[k] == DefaultConfig[k])
    ensures !(file.Loaded? && file.document.JObject?) ==> config == DefaultConfig
  {
    match file
    case Loaded(JObject(user)) => DefaultConfig + user
    case _ => DefaultConfig
  }

  // ---------------------------------------------------------------------------
  // Test report

  /** `r.get('status') == status`. */
  predicate HasStatus(r: map<string, Json>, status: string) {
    "status" in r && r["status"] == JString(status)
  }

  /** The positions of the results whose status is `status`. */
  function WithStatus(results: seq<map<string, Json>>, status: string): set<int> {
    set i | 0 <= i < |results| && HasStatus(results[i], status)
  }

  /** `sum(1 for r in results if r.get('status') == status)`. */
  function CountStatus(results: seq<map<string, Json>>, status: string): (n: nat)
    ensures n == |WithStatus(results, status)|
    ensures n <= |results|
  {
    if results == [] then 0
    else
      var init := results[..|results| - 1];
      var last := |results| - 1;
      assert WithStatus(results, status)
          == WithStatus(init, status) + (if HasStatus(results[last], status) then {last} else {});
      CountStatus(init, status) + (if HasStatus(results[last], status) then 1 else 0)
  }

  datatype Summary = Summary(totalTests: nat, passed: nat, failed: nat)

  /** No result counts both as passed and as failed. */
  lemma {:induction false} PassedAndFailedDisjoint(results: seq<map<string, Json>>)
    ensures CountStatus(results, "success") + CountStatus(results, "failed") <= |results|
  {
    if results != [] {
      PassedAndFailedDisjoint(results[..|results| - 1]);
    }
  }

  /** The `summary` block of `create_test_report`: the number of results,
      of those whose status is "success" and of those whose status is
      "failed". */
  function ReportSummary(results: seq<map<string, Json>>): (s: Summary)
    ensures s.totalTests == |results|
    ensures s.passed == |WithStatus(results, "success")|
    ensures s.failed == |WithStatus(results, "failed")|
    ensures s.passed + s.failed <= s.totalTests
  {
    PassedAndFailedDisjoint(results);
    Summary(|results|, CountStatus(results, "success"), CountStatus(results, "failed"))
  }

  // ---------------------------------------------------------------------------
  // Durations

  /** `format_duration` on a whole number of seconds: seconds below one
      minute, minutes and seconds below one hour, hours and minutes from
      then on. */
  function FormatDuration(seconds: int): (r: string)
    ensures seconds < 60 ==> |r| > 10 && r[|r| - 10..] == ".0 seconds" && r[0] != '.'
    ensures 60 <= seconds < 3600 ==> r != [] && r[|r| - 1] == 's' && 'm' in r
    ensures seconds >= 3600 ==> r != [] && r[|r| - 1] == 'm' && 'h' in r
  {
    if seconds < 60 then IntToString(seconds) + ".0 seconds"
    else if seconds < 3600 then NatToString(seconds / 60) + "m " + NatToString(seconds % 60) + "s"
    else NatToString(seconds / 3600) + "h " + NatToString(seconds % 3600 / 60) + "m"
  }

  /** Reads a text of the form "<digits><u1> <digits><u2>" back into its two
      numbers. */
  function ReadTwoFields(text: string, u1: char, u2: char): Option<(nat, nat)> {
    var i := IndexOf(text, u1);
    if i + 2 > |text| || text[i + 1] != ' ' || !AllDigits(text[..i]) then None
    else
      var rest := text[i + 2..];
      if rest == [] || rest[|rest| - 1] != u2 || !AllDigits(rest[..|rest| - 1]) then None
      else Some((ParseNat(text[..i]), ParseNat(rest[..|rest| - 1])))
  }

  lemma {:induction false} IndexOfAfterDigits(digits: string, c: char, tail: string)
    requires AllDigits(digits) && !IsDigit(c)
    ensures IndexOf(digits + [c] + tail, c) == |digits|
  {
    if digits != [] {
      assert (digits + [c] + tail)[1..] == digits[1..] + [c] + tail;
      IndexOfAfterDigits(digits[1..], c, tail);
    }
  }

  lemma ReadTwoFieldsOf(a: nat, u1: char, b: nat, u2: char)
    requires !IsDigit(u1)
    ensures ReadTwoFields(NatToString(a) + [u1, ' '] + NatToString(b) + [u2], u1, u2) == Some((a, b))
  {
    var sa, sb := NatToString(a), NatToString(b);
    var text := sa + [u1, ' '] + sb + [u2];
    FieldsLayout(sa, u1, sb, u2);
    var rest := text[|sa| + 2..];
    assert rest[|rest| - 1] == u2 && rest[..|rest| - 1] == sb;
    ParseNatToString(a);
    ParseNatToString(b);
  }

  /** Where the pieces of "<digits><u1> <rest><u2>" sit. */
  lemma FieldsLayout(sa: string, u1: char, sb: string, u2: char)
    requires AllDigits(sa) && !IsDigit(u1)
    ensures var text := sa + [u1, ' '] + sb + [u2];
            IndexOf(text, u1) == |sa| && |sa| + 2 <= |text| && text[|sa| + 1] == ' '
            && text[..|sa|] == sa && text[|sa| + 2..] == sb + [u2]
  {
    var tail := [' '] + sb + [u2];
    var text := sa + [u1, ' '] + sb + [u2];
    assert text == sa + [u1] + tail;
    IndexOfAfterDigits(sa, u1, tail);
  }

  /** Below one minute the text before ".0 seconds" is the number of seconds,
      with a '-' ahead of it for a negative number. */
  lemma SecondsRoundTrip(seconds: int)
    requires seconds < 60
    ensures var r := FormatDuration(seconds);
            var num := r[..|r| - 10];
            && (seconds >= 0 ==> AllDigits(num) && ParseNat(num) == seconds)
            && (seconds < 0 ==> num != [] && num[0] == '-' && AllDigits(num[1..]) && ParseNat(num[1..]) == -seconds)
  {
    var r := FormatDuration(seconds);
    var num := r[..|r| - 10];
    var digits := NatToString(if seconds < 0 then -seconds else seconds);
    ParseNatToString(if seconds < 0 then -seconds else seconds);
    if seconds >= 0 {
      assert r == digits + ".0 seconds";
      assert num == digits;
    } else {
      assert r == "-" + digits + ".0 seconds";
      assert num == "-" + digits;
      assert num[1..] == digits;
    }
  }

  /** Between one minute and one hour the text gives back the exact number of
      seconds as minutes and seconds, the seconds part below 60. */
  lemma MinutesRoundTrip(seconds: int)
    requires 60 <= seconds < 3600
    ensures ReadTwoFields(FormatDuration(seconds), 'm', 's') == Some((seconds / 60, seconds % 60))
    ensures 60 * (seconds / 60) + seconds % 60 == seconds && seconds % 60 < 60
  {
    var m, r := seconds / 60, seconds % 60;
    assert FormatDuration(seconds) == NatToString(m) + ['m', ' '] + NatToString(r) + ['s'];
    ReadTwoFieldsOf(m, 'm', r, 's');
  }

  /** From one hour on the text gives hours and minutes: the seconds are
      truncated to the whole minute. */
  lemma HoursRoundTrip(seconds: int)
    requires seconds >= 3600
    ensures ReadTwoFields(FormatDuration(seconds), 'h', 'm').Some?
    ensures var (h, m) := ReadTwoFields(FormatDuration(seconds), 'h', 'm').value;
            m < 60 && 3600 * h + 60 * m <= seconds < 3600 * h + 60 * m + 60
  {
    var h, r := seconds / 3600, seconds % 3600;
    var m := r / 60;
    assert seconds == 3600 * h + r && 0 <= r < 3600;
    assert r == 60 * m + r % 60 && 0 <= r % 60 < 60;
    assert FormatDuration(seconds) == NatToString(h) + ['h', ' '] + NatToString(m) + ['m'];
    ReadTwoFieldsOf(h, 'h', m, 'm');
  }
}
