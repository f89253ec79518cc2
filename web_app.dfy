/** The web-controlled rig: its print command and options, the continuous
    test loop gated by a stop flag, and the test registry behind the start
    and stop endpoints with the status derived from it. */
module WebApp {
  import opened Strings
  import opened Process
  import opened PrinterDetection
  import PrinterTest

  // ---------------------------------------------------------------------------
  // Print options and command

  /** `get_print_options` of the web rig: two options for a "DNP" model
      prefix, three for every other model. */
  function GetPrintOptions(model: string): (options: seq<string>)
    ensures StartsWith(model, "DNP") ==> |options| == 2 && options[0] == "media=w288h432"
    ensures !StartsWith(model, "DNP") ==> |options| == 3 && options[0] == "media=4x6"
    ensures StartsWith(model, "DNP") ==> "fit-to-page" in options && "ColorModel=RGB" !in options
    ensures !StartsWith(model, "DNP") ==> "ColorModel=RGB" in options && "quality=5" in options
  {
    if StartsWith(model, "DNP") then ["media=w288h432", "fit-to-page"]
    else ["media=4x6", "ColorModel=RGB", "quality=5"]
  }

  /** `print_image` of the web rig: the `lp` command, and whether the print
      succeeded given the `lp` answer and the completion poll rounds. */
  method PrintImage(printer: PrinterInfo, imagePath: string, lp: Option<CommandResult>, polls: seq<PrinterTest.Poll>)
    returns (cmd: seq<string>, ok: bool)
    ensures cmd == ["lp", "-d", printer.cupsName] + PrinterTest.OptionFlags(["fit-to-page"] + GetPrintOptions(printer.model)) + [imagePath]
    ensures ok <==> Succeeded(lp) && PrinterTest.JobId(lp.value.stdout).Some?
                    && PrinterTest.WaitOutcome(PrinterTest.JobId(lp.value.stdout).value, polls)
  {
    cmd := PrintCommand(printer, imagePath);
    if lp.None? || lp.value.exitCode != 0 {
      return cmd, false;
    }
    var jobId := PrinterTest.JobId(lp.value.stdout);
    if jobId.None? {
      return cmd, false;
    }
    ok := PrinterTest.WaitForPrintCompletion(jobId.value, polls);
  }

  /** The `lp` command of the web rig: "fit-to-page", then one "-o" per
      model option, then the image. */
  method PrintCommand(printer: PrinterInfo, imagePath: string) returns (cmd: seq<string>)
    ensures cmd == ["lp", "-d", printer.cupsName] + PrinterTest.OptionFlags(["fit-to-page"] + GetPrintOptions(printer.model)) + [imagePath]
  {
    var options := GetPrintOptions(printer.model);
    cmd := ["lp", "-d", printer.cupsName, "-o", "fit-to-page"];
    assert ["fit-to-page"][..0] == [];
    assert (["fit-to-page"] + options[..0]) == ["fit-to-page"];
    var i := 0;
    while i < |options|
      invariant 0 <= i <= |options|
      invariant cmd == ["lp", "-d", printer.cupsName] + PrinterTest.OptionFlags(["fit-to-page"] + options[..i])
    {
      assert (["fit-to-page"] + options[..i + 1])[..1 + i] == ["fit-to-page"] + options[..i];
      cmd := cmd + ["-o", options[i]];
      i := i + 1;
    }
    assert options[..i] == options;
    cmd := cmd + [imagePath];
  }

  /** The web command asks for "fit-to-page" first, then one "-o" per model
      option in order, and ends with the image path; for a DNP model
      "fit-to-page" is asked for twice. */
  lemma PrintCommandLayout(printer: PrinterInfo, imagePath: string)
    ensures var options := ["fit-to-page"] + GetPrintOptions(printer.model);
            var cmd := ["lp", "-d", printer.cupsName] + PrinterTest.OptionFlags(options) + [imagePath];
            && |cmd| == 4 + 2 * |options|
            && cmd[..5] == ["lp", "-d", printer.cupsName, "-o", "fit-to-page"]
            && (forall i :: 0 <= i < |options| ==> cmd[3 + 2 * i] == "-o" && cmd[4 + 2 * i] == options[i])
            && cmd[|cmd| - 1] == imagePath
            && (StartsWith(printer.model, "DNP") ==> cmd[8] == "fit-to-page")
  {
    var options := ["fit-to-page"] + GetPrintOptions(printer.model);
    PrinterTest.OptionFlagsShape(options);
    var flags := PrinterTest.OptionFlags(options);
    var cmd := ["lp", "-d", printer.cupsName] + flags + [imagePath];
    forall i | 0 <= i < |options|
      ensures cmd[3 + 2 * i] == "-o" && cmd[4 + 2 * i] == options[i]
    {
      assert cmd[3 + 2 * i] == flags[2 * i] && cmd[4 + 2 * i] == flags[2 * i + 1];
    }
    assert cmd[3] == "-o" && cmd[4] == options[0];
  }

  // ---------------------------------------------------------------------------
  // Queue setup

  function AddQueueCommand(p: PrinterInfo): seq<string> {
    ["lpadmin", "-p", p.cupsName, "-E", "-v", p.deviceUri, "-m", p.ppdFile,
     "-L", "PRig Web - " + p.model, "-D", "Web-controlled " + p.model]
  }

  /** `setup_printer_in_cups` of the web rig: the same steps as the
      automatic rig's, with the web labels; whatever it catches it raises
      again. */
  method SetupPrinterInCups(printer: PrinterInfo, remove: Option<CommandResult>, add: Option<CommandResult>,
                            setDefault: Option<CommandResult>)
    returns (commands: seq<seq<string>>, ok: bool)
    ensures ok <==> remove.Some? && Succeeded(add) && setDefault.Some?
    ensures commands == if remove.None? then [PrinterTest.RemoveQueueCommand(printer)]
                        else if !Succeeded(add) then [PrinterTest.RemoveQueueCommand(printer), AddQueueCommand(printer)]
                        else [PrinterTest.RemoveQueueCommand(printer), AddQueueCommand(printer),
                              PrinterTest.DefaultQueueCommand(printer)]
  {
    commands := [PrinterTest.RemoveQueueCommand(printer)];
    if remove.None? {
      return commands, false;
    }
    commands := commands + [AddQueueCommand(printer)];
    if add.None? || add.value.exitCode != 0 {
      return commands, false;
    }
    commands := commands + [PrinterTest.DefaultQueueCommand(printer)];
    ok := setDefault.Some?;
  }

  // ---------------------------------------------------------------------------
  // The continuous test loop

  /** What `start_continuous_test` does, one event per step: the start, each
      read of the stop flag, each connectivity check, the start of each cycle
      with the new `cycle_count`, each print with its outcome, the end of a
      cycle that was not stopped, and the final report of the cycles run. */
  datatype WebEvent =
    | Started
    | FlagRead(stop: bool)
    | Connected(answer: bool)
    | CycleStarted(cycle: nat)
    | PrintStarted(cycle: nat, image: nat)
    | PrintCompleted(cycle: nat, image: nat, ok: bool)
    | CycleCompleted(cycle: nat)
    | Stopped(cycles: nat)

  /** Where the loop is: at the `while` condition, before image `index`, or
      at the check after the images. */
  datatype Stage = LoopHead | ImageStep(index: nat) | AfterImages

  /** The r-th read of the stop flag. The flag is only ever set, so its
      reads are false up to some read `stopAfter` and true from there on. */
  function FlagAt(stopAfter: nat, r: nat): bool {
    r >= stopAfter
  }

  function StageRank(stage: Stage): nat {
    match stage
    case LoopHead => 0
    case AfterImages => 1
    case ImageStep(_) => 2
  }

  function Budget(stopAfter: nat, r: nat): nat {
    if r < stopAfter then stopAfter - r else 0
  }

  /** The events from a given point of the loop on, having made `r` flag
      reads, `c` connectivity checks and `p` prints. */
  function WebRunFrom(images: seq<string>, answers: seq<bool>, outcomes: seq<bool>, stopAfter: nat,
                      cycle: nat, stage: Stage, r: nat, c: nat, p: nat): seq<WebEvent>
    requires stage.ImageStep? ==> stage.index <= |images|
    decreases Budget(stopAfter, r), StageRank(stage)
  {
    match stage
    case LoopHead =>
      if FlagAt(stopAfter, r) then [FlagRead(true), Stopped(cycle)]
      else if !PrinterTest.Answer(answers, c) then [FlagRead(false), Connected(false), Stopped(cycle)]
      else [FlagRead(false), Connected(true), CycleStarted(cycle + 1)]
           + WebRunFrom(images, answers, outcomes, stopAfter, cycle + 1, ImageStep(0), r + 1, c + 1, p)
    case ImageStep(i) =>
      if i == |images| then WebRunFrom(images, answers, outcomes, stopAfter, cycle, AfterImages, r, c, p)
      else if FlagAt(stopAfter, r) then
        [FlagRead(true)] + WebRunFrom(images, answers, outcomes, stopAfter, cycle, AfterImages, r + 1, c, p)
      else
        [FlagRead(false), PrintStarted(cycle, i), PrintCompleted(cycle, i, PrinterTest.Outcome(outcomes, p))]
        + WebRunFrom(images, answers, outcomes, stopAfter, cycle, ImageStep(i + 1), r + 1, c, p + 1)
    case AfterImages =>
      if FlagAt(stopAfter, r) then
        [FlagRead(true)] + WebRunFrom(images, answers, outcomes, stopAfter, cycle, LoopHead, r + 1, c, p)
      else
        [FlagRead(false), CycleCompleted(cycle)]
        + WebRunFrom(images, answers, outcomes, stopAfter, cycle, LoopHead, r + 1, c, p)
  }

  /** A whole test: nothing when setup raised, otherwise the start event and
      the loop. */
  function WebRun(setupOk: bool, images: seq<string>, answers: seq<bool>, outcomes: seq<bool>,
                  stopAfter: nat): seq<WebEvent>
  {
    if setupOk then [Started] + WebRunFrom(images, answers, outcomes, stopAfter, 0, LoopHead, 0, 0, 0) else []
  }

  /** The `for` loop over the images, from read `r0` and print `p0` on: one
      flag read per image, and a set flag breaks out of the loop. */
  method WebImages(images: seq<string>, ghost answers: seq<bool>, outcomes: seq<bool>, stopAfter: nat,
                   cycle: nat, r0: nat, ghost c: nat, p0: nat)
    returns (events: seq<WebEvent>, r: nat, p: nat)
    ensures r0 <= r
    ensures events + WebRunFrom(images, answers, outcomes, stopAfter, cycle, AfterImages, r, c, p)
            == WebRunFrom(images, answers, outcomes, stopAfter, cycle, ImageStep(0), r0, c, p0)
  {
    ghost var total := WebRunFrom(images, answers, outcomes, stopAfter, cycle, ImageStep(0), r0, c, p0);
    events := [];
    r, p := r0, p0;
    var broke := false;
    var i := 0;
    while i < |images| && !broke
      invariant 0 <= i <= |images| && r0 <= r
      invariant !broke ==> events + WebRunFrom(images, answers, outcomes, stopAfter, cycle, ImageStep(i), r, c, p) == total
      invariant broke ==> events + WebRunFrom(images, answers, outcomes, stopAfter, cycle, AfterImages, r, c, p) == total
      decreases |images| - i, if broke then 0 else 1
    {
      ghost var before := events;
      var stop := FlagAt(stopAfter, r);
      r := r + 1;
      if stop {
        ghost var next := WebRunFrom(images, answers, outcomes, stopAfter, cycle, AfterImages, r, c, p);
        assert WebRunFrom(images, answers, outcomes, stopAfter, cycle, ImageStep(i), r - 1, c, p) == [FlagRead(true)] + next;
        AppendAssoc(events, [FlagRead(true)], next);
        events := events + [FlagRead(true)];
        broke := true;
      } else {
        var ok := PrinterTest.Outcome(outcomes, p);
        p := p + 1;
        ghost var step := [FlagRead(false), PrintStarted(cycle, i), PrintCompleted(cycle, i, ok)];
        ghost var next := WebRunFrom(images, answers, outcomes, stopAfter, cycle, ImageStep(i + 1), r, c, p);
        assert WebRunFrom(images, answers, outcomes, stopAfter, cycle, ImageStep(i), r - 1, c, p - 1) == step + next;
        AppendAssoc(events, step, next);
        events := events + [FlagRead(false), PrintStarted(cycle, i), PrintCompleted(cycle, i, ok)];
        i := i + 1;
      }
    }
  }

  /** The images of one cycle and the check after them, from read `r0` and
      print `p0` on. A set flag breaks out of the images and skips the
      end-of-cycle event. */
  method WebCycle(images: seq<string>, ghost answers: seq<bool>, outcomes: seq<bool>, stopAfter: nat,
                  cycle: nat, r0: nat, ghost c: nat, p0: nat)
    returns (events: seq<WebEvent>, r: nat, p: nat)
    ensures r0 < r
    ensures events + WebRunFrom(images, answers, outcomes, stopAfter, cycle, LoopHead, r, c, p)
            == WebRunFrom(images, answers, outcomes, stopAfter, cycle, ImageStep(0), r0, c, p0)
  {
    events, r, p := WebImages(images, answers, outcomes, stopAfter, cycle, r0, c, p0);
    var stop := FlagAt(stopAfter, r);
    r := r + 1;
    ghost var next := WebRunFrom(images, answers, outcomes, stopAfter, cycle, LoopHead, r, c, p);
    if stop {
      AppendAssoc(events, [FlagRead(true)], next);
      events := events + [FlagRead(true)];
    } else {
      AppendAssoc(events, [FlagRead(false), CycleCompleted(cycle)], next);
      events := events + [FlagRead(false), CycleCompleted(cycle)];
    }
  }

  /** `start_continuous_test`, with the setup answers, the test images, the
      connectivity answers, the print outcomes and the flag read from which
      the stop flag is seen set. */
  method StartContinuousTest(printer: PrinterInfo, remove: Option<CommandResult>, add: Option<CommandResult>,
                             setDefault: Option<CommandResult>, images: seq<string>, answers: seq<bool>,
                             outcomes: seq<bool>, stopAfter: nat)
    returns (trace: seq<WebEvent>)
    ensures trace == WebRun(remove.Some? && Succeeded(add) && setDefault.Some?, images, answers, outcomes, stopAfter)
  {
    var commands, setupOk := SetupPrinterInCups(printer, remove, add, setDefault);
    if !setupOk {
      return [];
    }
    ghost var total := WebRun(true, images, answers, outcomes, stopAfter);
    trace := [Started];
    var cycleCount := 0;
    var r, c, p := 0, 0, 0;
    while true
      invariant trace + WebRunFrom(images, answers, outcomes, stopAfter, cycleCount, LoopHead, r, c, p) == total
      decreases Budget(stopAfter, r)
    {
      ghost var before := trace;
      ghost var rest := WebRunFrom(images, answers, outcomes, stopAfter, cycleCount, LoopHead, r, c, p);
      var stop := FlagAt(stopAfter, r);
      r := r + 1;
      if stop {
        trace := trace + [FlagRead(true), Stopped(cycleCount)];
        return;
      }
      var connected := PrinterTest.Answer(answers, c);
      c := c + 1;
      if !connected {
        trace := trace + [FlagRead(false), Connected(false), Stopped(cycleCount)];
        return;
      }
      cycleCount := cycleCount + 1;
      ghost var step := [FlagRead(false), Connected(true), CycleStarted(cycleCount)];
      ghost var inner := WebRunFrom(images, answers, outcomes, stopAfter, cycleCount, ImageStep(0), r, c, p);
      assert rest == step + inner;
      AppendAssoc(before, step, inner);
      trace := trace + [FlagRead(false), Connected(true), CycleStarted(cycleCount)];
      var events;
      events, r, p := WebCycle(images, answers, outcomes, stopAfter, cycleCount, r, c, p);
      AppendAssoc(trace, events, WebRunFrom(images, answers, outcomes, stopAfter, cycleCount, LoopHead, r, c, p));
      trace := trace + events;
    }
  }

  // ---------------------------------------------------------------------------
  // Ordering of a test

  /** Number of cycles started in `t`. */
  function CyclesStarted(t: seq<WebEvent>): nat {
    if t == [] then 0 else (if t[0].CycleStarted? then 1 else 0) + CyclesStarted(t[1..])
  }

  /** What an observer reading a test from its start remembers: the last
      event, whether a read found the stop flag set, and the cycles started. */
  datatype WebMonitor = WebMonitor(prev: Option<WebEvent>, stopSeen: bool, starts: nat)

  const WebFresh := WebMonitor(None, false, 0)

  function WebNext(m: WebMonitor, e: WebEvent): WebMonitor {
    WebMonitor(Some(e), m.stopSeen || e == FlagRead(true), m.starts + if e.CycleStarted? then 1 else 0)
  }

  /** Event `e` may come next: nothing follows the final report; once the
      flag was seen set only further reads and the final report follow; a
      cycle starts only after an unset flag and a positive check; a print
      only after an unset flag. */
  predicate WebAllowed(images: seq<string>, m: WebMonitor, e: WebEvent) {
    && !(m.prev.Some? && m.prev.value.Stopped?)
    && (m.stopSeen ==> e == FlagRead(true) || e.Stopped?)
    && match e
       case Started => m.prev.None?
       case FlagRead(_) => m.prev.Some?
       case Connected(_) => m.prev == Some(FlagRead(false))
       case CycleStarted(n) => m.prev == Some(Connected(true)) && n == m.starts + 1
       case PrintStarted(n, i) => m.prev == Some(FlagRead(false)) && n == m.starts && i < |images|
       case PrintCompleted(n, i, _) => m.prev == Some(PrintStarted(n, i))
       case CycleCompleted(n) => m.prev == Some(FlagRead(false)) && n == m.starts
       case Stopped(n) => (m.prev == Some(FlagRead(true)) || m.prev == Some(Connected(false))) && n == m.starts
  }

  predicate WebAccepts(images: seq<string>, m: WebMonitor, t: seq<WebEvent>)
    decreases |t|
  {
    t == [] || (WebAllowed(images, m, t[0]) && WebAccepts(images, WebNext(m, t[0]), t[1..]))
  }

  function WebAfter(m: WebMonitor, t: seq<WebEvent>): WebMonitor
    decreases |t|
  {
    if t == [] then m else WebAfter(WebNext(m, t[0]), t[1..])
  }

  predicate WebReady(m: WebMonitor, cycle: nat, stopAfter: nat, r: nat) {
    m.starts == cycle && m.prev.Some? && !m.prev.value.Stopped? && (m.stopSeen ==> FlagAt(stopAfter, r))
  }

  lemma WebAcceptsCons(images: seq<string>, m: WebMonitor, e: WebEvent, rest: seq<WebEvent>)
    requires WebAllowed(images, m, e) && WebAccepts(images, WebNext(m, e), rest)
    ensures WebAccepts(images, m, [e] + rest)
  {
    assert ([e] + rest)[0] == e && ([e] + rest)[1..] == rest;
  }

  /** From any point of the loop where the observer is ready, the rest of
      the test is accepted. */
  lemma {:induction false} WebRunAccepted(images: seq<string>, answers: seq<bool>, outcomes: seq<bool>, stopAfter: nat,
                                          m: WebMonitor, cycle: nat, stage: Stage, r: nat, c: nat, p: nat)
    requires stage.ImageStep? ==> stage.index <= |images|
    requires WebReady(m, cycle, stopAfter, r)
    ensures WebAccepts(images, m, WebRunFrom(images, answers, outcomes, stopAfter, cycle, stage, r, c, p))
    decreases Budget(stopAfter, r), StageRank(stage), 1
  {
    match stage
    case LoopHead => WebHeadAccepted(images, answers, outcomes, stopAfter, m, cycle, r, c, p);
    case ImageStep(i) => WebImageAccepted(images, answers, outcomes, stopAfter, m, cycle, i, r, c, p);
    case AfterImages => WebAfterImagesAccepted(images, answers, outcomes, stopAfter, m, cycle, r, c, p);
  }

  lemma {:induction false} WebHeadAccepted(images: seq<string>, answers: seq<bool>, outcomes: seq<bool>, stopAfter: nat,
                                   m: WebMonitor, cycle: nat, r: nat, c: nat, p: nat)
    requires WebReady(m, cycle, stopAfter, r)
    ensures WebAccepts(images, m, WebRunFrom(images, answers, outcomes, stopAfter, cycle, LoopHead, r, c, p))
    decreases Budget(stopAfter, r), StageRank(LoopHead), 0
  {
    if FlagAt(stopAfter, r) {
      var m1 := WebNext(m, FlagRead(true));
      WebAcceptsCons(images, m1, Stopped(cycle), []);
      WebAcceptsCons(images, m, FlagRead(true), [Stopped(cycle)] + []);
      assert [FlagRead(true), Stopped(cycle)] == [FlagRead(true)] + ([Stopped(cycle)] + []);
    } else if !PrinterTest.Answer(answers, c) {
      var m1 := WebNext(m, FlagRead(false));
      var m2 := WebNext(m1, Connected(false));
      WebAcceptsCons(images, m2, Stopped(cycle), []);
      WebAcceptsCons(images, m1, Connected(false), [Stopped(cycle)] + []);
      WebAcceptsCons(images, m, FlagRead(false), [Connected(false)] + ([Stopped(cycle)] + []));
      assert [FlagRead(false), Connected(false), Stopped(cycle)]
          == [FlagRead(false)] + ([Connected(false)] + ([Stopped(cycle)] + []));
    } else {
      var m1 := WebNext(m, FlagRead(false));
      var m2 := WebNext(m1, Connected(true));
      var m3 := WebNext(m2, CycleStarted(cycle + 1));
      var rest := WebRunFrom(images, answers, outcomes, stopAfter, cycle + 1, ImageStep(0), r + 1, c + 1, p);
      WebRunAccepted(images, answers, outcomes, stopAfter, m3, cycle + 1, ImageStep(0), r + 1, c + 1, p);
      WebAcceptsCons(images, m2, CycleStarted(cycle + 1), rest);
      WebAcceptsCons(images, m1, Connected(true), [CycleStarted(cycle + 1)] + rest);
      WebAcceptsCons(images, m, FlagRead(false), [Connected(true)] + ([CycleStarted(cycle + 1)] + rest));
      assert [FlagRead(false), Connected(true), CycleStarted(cycle + 1)] + rest
          == [FlagRead(false)] + ([Connected(true)] + ([CycleStarted(cycle + 1)] + rest));
    }
  }

  lemma {:induction false} WebImageAccepted(images: seq<string>, answers: seq<bool>, outcomes: seq<bool>, stopAfter: nat,
                                   m: WebMonitor, cycle: nat, i: nat, r: nat, c: nat, p: nat)
    requires i <= |images|
    requires WebReady(m, cycle, stopAfter, r)
    ensures WebAccepts(images, m, WebRunFrom(images, answers, outcomes, stopAfter, cycle, ImageStep(i), r, c, p))
    decreases Budget(stopAfter, r), StageRank(ImageStep(i)), 0
  {
    if i == |images| {
      WebRunAccepted(images, answers, outcomes, stopAfter, m, cycle, AfterImages, r, c, p);
    } else if FlagAt(stopAfter, r) {
      var rest := WebRunFrom(images, answers, outcomes, stopAfter, cycle, AfterImages, r + 1, c, p);
      WebRunAccepted(images, answers, outcomes, stopAfter, WebNext(m, FlagRead(true)), cycle, AfterImages, r + 1, c, p);
      WebAcceptsCons(images, m, FlagRead(true), rest);
    } else {
      var ok := PrinterTest.Outcome(outcomes, p);
      var m1 := WebNext(m, FlagRead(false));
      var m2 := WebNext(m1, PrintStarted(cycle, i));
      var m3 := WebNext(m2, PrintCompleted(cycle, i, ok));
      var rest := WebRunFrom(images, answers, outcomes, stopAfter, cycle, ImageStep(i + 1), r + 1, c, p + 1);
      WebRunAccepted(images, answers, outcomes, stopAfter, m3, cycle, ImageStep(i + 1), r + 1, c, p + 1);
      WebAcceptsCons(images, m2, PrintCompleted(cycle, i, ok), rest);
      WebAcceptsCons(images, m1, PrintStarted(cycle, i), [PrintCompleted(cycle, i, ok)] + rest);
      WebAcceptsCons(images, m, FlagRead(false), [PrintStarted(cycle, i)] + ([PrintCompleted(cycle, i, ok)] + rest));
      assert [FlagRead(false), PrintStarted(cycle, i), PrintCompleted(cycle, i, ok)] + rest
          == [FlagRead(false)] + ([PrintStarted(cycle, i)] + ([PrintCompleted(cycle, i, ok)] + rest));
    }
  }

  lemma {:induction false} WebAfterImagesAccepted(images: seq<string>, answers: seq<bool>, outcomes: seq<bool>, stopAfter: nat,
                                   m: WebMonitor, cycle: nat, r: nat, c: nat, p: nat)
    requires WebReady(m, cycle, stopAfter, r)
    ensures WebAccepts(images, m, WebRunFrom(images, answers, outcomes, stopAfter, cycle, AfterImages, r, c, p))
    decreases Budget(stopAfter, r), StageRank(AfterImages), 0
  {
    var rest := WebRunFrom(images, answers, outcomes, stopAfter, cycle, LoopHead, r + 1, c, p);
    if FlagAt(stopAfter, r) {
      WebRunAccepted(images, answers, outcomes, stopAfter, WebNext(m, FlagRead(true)), cycle, LoopHead, r + 1, c, p);
      WebAcceptsCons(images, m, FlagRead(true), rest);
    } else {
      var m1 := WebNext(m, FlagRead(false));
      var m2 := WebNext(m1, CycleCompleted(cycle));
      WebRunAccepted(images, answers, outcomes, stopAfter, m2, cycle, LoopHead, r + 1, c, p);
      WebAcceptsCons(images, m1, CycleCompleted(cycle), rest);
      WebAcceptsCons(images, m, FlagRead(false), [CycleCompleted(cycle)] + rest);
      assert [FlagRead(false), CycleCompleted(cycle)] + rest == [FlagRead(false)] + ([CycleCompleted(cycle)] + rest);
    }
  }

  lemma WebRunIsAccepted(setupOk: bool, images: seq<string>, answers: seq<bool>, outcomes: seq<bool>, stopAfter: nat)
    ensures WebAccepts(images, WebFresh, WebRun(setupOk, images, answers, outcomes, stopAfter))
  {
    if setupOk {
      var rest := WebRunFrom(images, answers, outcomes, stopAfter, 0, LoopHead, 0, 0, 0);
      WebRunAccepted(images, answers, outcomes, stopAfter, WebNext(WebFresh, Started), 0, LoopHead, 0, 0, 0);
      WebAcceptsCons(images, WebFresh, Started, rest);
    }
  }

  lemma {:induction false} WebAcceptsAt(images: seq<string>, m: WebMonitor, t: seq<WebEvent>, k: nat)
    requires WebAccepts(images, m, t) && k < |t|
    ensures WebAllowed(images, WebAfter(m, t[..k]), t[k])
    decreases k
  {
    if k > 0 {
      WebAcceptsAt(images, WebNext(m, t[0]), t[1..], k - 1);
      assert t[..k][0] == t[0] && t[..k][1..] == t[1..][..k - 1];
    }
  }

  lemma {:induction false} WebAfterFacts(m: WebMonitor, t: seq<WebEvent>)
    ensures WebAfter(m, t).starts == m.starts + CyclesStarted(t)
    ensures WebAfter(m, t).prev == if t == [] then m.prev else Some(t[|t| - 1])
    ensures WebAfter(m, t).stopSeen <==> m.stopSeen || FlagRead(true) in t
    decreases |t|
  {
    if t != [] {
      WebAfterFacts(WebNext(m, t[0]), t[1..]);
      assert t == [t[0]] + t[1..];
    }
  }

  /** What a test promises:
      - each cycle starts, numbered one more than the last, right after a
        read that found the flag unset and a check that found the printer
        connected;
      - once a read finds the flag set, only further reads (which find it
        set) and the final report follow: no image is started and the
        cycle is not reported completed;
      - every print is started right after a read found the flag unset. */
  lemma WebRunProperties(setupOk: bool, images: seq<string>, answers: seq<bool>, outcomes: seq<bool>, stopAfter: nat)
    ensures var t := WebRun(setupOk, images, answers, outcomes, stopAfter);
            forall k :: 0 <= k < |t| && t[k].CycleStarted? ==>
              2 <= k && t[k - 1] == Connected(true) && t[k - 2] == FlagRead(false)
              && t[k].cycle == CyclesStarted(t[..k]) + 1
    ensures var t := WebRun(setupOk, images, answers, outcomes, stopAfter);
            forall k, j :: 0 <= k < j < |t| && t[k] == FlagRead(true) ==> t[j] == FlagRead(true) || t[j].Stopped?
    ensures var t := WebRun(setupOk, images, answers, outcomes, stopAfter);
            forall k :: 0 <= k < |t| && t[k].PrintStarted? ==> 1 <= k && t[k - 1] == FlagRead(false)
  {
    var t := WebRun(setupOk, images, answers, outcomes, stopAfter);
    WebRunIsAccepted(setupOk, images, answers, outcomes, stopAfter);
    forall k | 0 <= k < |t| && t[k].CycleStarted?
      ensures 2 <= k && t[k - 1] == Connected(true) && t[k - 2] == FlagRead(false)
      ensures t[k].cycle == CyclesStarted(t[..k]) + 1
    {
      WebAcceptsAt(images, WebFresh, t, k);
      WebAfterFacts(WebFresh, t[..k]);
      WebAcceptsAt(images, WebFresh, t, k - 1);
      WebAfterFacts(WebFresh, t[..k - 1]);
    }
    forall k, j | 0 <= k < j < |t| && t[k] == FlagRead(true)
      ensures t[j] == FlagRead(true) || t[j].Stopped?
    {
      WebAcceptsAt(images, WebFresh, t, j);
      WebAfterFacts(WebFresh, t[..j]);
      assert t[..j][k] == t[k];
    }
    forall k | 0 <= k < |t| && t[k].PrintStarted?
      ensures 1 <= k && t[k - 1] == FlagRead(false)
    {
      WebAcceptsAt(images, WebFresh, t, k);
      WebAfterFacts(WebFresh, t[..k]);
    }
  }

  // ---------------------------------------------------------------------------
  // Test registry and status

  /** A test thread, as an opaque handle. */
  datatype ThreadHandle = ThreadHandle(id: nat)

  /** One entry of `active_tests`. */
  datatype TestState = TestState(active: bool, stopped: bool)

  /** The test id: "test_", the queue name, "_" and the epoch seconds. */
  function TestId(cupsName: string, now: nat): string {
    "test_" + cupsName + "_" + NatToString(now)
  }

  /** For one queue, ids taken at different seconds differ; two starts in
      the same second get the same id. */
  lemma TestIdSeconds(cupsName: string, now1: nat, now2: nat)
    ensures TestId(cupsName, now1) == TestId(cupsName, now2) <==> now1 == now2
  {
    if TestId(cupsName, now1) == TestId(cupsName, now2) {
      var prefix := "test_" + cupsName + "_";
      assert TestId(cupsName, now1)[|prefix|..] == NatToString(now1);
      assert TestId(cupsName, now2)[|prefix|..] == NatToString(now2);
      ParseNatToString(now1);
      ParseNatToString(now2);
    }
  }

  /** `active_tests`: one entry per registered thread, saying whether the
      thread is alive and whether its stop flag is set. */
  function ActiveTests(threads: map<string, ThreadHandle>, flags: map<string, bool>, alive: set<string>)
    : (tests: map<string, TestState>)
    ensures tests.Keys == threads.Keys
    ensures forall tid :: tid in tests ==>
              tests[tid].active == (tid in alive) && tests[tid].stopped == (tid in flags && flags[tid])
  {
    map tid | tid in threads :: TestState(tid in alive, tid in flags && flags[tid])
  }

  /** `system_status`: "active" exactly when some test is registered. */
  function SystemStatus(threads: map<string, ThreadHandle>): (status: string)
    ensures status == "active" <==> threads != map[]
    ensures status == "idle" <==> threads == map[]
  {
    if threads != map[] then "active"
    else
      assert "idle"[0] != "active"[0];
      "idle"
  }

  /** The module's global state: the `test_threads` and `stop_flags`
      dictionaries and the derived `printer_status` fields. Stop flags are
      the `stop` entry of each flag dictionary. */
  class Registry {
    var testThreads: map<string, ThreadHandle>
    var stopFlags: map<string, bool>
    var connectedPrinters: seq<PrinterInfo>
    var activeTests: map<string, TestState>
    var systemStatus: string

    /** Every registered test has a stop flag and every stop flag belongs
        to a registered test: the endpoints add both together and nothing
        removes either. */
    predicate Valid()
      reads this
    {
      testThreads.Keys == stopFlags.Keys
    }

    constructor()
      ensures Valid()
      ensures testThreads == map[] && stopFlags == map[]
      ensures connectedPrinters == [] && activeTests == map[] && systemStatus == "idle"
    {
      testThreads := map[];
      stopFlags := map[];
      connectedPrinters := [];
      activeTests := map[];
      systemStatus := "idle";
    }

    /** `api_start_test`: `printer` is the request's printer field (`None`
        when absent), `now` the epoch seconds and `handle` the thread to
        register. Answers 400 for a missing or empty printer or a test id
        already registered, 500 when the printer has no queue name (before
        any change) or no name (after registering), 200 otherwise. */
    method StartTest(printer: Option<map<string, string>>, now: nat, handle: ThreadHandle)
      returns (status: int, testId: Option<string>)
      requires Valid()
      modifies this
      ensures Valid()
      ensures connectedPrinters == old(connectedPrinters) && activeTests == old(activeTests)
      ensures systemStatus == old(systemStatus)
      ensures printer.None? || printer.value == map[] ==>
                status == 400 && testId.None? && unchanged(this)
      ensures printer.Some? && printer.value != map[] && "cups_name" !in printer.value ==>
                status == 500 && testId.None? && unchanged(this)
      ensures printer.Some? && printer.value != map[] && "cups_name" in printer.value ==>
                var id := TestId(printer.value["cups_name"], now);
                testId == Some(id)
                && (id in old(testThreads) ==> status == 400 && unchanged(this))
                && (id !in old(testThreads) ==>
                      && testThreads == old(testThreads)[id := handle]
                      && stopFlags == old(stopFlags)[id := false]
                      && status == if "name" in printer.value then 200 else 500)
    {
      if printer.None? || printer.value == map[] {
        return 400, None;
      }
      var info := printer.value;
      if "cups_name" !in info {
        return 500, None;
      }
      var id := TestId(info["cups_name"], now);
      testId := Some(id);
      if id in testThreads {
        return 400, testId;
      }
      stopFlags := stopFlags[id := false];
      testThreads := testThreads[id := handle];
      status := if "name" in info then 200 else 500;
    }

    /** `api_stop_test`: a missing, empty or unknown id answers 400 and
        changes nothing; otherwise only that test's flag is set. */
    method StopTest(testId: Option<string>) returns (status: int)
      requires Valid()
      modifies this
      ensures Valid()
      ensures testId.None? || testId.value == [] || testId.value !in old(stopFlags) ==>
                status == 400 && unchanged(this)
      ensures testId.Some? && testId.value != [] && testId.value in old(stopFlags) ==>
                && status == 200
                && stopFlags == old(stopFlags)[testId.value := true]
                && testThreads == old(testThreads)
                && connectedPrinters == old(connectedPrinters) && activeTests == old(activeTests)
                && systemStatus == old(systemStatus)
    {
      if testId.None? || testId.value == [] || testId.value !in stopFlags {
        return 400;
      }
      stopFlags := stopFlags[testId.value := true];
      status := 200;
    }

    /** One round of `update_printer_status`: `detected` is what
        `get_connected_printers` returned (`None` when it raised, which
        skips the round) and `alive` the tests whose thread is alive. */
    method UpdateStatus(detected: Option<seq<PrinterInfo>>, alive: set<string>)
      requires Valid()
      modifies this
      ensures Valid()
      ensures testThreads == old(testThreads) && stopFlags == old(stopFlags)
      ensures detected.None? ==> unchanged(this)
      ensures detected.Some? ==>
                && connectedPrinters == detected.value
                && activeTests == ActiveTests(testThreads, stopFlags, alive)
                && systemStatus == SystemStatus(testThreads)
    {
      if detected.None? {
        return;
      }
      connectedPrinters := detected.value;
      activeTests := ActiveTests(testThreads, stopFlags, alive);
      systemStatus := SystemStatus(testThreads);
    }
  }

  /** A stop request for a started test always succeeds, and the status
      derived afterwards shows the test as stopped. */
  method StartThenStop(printer: map<string, string>, now: nat, handle: ThreadHandle, alive: set<string>)
    returns (started: int, stopped: int, tests: map<string, TestState>)
    requires "cups_name" in printer && "name" in printer
    ensures started == 200 ==> stopped == 200
    ensures started == 200 ==> var id := TestId(printer["cups_name"], now);
                               id in tests && tests[id].stopped
  {
    var registry := new Registry();
    var testId;
    started, testId := registry.StartTest(Some(printer), now, handle);
    stopped := registry.StopTest(testId);
    registry.UpdateStatus(Some([]), alive);
    tests := registry.activeTests;
  }
}
