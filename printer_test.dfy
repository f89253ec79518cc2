/** The automatic test rig: queue setup, the print command and its job id,
    the completion poll, and the continuous print-cycle loop of
    `PrinterTestRig.test_printer`. Command answers, connectivity answers and
    print outcomes are inputs. */
module PrinterTest {
  import opened Strings
  import opened Process
  import opened Utils
  import opened PrinterDetection

  // ---------------------------------------------------------------------------
  // Connectivity

  predicate SameIds(a: PrinterInfo, b: PrinterInfo) {
    a.vendorId == b.vendorId && a.productId == b.productId
  }

  /** `is_printer_connected`: `detected` is what `get_connected_printers`
      returned, or `None` when it raised. */
  method IsPrinterConnected(printer: PrinterInfo, detected: Option<seq<PrinterInfo>>) returns (connected: bool)
    ensures connected <==> detected.Some? && exists d :: d in detected.value && SameIds(d, printer)
  {
    if detected.None? {
      return false;
    }
    var devices := detected.value;
    var i := 0;
    while i < |devices|
      invariant 0 <= i <= |devices|
      invariant forall j :: 0 <= j < i ==> !SameIds(devices[j], printer)
    {
      if devices[i].vendorId == printer.vendorId && devices[i].productId == printer.productId {
        assert devices[i] in devices && SameIds(devices[i], printer);
        return true;
      }
      i := i + 1;
    }
    return false;
  }

  // ---------------------------------------------------------------------------
  // Queue setup

  function RemoveQueueCommand(p: PrinterInfo): seq<string> {
    ["lpadmin", "-x", p.cupsName]
  }

  function AddQueueCommand(p: PrinterInfo): seq<string> {
    ["lpadmin", "-p", p.cupsName, "-E", "-v", p.deviceUri, "-m", p.ppdFile,
     "-L", "PRig Test Rig - " + p.model, "-D", "Auto-detected " + p.model]
  }

  function DefaultQueueCommand(p: PrinterInfo): seq<string> {
    ["lpoptions", "-d", p.cupsName]
  }

  /** `setup_printer_in_cups`: the commands issued, in order, and whether it
      returned normally. `None` answers stand for a command that raised. Only
      the add command's exit code is checked. */
  method SetupPrinterInCups(printer: PrinterInfo, remove: Option<CommandResult>, add: Option<CommandResult>,
                            setDefault: Option<CommandResult>)
    returns (commands: seq<seq<string>>, ok: bool)
    ensures ok <==> remove.Some? && Succeeded(add) && setDefault.Some?
    ensures commands == if remove.None? then [RemoveQueueCommand(printer)]
                        else if !Succeeded(add) then [RemoveQueueCommand(printer), AddQueueCommand(printer)]
                        else [RemoveQueueCommand(printer), AddQueueCommand(printer), DefaultQueueCommand(printer)]
  {
    commands := [RemoveQueueCommand(printer)];
    if remove.None? {
      return commands, false;
    }
    commands := commands + [AddQueueCommand(printer)];
    if add.None? || add.value.exitCode != 0 {
      return commands, false;
    }
    commands := commands + [DefaultQueueCommand(printer)];
    ok := setDefault.Some?;
  }

  /** The old queue is always removed first, and the queue is only made the
      default after it was added with exit code 0. */
  lemma SetupOrder(printer: PrinterInfo, commands: seq<seq<string>>, remove: Option<CommandResult>,
                   add: Option<CommandResult>)
    requires commands == if remove.None? then [RemoveQueueCommand(printer)]
                         else if !Succeeded(add) then [RemoveQueueCommand(printer), AddQueueCommand(printer)]
                         else [RemoveQueueCommand(printer), AddQueueCommand(printer), DefaultQueueCommand(printer)]
    ensures commands[0] == ["lpadmin", "-x", printer.cupsName]
    ensures forall k :: 0 <= k < |commands| && commands[k][0] == "lpoptions" ==>
              k == 2 && commands[1][1] == "-p" && Succeeded(add)
  {
    assert "lpadmin"[3] != "lpoptions"[3];
  }

  // ---------------------------------------------------------------------------
  // Print command and job id

  /** `get_print_options`: three options for a "Canon" or "DNP" model
      prefix, none otherwise. */
  function GetPrintOptions(model: string): (options: seq<string>)
    ensures options == [] <==> !StartsWith(model, "Canon") && !StartsWith(model, "DNP")
    ensures options != [] ==> |options| == 3 && options[0] == "PageSize=4x6"
    ensures StartsWith(model, "Canon") ==> "MediaType=PhotoPaper" in options && "Quality=High" in options
    ensures !StartsWith(model, "Canon") && StartsWith(model, "DNP") ==>
              "MediaType=Ribbon" in options && "Quality=Fine" in options
  {
    if StartsWith(model, "Canon") then ["PageSize=4x6", "MediaType=PhotoPaper", "Quality=High"]
    else if StartsWith(model, "DNP") then ["PageSize=4x6", "MediaType=Ribbon", "Quality=Fine"]
    else []
  }

  /** The options every test print gets before the model's own. */
  const BaseOptions: seq<string> := ["fit-to-page", "media=4x6", "ColorModel=RGB", "quality=5"]

  /** One "-o" before each option, in order. */
  function OptionFlags(options: seq<string>): seq<string> {
    if options == [] then []
    else OptionFlags(options[..|options| - 1]) + ["-o", options[|options| - 1]]
  }

  lemma {:induction false} OptionFlagsShape(options: seq<string>)
    ensures |OptionFlags(options)| == 2 * |options|
    ensures forall i :: 0 <= i < |options| ==>
              OptionFlags(options)[2 * i] == "-o" && OptionFlags(options)[2 * i + 1] == options[i]
  {
    if options != [] {
      OptionFlagsShape(options[..|options| - 1]);
    }
  }

  /** The job id: the last whitespace-separated field of the stripped
      output; `None` where the source's `[-1]` raises. */
  function JobId(stdout: string): (r: Option<string>)
    ensures r.Some? ==> r.value != [] && NoSpace(r.value)
    ensures r.Some? ==> exists a :: Strip(stdout) == a + r.value && (a == [] || IsSpace(a[|a| - 1]))
    ensures r.None? <==> AllSpace(stdout)
  {
    var fields := Split(Strip(stdout));
    SplitFields(Strip(stdout));
    SplitBlank(Strip(stdout));
    StripBlank(stdout);
    if fields == [] then None
    else
      assert fields[|fields| - 1] in fields;
      LastField(stdout);
      Some(fields[|fields| - 1])
  }

  /** The job id is the token that ends the stripped output, whatever
      precedes it. */
  lemma JobIdOfLastToken(stdout: string, p: string, w: string)
    requires Strip(stdout) == p + w
    requires w != [] && NoSpace(w) && (p == [] || IsSpace(p[|p| - 1]))
    ensures JobId(stdout) == Some(w)
  {
    SplitBlank(Strip(stdout));
    StripBlank(stdout);
    assert !AllSpace(stdout) by {
      assert !IsSpace(Strip(stdout)[|p|]);
    }
    var v := JobId(stdout).value;
    var a :| Strip(stdout) == a + v && (a == [] || IsSpace(a[|a| - 1]));
    LastTokenUnique(Strip(stdout), a, v, p, w);
  }

  /** On the answer `lp` gives for a one-file request, the last field is the
      closing text of the file count, whatever the request id. */
  lemma LpAnswerJobId(id: string)
    ensures JobId("request id is " + id + " (1 file(s))\n") == Some("file(s))")
  {
    var p, w := "request id is " + id + " (1 ", "file(s))";
    var t := p + w;
    var x := t + "\n";
    assert x == "request id is " + id + " (1 file(s))\n";
    assert NoSpace(w);
    assert x[0] == 'r';
    assert StripLeft(x) == x;
    assert x[..|x| - 1] == t;
    assert StripRight(x) == StripRight(t);
    assert t[|t| - 1] == ')';
    assert StripRight(t) == t;
    JobIdOfLastToken(x, p, w);
  }

  /** One round of the completion poll: the answers of
      `lpstat -W completed -o <id>` and of `lpstat -o <id>`. */
  datatype Poll = Poll(completed: Option<CommandResult>, status: Option<CommandResult>)

  predicate ListsCompleted(jobId: string, r: CommandResult) {
    r.exitCode == 0 && Contains(r.stdout, jobId)
  }

  /** A round after which the poll goes on: the completed listing does not
      show the job and the job is still known. */
  predicate StillPending(jobId: string, poll: Poll) {
    poll.completed.Some? && !ListsCompleted(jobId, poll.completed.value) && Succeeded(poll.status)
  }

  /** The poll's verdict over the rounds the timeout allows. A raised
      command ends the poll with false, as `print_image` catches it. */
  function WaitOutcome(jobId: string, polls: seq<Poll>): bool {
    if polls == [] then false
    else if polls[0].completed.None? then false
    else if ListsCompleted(jobId, polls[0].completed.value) then true
    else if !Succeeded(polls[0].status) then false
    else WaitOutcome(jobId, polls[1..])
  }

  /** The poll succeeds exactly when some round lists the job as completed
      and every round before it left the job pending. */
  lemma {:induction false} WaitOutcomeMeaning(jobId: string, polls: seq<Poll>)
    ensures WaitOutcome(jobId, polls) <==>
              exists i :: 0 <= i < |polls| && polls[i].completed.Some?
                          && ListsCompleted(jobId, polls[i].completed.value)
                          && forall j :: 0 <= j < i ==> StillPending(jobId, polls[j])
  {
    if polls != [] {
      WaitOutcomeMeaning(jobId, polls[1..]);
      if WaitOutcome(jobId, polls) && !ListsCompleted(jobId, polls[0].completed.value) {
        var i :| 0 <= i < |polls[1..]| && polls[1..][i].completed.Some?
                 && ListsCompleted(jobId, polls[1..][i].completed.value)
                 && forall j :: 0 <= j < i ==> StillPending(jobId, polls[1..][j]);
        forall j | 0 <= j < i + 1
          ensures StillPending(jobId, polls[j])
        {
          if j > 0 {
            assert polls[j] == polls[1..][j - 1];
          }
        }
        assert polls[i + 1] == polls[1..][i];
      }
      if exists i :: 0 <= i < |polls| && polls[i].completed.Some?
                     && ListsCompleted(jobId, polls[i].completed.value)
                     && forall j :: 0 <= j < i ==> StillPending(jobId, polls[j]) {
        var i :| 0 <= i < |polls| && polls[i].completed.Some?
                 && ListsCompleted(jobId, polls[i].completed.value)
                 && forall j :: 0 <= j < i ==> StillPending(jobId, polls[j]);
        if i > 0 {
          assert StillPending(jobId, polls[0]);
          assert polls[1..][i - 1] == polls[i];
          forall j | 0 <= j < i - 1
            ensures StillPending(jobId, polls[1..][j])
          {
            assert polls[1..][j] == polls[j + 1];
          }
        }
      }
    }
  }

  /** `wait_for_print_completion` over the rounds the timeout allows. */
  method WaitForPrintCompletion(jobId: string, polls: seq<Poll>) returns (done: bool)
    ensures done == WaitOutcome(jobId, polls)
  {
    var i := 0;
    while i < |polls|
      invariant 0 <= i <= |polls|
      invariant WaitOutcome(jobId, polls[i..]) == WaitOutcome(jobId, polls)
    {
      var poll := polls[i];
      assert polls[i..][0] == poll && polls[i..][1..] == polls[i + 1..];
      if poll.completed.None? {
        return false;
      }
      if poll.completed.value.exitCode == 0 && Contains(poll.completed.value.stdout, jobId) {
        return true;
      }
      if poll.status.None? || poll.status.value.exitCode != 0 {
        return false;
      }
      i := i + 1;
    }
    return false;
  }

  /** `print_image`: the `lp` command it issues, and whether the print
      succeeded given the `lp` answer and the poll rounds. */
  method PrintImage(printer: PrinterInfo, imagePath: string, lp: Option<CommandResult>, polls: seq<Poll>)
    returns (cmd: seq<string>, ok: bool)
    ensures cmd == ["lp", "-d", printer.cupsName] + OptionFlags(BaseOptions + GetPrintOptions(printer.model)) + [imagePath]
    ensures ok <==> Succeeded(lp) && JobId(lp.value.stdout).Some? && WaitOutcome(JobId(lp.value.stdout).value, polls)
  {
    cmd := PrintCommand(printer, imagePath);
    if lp.None? || lp.value.exitCode != 0 {
      return cmd, false;
    }
    var jobId := JobId(lp.value.stdout);
    if jobId.None? {
      return cmd, false;
    }
    ok := WaitForPrintCompletion(jobId.value, polls);
  }

  /** The `lp` command `print_image` builds: the four fixed options, then
      one "-o" per model option, then the image. */
  method PrintCommand(printer: PrinterInfo, imagePath: string) returns (cmd: seq<string>)
    ensures cmd == ["lp", "-d", printer.cupsName] + OptionFlags(BaseOptions + GetPrintOptions(printer.model)) + [imagePath]
  {
    var options := GetPrintOptions(printer.model);
    cmd := ["lp", "-d", printer.cupsName, "-o", "fit-to-page", "-o", "media=4x6", "-o", "ColorModel=RGB", "-o", "quality=5"];
    BaseFlags();
    assert BaseOptions + options[..0] == BaseOptions;
    var i := 0;
    while i < |options|
      invariant 0 <= i <= |options|
      invariant cmd == ["lp", "-d", printer.cupsName] + OptionFlags(BaseOptions + options[..i])
    {
      assert (BaseOptions + options[..i + 1])[..|BaseOptions| + i] == BaseOptions + options[..i];
      cmd := cmd + ["-o", options[i]];
      i := i + 1;
    }
    assert options[..i] == options;
    cmd := cmd + [imagePath];
  }

  /** The flags of the four fixed options. */
  lemma BaseFlags()
    ensures OptionFlags(BaseOptions) == ["-o", "fit-to-page", "-o", "media=4x6", "-o", "ColorModel=RGB", "-o", "quality=5"]
  {
    var b1: seq<string> := ["fit-to-page"];
    assert b1[..0] == [];
    var b2 := b1 + ["media=4x6"];
    assert b2[..1] == b1;
    var b3 := b2 + ["ColorModel=RGB"];
    assert b3[..2] == b2;
    var b4 := b3 + ["quality=5"];
    assert b4[..3] == b3;
    assert b4 == BaseOptions;
    assert OptionFlags(b1) == ["-o", "fit-to-page"];
    assert OptionFlags(b2) == ["-o", "fit-to-page", "-o", "media=4x6"];
    assert OptionFlags(b3) == ["-o", "fit-to-page", "-o", "media=4x6", "-o", "ColorModel=RGB"];
  }


  /** The command names the queue, puts the four fixed options first and the
      model's options after them, each behind its own "-o", and ends with the
      image path. */
  lemma PrintCommandLayout(printer: PrinterInfo, imagePath: string)
    ensures var cmd := ["lp", "-d", printer.cupsName] + OptionFlags(BaseOptions + GetPrintOptions(printer.model)) + [imagePath];
            var all := BaseOptions + GetPrintOptions(printer.model);
            && cmd[..3] == ["lp", "-d", printer.cupsName]
            && |cmd| == 4 + 2 * |all|
            && cmd[|cmd| - 1] == imagePath
            && (forall i :: 0 <= i < |all| ==> cmd[3 + 2 * i] == "-o" && cmd[4 + 2 * i] == all[i])
            && cmd[4] == "fit-to-page"
  {
    var all := BaseOptions + GetPrintOptions(printer.model);
    OptionFlagsShape(all);
    var head := ["lp", "-d", printer.cupsName];
    var flags := OptionFlags(all);
    var cmd := head + flags + [imagePath];
    forall i | 0 <= i < |all|
      ensures cmd[3 + 2 * i] == "-o" && cmd[4 + 2 * i] == all[i]
    {
      assert cmd[3 + 2 * i] == flags[2 * i] && cmd[4 + 2 * i] == flags[2 * i + 1];
    }
    assert all[0] == "fit-to-page";
  }

  // ---------------------------------------------------------------------------
  // The continuous print cycle

  /** What `test_printer` does, one event per step: the setup verdict, each
      connectivity check and its answer, the start of each cycle with the
      new `cycle_count`, each print attempt with its image and outcome, the
      end of each cycle, and the final report after a failed outer check. */
  datatype Event =
    | Setup(ok: bool)
    | Check(connected: bool)
    | CycleStart(cycle: nat)
    | Print(cycle: nat, index: nat, image: string, ok: bool)
    | CycleEnd(cycle: nat)
    | Disconnected(cycles: nat)

  /** Where the loop is: before the `while` check, or before the per-image
      check of image `index`. */
  datatype Phase = AtOuterCheck | AtImage(index: nat)

  /** The c-th connectivity answer; checks past the supplied answers find
      the printer gone, so every run ends. */
  function Answer(answers: seq<bool>, c: nat): bool {
    c < |answers| && answers[c]
  }

  /** The p-th print outcome; past the supplied outcomes a print fails. */
  function Outcome(outcomes: seq<bool>, p: nat): bool {
    p < |outcomes| && outcomes[p]
  }

  function Rank(phase: Phase): nat {
    if phase.AtOuterCheck? then 0 else phase.index + 1
  }

  /** The events from a given point of the loop on, having consumed `c`
      connectivity answers and `p` print outcomes. */
  function RunFrom(images: seq<string>, answers: seq<bool>, outcomes: seq<bool>,
                   cycle: nat, phase: Phase, c: nat, p: nat): seq<Event>
    requires c <= |answers|
    requires phase.AtImage? ==> phase.index <= |images|
    decreases |answers| - c, Rank(phase)
  {
    match phase
    case AtOuterCheck =>
      if Answer(answers, c) then
        [Check(true), CycleStart(cycle + 1)] + RunFrom(images, answers, outcomes, cycle + 1, AtImage(0), c + 1, p)
      else [Check(false), Disconnected(cycle)]
    case AtImage(i) =>
      if i == |images| then
        [CycleEnd(cycle)] + RunFrom(images, answers, outcomes, cycle, AtOuterCheck, c, p)
      else if Answer(answers, c) then
        [Check(true), Print(cycle, i, images[i], Outcome(outcomes, p))]
        + RunFrom(images, answers, outcomes, cycle, AtImage(i + 1), c + 1, p + 1)
      else [Check(false)]
  }

  /** A whole run: the setup verdict, then the loop if setup succeeded. */
  function TestRun(setupOk: bool, images: seq<string>, answers: seq<bool>, outcomes: seq<bool>): seq<Event> {
    [Setup(setupOk)] + if setupOk then RunFrom(images, answers, outcomes, 0, AtOuterCheck, 0, 0) else []
  }

  /** One pass of the `for` loop of `test_printer` over the image list:
      before each image a connectivity check; a failed check ends the test
      (`stopped`), otherwise the image is printed whatever the outcome; after
      the last image the cycle ends. `c` and `p` count the answers and
      outcomes consumed so far. */
  method PrintCycle(images: seq<string>, answers: seq<bool>, outcomes: seq<bool>, cycle: nat, c0: nat, p0: nat)
    returns (events: seq<Event>, stopped: bool, c: nat, p: nat)
    requires c0 <= |answers|
    ensures c0 <= c <= |answers|
    ensures stopped ==> events == RunFrom(images, answers, outcomes, cycle, AtImage(0), c0, p0)
    ensures !stopped ==> events + RunFrom(images, answers, outcomes, cycle, AtOuterCheck, c, p)
                         == RunFrom(images, answers, outcomes, cycle, AtImage(0), c0, p0)
  {
    ghost var total := RunFrom(images, answers, outcomes, cycle, AtImage(0), c0, p0);
    events := [];
    c, p := c0, p0;
    var i := 0;
    while i < |images|
      invariant 0 <= i <= |images|
      invariant c0 <= c <= |answers|
      invariant events + RunFrom(images, answers, outcomes, cycle, AtImage(i), c, p) == total
    {
      ghost var before := events;
      ghost var rest := RunFrom(images, answers, outcomes, cycle, AtImage(i), c, p);
      var connected := Answer(answers, c);
      if !connected {
        assert rest == [Check(false)];
        events := events + [Check(false)];
        return events, true, c, p;
      }
      var ok := Outcome(outcomes, p);
      ghost var next := RunFrom(images, answers, outcomes, cycle, AtImage(i + 1), c + 1, p + 1);
      assert rest == [Check(true), Print(cycle, i, images[i], ok)] + next;
      c := c + 1;
      p := p + 1;
      events := events + [Check(true), Print(cycle, i, images[i], ok)];
      AppendAssoc(before, [Check(true), Print(cycle, i, images[i], ok)], next);
      i := i + 1;
    }
    ghost var after := RunFrom(images, answers, outcomes, cycle, AtOuterCheck, c, p);
    assert RunFrom(images, answers, outcomes, cycle, AtImage(i), c, p) == [CycleEnd(cycle)] + after;
    AppendAssoc(events, [CycleEnd(cycle)], after);
    events := events + [CycleEnd(cycle)];
    stopped := false;
  }

  /** `test_printer`, with the setup answers, the image list generated once
      before the loop, the connectivity answers (what `is_printer_connected`
      returns, call by call) and the print outcomes (what `print_image`
      returns, call by call). */
  method TestPrinter(printer: PrinterInfo, remove: Option<CommandResult>, add: Option<CommandResult>,
                     setDefault: Option<CommandResult>, images: seq<string>, answers: seq<bool>,
                     outcomes: seq<bool>)
    returns (trace: seq<Event>)
    ensures trace == TestRun(remove.Some? && Succeeded(add) && setDefault.Some?, images, answers, outcomes)
  {
    var commands, setupOk := SetupPrinterInCups(printer, remove, add, setDefault);
    if !setupOk {
      return [Setup(false)];
    }
    var events := TestLoop(images, answers, outcomes);
    trace := [Setup(true)] + events;
  }

  /** The `while True` loop of `test_printer` after a successful setup. */
  method TestLoop(images: seq<string>, answers: seq<bool>, outcomes: seq<bool>) returns (trace: seq<Event>)
    ensures trace == RunFrom(images, answers, outcomes, 0, AtOuterCheck, 0, 0)
  {
    ghost var total := RunFrom(images, answers, outcomes, 0, AtOuterCheck, 0, 0);
    trace := [];
    var cycleCount := 0;
    var c := 0;
    var p := 0;
    while true
      invariant c <= |answers|
      invariant trace + RunFrom(images, answers, outcomes, cycleCount, AtOuterCheck, c, p) == total
      decreases |answers| - c
    {
      ghost var before := trace;
      var events, stopped;
      events, stopped, cycleCount, c, p := OuterCycle(images, answers, outcomes, cycleCount, c, p);
      trace := trace + events;
      if stopped {
        return;
      }
      AppendAssoc(before, events, RunFrom(images, answers, outcomes, cycleCount, AtOuterCheck, c, p));
    }
  }

  /** One turn of the `while True` loop of `test_printer`, from cycle
      `cycle0` with `c0` answers and `p0` outcomes consumed: the outer
      connectivity check, then the images of the cycle. */
  method OuterCycle(images: seq<string>, answers: seq<bool>, outcomes: seq<bool>, cycle0: nat, c0: nat, p0: nat)
    returns (events: seq<Event>, stopped: bool, cycle: nat, c: nat, p: nat)
    requires c0 <= |answers|
    ensures c0 < c <= |answers| || stopped
    ensures stopped ==> events == RunFrom(images, answers, outcomes, cycle0, AtOuterCheck, c0, p0)
    ensures !stopped ==> events + RunFrom(images, answers, outcomes, cycle, AtOuterCheck, c, p)
                         == RunFrom(images, answers, outcomes, cycle0, AtOuterCheck, c0, p0)
  {
    ghost var rest := RunFrom(images, answers, outcomes, cycle0, AtOuterCheck, c0, p0);
    cycle, c, p := cycle0, c0, p0;
    var connected := Answer(answers, c);
    if !connected {
      events := [Check(false), Disconnected(cycle)];
      return events, true, cycle, c, p;
    }
    cycle := cycle + 1;
    assert rest == [Check(true), CycleStart(cycle)] + RunFrom(images, answers, outcomes, cycle, AtImage(0), c + 1, p);
    var cycleEvents;
    cycleEvents, stopped, c, p := PrintCycle(images, answers, outcomes, cycle, c + 1, p);
    events := [Check(true), CycleStart(cycle)] + cycleEvents;
    if !stopped {
      assert events + RunFrom(images, answers, outcomes, cycle, AtOuterCheck, c, p)
          == [Check(true), CycleStart(cycle)] + (cycleEvents + RunFrom(images, answers, outcomes, cycle, AtOuterCheck, c, p));
    }
  }

  // ---------------------------------------------------------------------------
  // Ordering of a run

  /** Number of cycles started in `t`. */
  function Starts(t: seq<Event>): nat {
    if t == [] then 0 else (if t[0].CycleStart? then 1 else 0) + Starts(t[1..])
  }

  /** What an observer reading a run from the start remembers: the last two
      events and the number of cycles started so far. */
  datatype Monitor = Monitor(prev: Option<Event>, before: Option<Event>, starts: nat)

  const Fresh := Monitor(None, None, 0)

  function Next(m: Monitor, e: Event): Monitor {
    Monitor(Some(e), m.prev, m.starts + if e.CycleStart? then 1 else 0)
  }

  /** An outer check comes right after setup or after a completed cycle. */
  predicate AfterOuterCheck(e: Option<Event>) {
    e == Some(Setup(true)) || (e.Some? && e.value.CycleEnd?)
  }

  /** Event `e` may come next, given what the observer remembers. */
  predicate Allowed(images: seq<string>, m: Monitor, e: Event) {
    match e
    case Setup(_) => m.prev.None?
    case Check(_) =>
      m.prev.Some? && var q := m.prev.value;
      q == Setup(true) || q.CycleStart? || q.Print? || q.CycleEnd?
    case CycleStart(n) =>
      m.prev == Some(Check(true)) && AfterOuterCheck(m.before) && n == m.starts + 1
    case Print(n, i, image, _) =>
      m.prev == Some(Check(true)) && n == m.starts && i < |images| && image == images[i] && m.before.Some?
      && if i == 0 then m.before.value == CycleStart(n)
         else m.before.value.Print? && m.before.value.cycle == n && m.before.value.index == i - 1
    case CycleEnd(n) =>
      n == m.starts && m.prev.Some?
      && if |images| == 0 then m.prev.value == CycleStart(n)
         else m.prev.value.Print? && m.prev.value.cycle == n && m.prev.value.index == |images| - 1
    case Disconnected(n) =>
      m.prev == Some(Check(false)) && AfterOuterCheck(m.before) && n == m.starts
  }

  /** Every event of `t` is allowed where it occurs. */
  predicate Accepts(images: seq<string>, m: Monitor, t: seq<Event>)
    decreases |t|
  {
    t == [] || (Allowed(images, m, t[0]) && Accepts(images, Next(m, t[0]), t[1..]))
  }

  /** What the observer remembers after reading `t`. */
  function After(m: Monitor, t: seq<Event>): Monitor
    decreases |t|
  {
    if t == [] then m else After(Next(m, t[0]), t[1..])
  }

  /** The observer's state at a point of the loop. */
  predicate Ready(m: Monitor, cycle: nat, phase: Phase) {
    m.starts == cycle && m.prev.Some?
    && match phase
       case AtOuterCheck => AfterOuterCheck(m.prev)
       case AtImage(i) =>
         if i == 0 then m.prev.value == CycleStart(cycle)
         else m.prev.value.Print? && m.prev.value.cycle == cycle && m.prev.value.index == i - 1
  }

  lemma AcceptsCons(images: seq<string>, m: Monitor, e: Event, rest: seq<Event>)
    requires Allowed(images, m, e) && Accepts(images, Next(m, e), rest)
    ensures Accepts(images, m, [e] + rest)
  {
    assert ([e] + rest)[0] == e && ([e] + rest)[1..] == rest;
  }

  lemma {:induction false} RunAccepted(images: seq<string>, answers: seq<bool>, outcomes: seq<bool>,
                                       m: Monitor, cycle: nat, phase: Phase, c: nat, p: nat)
    requires c <= |answers|
    requires phase.AtImage? ==> phase.index <= |images|
    requires Ready(m, cycle, phase)
    ensures Accepts(images, m, RunFrom(images, answers, outcomes, cycle, phase, c, p))
    decreases |answers| - c, Rank(phase), 1
  {
    match phase
    case AtOuterCheck => OuterCheckAccepted(images, answers, outcomes, m, cycle, c, p);
    case AtImage(i) => ImageAccepted(images, answers, outcomes, m, cycle, i, c, p);
  }

  lemma {:induction false} OuterCheckAccepted(images: seq<string>, answers: seq<bool>, outcomes: seq<bool>,
                                              m: Monitor, cycle: nat, c: nat, p: nat)
    requires c <= |answers|
    requires Ready(m, cycle, AtOuterCheck)
    ensures Accepts(images, m, RunFrom(images, answers, outcomes, cycle, AtOuterCheck, c, p))
    decreases |answers| - c, Rank(AtOuterCheck), 0
  {
    if Answer(answers, c) {
      var m1 := Next(m, Check(true));
      var m2 := Next(m1, CycleStart(cycle + 1));
      var rest := RunFrom(images, answers, outcomes, cycle + 1, AtImage(0), c + 1, p);
      RunAccepted(images, answers, outcomes, m2, cycle + 1, AtImage(0), c + 1, p);
      AcceptsCons(images, m1, CycleStart(cycle + 1), rest);
      AcceptsCons(images, m, Check(true), [CycleStart(cycle + 1)] + rest);
      assert [Check(true), CycleStart(cycle + 1)] + rest == [Check(true)] + ([CycleStart(cycle + 1)] + rest);
    } else {
      var m1 := Next(m, Check(false));
      AcceptsCons(images, m1, Disconnected(cycle), []);
      AcceptsCons(images, m, Check(false), [Disconnected(cycle)] + []);
      assert [Check(false), Disconnected(cycle)] == [Check(false)] + ([Disconnected(cycle)] + []);
    }
  }

  lemma {:induction false} ImageAccepted(images: seq<string>, answers: seq<bool>, outcomes: seq<bool>,
                                         m: Monitor, cycle: nat, i: nat, c: nat, p: nat)
    requires c <= |answers| && i <= |images|
    requires Ready(m, cycle, AtImage(i))
    ensures Accepts(images, m, RunFrom(images, answers, outcomes, cycle, AtImage(i), c, p))
    decreases |answers| - c, Rank(AtImage(i)), 0
  {
    if i == |images| {
      var rest := RunFrom(images, answers, outcomes, cycle, AtOuterCheck, c, p);
      RunAccepted(images, answers, outcomes, Next(m, CycleEnd(cycle)), cycle, AtOuterCheck, c, p);
      AcceptsCons(images, m, CycleEnd(cycle), rest);
    } else if Answer(answers, c) {
      var e := Print(cycle, i, images[i], Outcome(outcomes, p));
      var m1 := Next(m, Check(true));
      var rest := RunFrom(images, answers, outcomes, cycle, AtImage(i + 1), c + 1, p + 1);
      RunAccepted(images, answers, outcomes, Next(m1, e), cycle, AtImage(i + 1), c + 1, p + 1);
      AcceptsCons(images, m1, e, rest);
      AcceptsCons(images, m, Check(true), [e] + rest);
      assert [Check(true), e] + rest == [Check(true)] + ([e] + rest);
    } else {
      AcceptsCons(images, m, Check(false), []);
      assert [Check(false)] + [] == [Check(false)];
    }
  }

  /** Every whole run is accepted from the start. */
  lemma TestRunAccepted(setupOk: bool, images: seq<string>, answers: seq<bool>, outcomes: seq<bool>)
    ensures Accepts(images, Fresh, TestRun(setupOk, images, answers, outcomes))
  {
    var rest := if setupOk then RunFrom(images, answers, outcomes, 0, AtOuterCheck, 0, 0) else [];
    if setupOk {
      RunAccepted(images, answers, outcomes, Next(Fresh, Setup(true)), 0, AtOuterCheck, 0, 0);
    }
    AcceptsCons(images, Fresh, Setup(setupOk), rest);
  }

  /** An accepted run allows each of its events in the state its prefix leaves. */
  lemma {:induction false} AcceptsAt(images: seq<string>, m: Monitor, t: seq<Event>, k: nat)
    requires Accepts(images, m, t) && k < |t|
    ensures Allowed(images, After(m, t[..k]), t[k])
    decreases k
  {
    if k > 0 {
      AcceptsAt(images, Next(m, t[0]), t[1..], k - 1);
      assert t[..k][0] == t[0] && t[..k][1..] == t[1..][..k - 1];
    }
  }

  /** The observer remembers the last two events and counts the starts. */
  lemma {:induction false} AfterFacts(m: Monitor, t: seq<Event>)
    ensures After(m, t).starts == m.starts + Starts(t)
    ensures After(m, t).prev == if t == [] then m.prev else Some(t[|t| - 1])
    ensures After(m, t).before == if |t| >= 2 then Some(t[|t| - 2]) else if |t| == 1 then m.prev else m.before
    decreases |t|
  {
    if t != [] {
      AfterFacts(Next(m, t[0]), t[1..]);
    }
  }

  /** The state after the first `k` events of a run from the start. */
  lemma PrefixState(t: seq<Event>, k: nat)
    requires k <= |t|
    ensures After(Fresh, t[..k]).starts == Starts(t[..k])
    ensures k >= 1 ==> After(Fresh, t[..k]).prev == Some(t[k - 1])
    ensures k == 0 ==> After(Fresh, t[..k]).prev.None?
    ensures k >= 2 ==> After(Fresh, t[..k]).before == Some(t[k - 2])
    ensures k < 2 ==> After(Fresh, t[..k]).before.None?
  {
    AfterFacts(Fresh, t[..k]);
  }

  /** Every print attempt comes right after a successful connectivity check;
      within a cycle images are attempted in list order, the first right
      after the cycle starts. */
  lemma PrintsFollowChecks(setupOk: bool, images: seq<string>, answers: seq<bool>, outcomes: seq<bool>)
    ensures var t := TestRun(setupOk, images, answers, outcomes);
            forall k :: 0 <= k < |t| && t[k].Print? ==>
              && 2 <= k && t[k - 1] == Check(true)
              && t[k].index < |images| && t[k].image == images[t[k].index]
              && (t[k].index == 0 ==> t[k - 2] == CycleStart(t[k].cycle))
              && (t[k].index > 0 ==> t[k - 2].Print? && t[k - 2].cycle == t[k].cycle
                                     && t[k - 2].index == t[k].index - 1)
  {
    var t := TestRun(setupOk, images, answers, outcomes);
    TestRunAccepted(setupOk, images, answers, outcomes);
    forall k | 0 <= k < |t| && t[k].Print?
      ensures 2 <= k && t[k - 1] == Check(true)
      ensures t[k].index < |images| && t[k].image == images[t[k].index]
      ensures t[k].index == 0 ==> t[k - 2] == CycleStart(t[k].cycle)
      ensures t[k].index > 0 ==> t[k - 2].Print? && t[k - 2].cycle == t[k].cycle && t[k - 2].index == t[k].index - 1
    {
      AcceptsAt(images, Fresh, t, k);
      PrefixState(t, k);
    }
  }

  /** Cycles are numbered 1, 2, 3, ... in order, and each starts right after
      a successful connectivity check. */
  lemma CyclesCountUp(setupOk: bool, images: seq<string>, answers: seq<bool>, outcomes: seq<bool>)
    ensures var t := TestRun(setupOk, images, answers, outcomes);
            forall k :: 0 <= k < |t| && t[k].CycleStart? ==>
              2 <= k && t[k - 1] == Check(true) && t[k].cycle == Starts(t[..k]) + 1
  {
    var t := TestRun(setupOk, images, answers, outcomes);
    TestRunAccepted(setupOk, images, answers, outcomes);
    forall k | 0 <= k < |t| && t[k].CycleStart?
      ensures 2 <= k && t[k - 1] == Check(true) && t[k].cycle == Starts(t[..k]) + 1
    {
      AcceptsAt(images, Fresh, t, k);
      PrefixState(t, k);
    }
  }

  /** A failed connectivity check ends the run; only the report of the
      cycles completed may follow it, and only after an outer check. A
      failed setup ends the run before any check. */
  lemma FailedCheckEndsRun(setupOk: bool, images: seq<string>, answers: seq<bool>, outcomes: seq<bool>)
    ensures var t := TestRun(setupOk, images, answers, outcomes);
            forall k :: 0 <= k < |t| && t[k] == Check(false) ==>
              k == |t| - 1 || (k == |t| - 2 && t[k + 1] == Disconnected(Starts(t[..k + 1])))
    ensures !setupOk ==> TestRun(setupOk, images, answers, outcomes) == [Setup(false)]
  {
    var t := TestRun(setupOk, images, answers, outcomes);
    TestRunAccepted(setupOk, images, answers, outcomes);
    forall k | 0 <= k < |t| && t[k] == Check(false)
      ensures k == |t| - 1 || (k == |t| - 2 && t[k + 1] == Disconnected(Starts(t[..k + 1])))
    {
      if k + 1 < |t| {
        AcceptsAt(images, Fresh, t, k + 1);
        PrefixState(t, k + 1);
        assert t[k + 1].Disconnected?;
        if k + 2 < |t| {
          AcceptsAt(images, Fresh, t, k + 2);
          PrefixState(t, k + 2);
          assert false;
        }
      }
    }
  }

  // ---------------------------------------------------------------------------
  // Print outcomes do not steer the loop

  /** An event with its print outcome forgotten. */
  function Shape(e: Event): Event {
    if e.Print? then e.(ok := false) else e
  }

  function Shapes(t: seq<Event>): seq<Event> {
    if t == [] then [] else [Shape(t[0])] + Shapes(t[1..])
  }

  lemma {:induction false} ShapesAppend(a: seq<Event>, b: seq<Event>)
    ensures Shapes(a + b) == Shapes(a) + Shapes(b)
  {
    if a == [] {
      assert a + b == b;
    } else {
      assert (a + b)[0] == a[0];
      assert (a + b)[1..] == a[1..] + b;
      ShapesAppend(a[1..], b);
    }
  }

  /** A failed print never aborts the cycle or changes what happens next:
      runs that differ only in print outcomes make the same checks, cycles
      and attempts, in the same order. */
  lemma {:induction false} OutcomesDoNotSteer(images: seq<string>, answers: seq<bool>, o1: seq<bool>, o2: seq<bool>,
                                              cycle: nat, phase: Phase, c: nat, p1: nat, p2: nat)
    requires c <= |answers|
    requires phase.AtImage? ==> phase.index <= |images|
    ensures Shapes(RunFrom(images, answers, o1, cycle, phase, c, p1)) == Shapes(RunFrom(images, answers, o2, cycle, phase, c, p2))
    decreases |answers| - c, Rank(phase), 1
  {
    match phase
    case AtOuterCheck =>
      if Answer(answers, c) {
        OutcomesDoNotSteer(images, answers, o1, o2, cycle + 1, AtImage(0), c + 1, p1, p2);
        ShapesAppend([Check(true), CycleStart(cycle + 1)], RunFrom(images, answers, o1, cycle + 1, AtImage(0), c + 1, p1));
        ShapesAppend([Check(true), CycleStart(cycle + 1)], RunFrom(images, answers, o2, cycle + 1, AtImage(0), c + 1, p2));
      }
    case AtImage(i) => ImageOutcomesDoNotSteer(images, answers, o1, o2, cycle, i, c, p1, p2);
  }

  lemma {:induction false} ImageOutcomesDoNotSteer(images: seq<string>, answers: seq<bool>, o1: seq<bool>, o2: seq<bool>,
                                                   cycle: nat, i: nat, c: nat, p1: nat, p2: nat)
    requires c <= |answers| && i <= |images|
    ensures Shapes(RunFrom(images, answers, o1, cycle, AtImage(i), c, p1)) == Shapes(RunFrom(images, answers, o2, cycle, AtImage(i), c, p2))
    decreases |answers| - c, Rank(AtImage(i)), 0
  {
    if i == |images| {
      OutcomesDoNotSteer(images, answers, o1, o2, cycle, AtOuterCheck, c, p1, p2);
      ShapesAppend([CycleEnd(cycle)], RunFrom(images, answers, o1, cycle, AtOuterCheck, c, p1));
      ShapesAppend([CycleEnd(cycle)], RunFrom(images, answers, o2, cycle, AtOuterCheck, c, p2));
    } else if Answer(answers, c) {
      OutcomesDoNotSteer(images, answers, o1, o2, cycle, AtImage(i + 1), c + 1, p1 + 1, p2 + 1);
      var h1 := [Check(true), Print(cycle, i, images[i], Outcome(o1, p1))];
      var h2 := [Check(true), Print(cycle, i, images[i], Outcome(o2, p2))];
      ShapesAppend(h1, RunFrom(images, answers, o1, cycle, AtImage(i + 1), c + 1, p1 + 1));
      ShapesAppend(h2, RunFrom(images, answers, o2, cycle, AtImage(i + 1), c + 1, p2 + 1));
      assert Shapes(h1) == Shapes(h2);
    }
  }

}
