# PRig printer test rig — a Dafny model

PRig is a test rig for photo printers: Canon SELPHY CP1300, CP1500 and CP910, and DNP QW410.
It finds printers on USB, registers each one as a CUPS queue, and prints test images in a loop until the printer is unplugged or a stop is requested.
Almost everything it does goes through command-line tools: `lsusb`, `system_profiler`, `lpadmin`, `lp`, `lpstat`, `lpoptions` and `cancel`.
This project models the logic between those calls. Each tool's answer, an exit code plus its standard output, is an input. `None` stands for a call that raised.

Modules (one per source file, plus two shared ones):

- `Strings` (strings.dfy) — the Python `str` operations the rig relies on, over `seq<char>`: `splitlines`, `split`, `strip`, `in`, `startswith`, `lower`, `replace`, `re.findall(r'\w+')`, and decimal numbers.
- `Process` (process.dfy) — `Option`, a command's result, and `Collect`, the append-per-line loop shared by the `lpstat -p` scanners.
- `PrinterDetection` (printer_detection.dfy) — the five-entry printer catalog, the `lsusb` and `system_profiler` parsers, printer descriptors, the capability override and parser, and the communication predicate.
- `PrinterTest` (printer_test.dfy) — the automatic rig. It models queue setup, the print command and job id, the completion poll, and the continuous cycle loop of `test_printer`. That loop is proved against a specification function and an ordering monitor.
- `WebApp` (web_app.dfy) — the web-controlled rig. It models the print command and options, and the continuous loop gated by a stop flag. It also has a `Registry` class for the `test_threads`/`stop_flags` dictionaries and the status derived from them. The web rig's own `is_printer_connected` and `wait_for_print_completion` (src/web_app.py:201-261) do what the automatic rig's do, apart from logging, so `WebApp` uses `PrinterTest.IsPrinterConnected`, `PrinterTest.JobId` and `PrinterTest.WaitOutcome` for them.
- `Utils` (utils.dfy) — the `lpoptions -l` capability parser, the config merge, the report summary and `format_duration` on whole seconds.
- `SimplePrinterTest` (simple_printer_test.dfy) — the USB and queue scans, and a `Watcher` class for the known-printer set.
- `WorkingPrinterTest` (working_printer_test.dfy) — the idle-queue scan, `test_print`, and the sequencing of `main`.

Oracles: the environment is passed in as parameters.
- `Path.exists` is a set of existing paths.
- `platform.system()` is a boolean.
- Successive connectivity checks are a sequence of booleans. A check past its end finds the printer gone.
- Successive print outcomes are a sequence. A print past its end fails.
- Completion polls are a sequence of poll rounds.
- The web stop flag is the index of the first flag read that sees it set. The flag is only ever set, never cleared.

The two continuous loops are specified as event traces. Each loop method returns the trace it produces and is proved equal to a function of its inputs (`PrinterTest.TestRun`, `WebApp.WebRun`). Ordering properties are then proved about those functions, using a monitor that reads the trace from the start.

Some behaviour of the program worth knowing, which the model follows:
- no print is retried;
- no queue is enabled or re-accepted after registration;
- device URIs are not validated;
- an `lp` answer with no job id (a blank one) is a failed print, through the exception handler;
- the job id is the last whitespace-separated field of `lp`'s answer. On an answer of the form "request id is <id> (1 file(s))" that field is "file(s))", so the completion poll looks for that text (`PrinterTest.LpAnswerJobId`).

## Model

| member | source | states |
|---|---|---|
| PrinterDetection.CreatePrinterInfo | src/printer_detection.py:183-208 | None exactly for a vendor:product key outside the catalog. Otherwise the ids are copied unchanged from the USB record, and name, model, vendor and driver come from the catalog entry. The queue name and URI are derived from the entry, and the USB location reads "Bus <bus> Device <device>" from the record. |
| PrinterDetection.CupsNameShape | src/printer_detection.py:196 | The queue name starts with "prig_" and has no space. It is 5 longer than the name, and each following character is the lowercased name character, or "_" for a space. |
| PrinterDetection.Cp1300QueueName | src/printer_detection.py:196 | "Canon SELPHY CP1300" gives the queue "prig_canon_selphy_cp1300". |
| PrinterDetection.EscapeRoundTrip | src/printer_detection.py:193 | For a name without '%', the "%20" escaping leaves no space, and unescaping gives the name back. |
| PrinterDetection.DeviceUriShape | src/printer_detection.py:193 | The device URI has no space and starts with "usb://" + vendor + "/". Its remainder unescapes to the catalog name. |
| PrinterDetection.CatalogTextsAreClean | src/printer_detection.py:33-66 | No catalog vendor has a space and no catalog name has a '%', so the URI facts apply to every entry. |
| PrinterDetection.LsusbRoundTrip | src/printer_detection.py:120 | The Bus/Device/ID pattern matcher reads back exactly the bus, device, both lowercase 4-hex ids and the description of a well-formed `lsusb` line. |
| PrinterDetection.DeviceRoundTrip | src/printer_detection.py:120 | From the device number on, the pattern reads back the device, both ids and the description of a well-formed line. |
| PrinterDetection.SearchLsusb | src/printer_detection.py:120 | A match found anywhere in a line is well formed: decimal bus and device, 4-hex ids, a non-empty description. |
| PrinterDetection.GetLinuxUsbDevices | src/printer_detection.py:101-139 | A non-zero exit gives no devices. Otherwise the result is the line-by-line parse, where a line yields a record only if it matches and its /dev/bus/usb/BBB/DDD node exists. |
| PrinterDetection.LinuxDevicesValid | src/printer_detection.py:112-137 | Every Linux record has 4-hex ids, "vid:pid" as its key, and an existing device path built from the zero-padded bus and device. |
| PrinterDetection.GetMacosUsbDevices | src/printer_detection.py:141-181 | The result is the run of the line-by-line accumulator over the `system_profiler` output. |
| PrinterDetection.ReadProfilerField | src/printer_detection.py:150-166 | A line updates the accumulator as the one-line reader specifies. A product-id line sets the product id, otherwise a vendor-id line sets the vendor id, otherwise a manufacturer line sets the description, each only when its pattern matches. |
| PrinterDetection.ProfilerRunInvariant | src/printer_detection.py:168-179 | A record is emitted as soon as both ids are seen, so the accumulator is never left complete. Every emitted record has bus and device "001", 4-hex ids, the "vid:pid" key and a non-empty description. |
| PrinterDetection.EmissionResets | src/printer_detection.py:168-179 | A line emits at most one record, and the line that emits one leaves the accumulator empty. |
| PrinterDetection.UnknownWithoutManufacturer | src/printer_detection.py:163-179 | From the start or right after an emission, every record completed without a manufacturer line in between has the description "Unknown Device"; no manufacturer is carried over from an earlier record. |
| PrinterDetection.GetUsbDevices | src/printer_detection.py:86-99 | On macOS the result is the profiler parse, or nothing when the call raised. Elsewhere it is the `lsusb` parse, or nothing when the call failed. |
| PrinterDetection.SupportedMembers | src/printer_detection.py:71-84 | A record is kept exactly when it is an input record whose key is in the catalog. |
| PrinterDetection.GetConnectedPrinters | src/printer_detection.py:71-84 | There is one descriptor per supported record, in input order, each the catalog resolution of that record. |
| PrinterDetection.ParsePrinterOptions | src/printer_detection.py:248-280 | The four capability lists are the line-by-line extension over the stripped lines of the `lpoptions -l` output. |
| PrinterDetection.AddOptionLine | src/printer_detection.py:258-278 | One line extends the four lists by exactly what that line contributes, each at its end. |
| PrinterDetection.OptionLine | src/printer_detection.py:258-278 | An unrecognised line contributes nothing. A PageSize/ line contributes its word runs with an inner 'x' as paper sizes. A MediaType/, Quality/ or ColorModel/ line contributes the word runs of its second ':'-field to its own list, and nothing without ':'. |
| PrinterDetection.SecondField | src/printer_detection.py:267-277 | `line.split(':')[1]`: the text after the first ':' up to the next ':' or the end, holding no ':'; empty when the line has none. |
| Strings.WordRunsAt | src/utils.py:109-130 | `re.findall(r'(\w+)')` yields the maximal runs of word characters, each where it occurs, in increasing position, and misses none. |
| Strings.InnerXRunsAt | src/printer_detection.py:262 | `re.findall(r'(\w+x\w+)')` yields exactly the maximal word runs with an 'x' at an inner position, in increasing position, and misses none. |
| PrinterDetection.OptionsOfAppend | src/printer_detection.py:256-278 | Tokens are appended in line order: parsing two blocks of lines is parsing each and joining the lists. |
| PrinterDetection.GetPrinterCapabilities | src/printer_detection.py:210-246 | A "Canon" model gets the fixed Canon lists, and a "DNP" model the fixed DNP lists, whatever `lpoptions` printed. Any other model gets the parse of a successful `lpoptions -l`, otherwise empty lists. |
| PrinterDetection.Communicates | src/printer_detection.py:488-499 | True exactly when `lpstat -p` ran, exited 0, and some four-character window of its output lower-cases to "idle". |
| PrinterDetection.IdleInCapitals | src/printer_detection.py:495 | Exit code 0 with "IDLE" in capitals anywhere in the output gives true. |
| PrinterTest.IsPrinterConnected | src/printer_test.py:95-110 | True exactly when detection did not raise and some detected printer has the same vendor and product id. |
| PrinterTest.SetupPrinterInCups | src/printer_test.py:112-140 | The old queue is removed first, then the queue is added. The setup fails when a call raises or `lpadmin -p` exits non-zero; only after a successful add is the queue made the default. |
| PrinterTest.SetupOrder | src/printer_test.py:116-138 | The first command removes the queue. The default is set only as the third command, after an add that exited 0. |
| PrinterTest.GetPrintOptions | src/printer_test.py:177-194 | Three options starting with "PageSize=4x6" for a "Canon" or "DNP" prefix, none otherwise. Canon asks for photo paper and high quality; DNP for ribbon media and fine quality. |
| PrinterTest.OptionFlagsShape | src/printer_test.py:157-159 | Each option becomes "-o" and the option, in order. |
| PrinterTest.PrintImage | src/printer_test.py:142-175 | The command is `lp -d <queue>`, then the four fixed options, then the model options, then the path. The print succeeds exactly when `lp` exited 0, its output has a job id, and the completion poll succeeds for it. |
| PrinterTest.PrintCommand | src/printer_test.py:148-161 | The command is `lp -d <queue>`, then "-o" with each of the four fixed options, then "-o" with each model option in order, then the image path. |
| PrinterTest.PrintCommandLayout | src/printer_test.py:148-161 | The command has length 4 + 2·options. The options alternate with "-o" from position 3, start with "fit-to-page", and the image path comes last. |
| PrinterTest.JobId | src/printer_test.py:166 | The job id is the token that ends the stripped output: non-empty, without whitespace, and preceded by whitespace or nothing. It is missing exactly when the output is blank, where the source's exception handler answers false. |
| PrinterTest.JobIdOfLastToken | src/printer_test.py:166 | Whenever the stripped output ends in a whitespace-free token after whitespace, that token is the job id. |
| PrinterTest.LpAnswerJobId | src/printer_test.py:165-168 | For an answer "request id is <id> (1 file(s))", the job id taken is "file(s))", whatever the request id. |
| PrinterTest.WaitForPrintCompletion | src/printer_test.py:196-219 | The poll loop's answer equals the poll outcome over the given rounds. |
| PrinterTest.WaitOutcomeMeaning | src/printer_test.py:200-219 | Success exactly when some round's completed listing exits 0 and names the job, and every earlier round found `lpstat -o` still succeeding. Running out of rounds, the timeout, is failure. |
| PrinterTest.PrintCycle | src/printer_test.py:66-84 | One pass over the images equals the loop specification from the first image. It stops on a failed per-image check, and otherwise ends back at the outer check. |
| PrinterTest.OuterCycle | src/printer_test.py:61-91 | One turn of the outer loop equals the loop specification from an outer check. A stop is exactly a failed check, and otherwise the turn consumes at least one answer and ends at the next outer check. |
| PrinterTest.TestLoop | src/printer_test.py:59-91 | The loop after setup equals the specification from the first outer check, with no cycle and no answer consumed. |
| PrinterTest.TestPrinter | src/printer_test.py:48-93 | The trace of a whole test equals the specification: the setup verdict, then the cycle loop only if setup succeeded. |
| PrinterTest.PrintsFollowChecks | src/printer_test.py:62-81 | Every print comes right after a successful check. Images are attempted in list order, the first right after its cycle starts, and a failed print moves on to the next image. |
| PrinterTest.CyclesCountUp | src/printer_test.py:59-63 | Cycles are numbered 1, 2, 3, … in order, each starting right after a successful connectivity check. |
| PrinterTest.FailedCheckEndsRun | src/printer_test.py:52-70 | A failed check ends the run. Only after an outer check is it followed by the report of the cycles completed. A failed setup ends the run before any check. |
| PrinterTest.OutcomesDoNotSteer | src/printer_test.py:73-81 | Print outcomes never change which checks and prints happen: two runs that differ only in outcomes have the same trace once outcomes are forgotten. |
| WebApp.GetPrintOptions | src/web_app.py:222-241 | Two options starting "media=w288h432" for a "DNP" prefix, including "fit-to-page" and no colour model; three starting "media=4x6" otherwise, with "ColorModel=RGB" and "quality=5". |
| WebApp.PrintImage | src/web_app.py:171-199 | The command is `lp -d <queue> -o fit-to-page`, one "-o" per model option in order, then the path. Success exactly when `lp` exited 0, a job id exists and the poll succeeds. |
| WebApp.PrintCommand | src/web_app.py:177-186 | The command is `lp -d <queue> -o fit-to-page`, then "-o" with each model option in order, then the image path. |
| WebApp.PrintCommandLayout | src/web_app.py:177-186 | The command has length 4 + 2·options and starts `lp -d <queue> -o fit-to-page`. The options follow in order and the path comes last. A DNP model asks for "fit-to-page" a second time. |
| WebApp.SetupPrinterInCups | src/web_app.py:145-169 | The same steps and failure as the automatic rig, with the web labels. |
| WebApp.WebImages | src/web_app.py:88-115 | The image loop equals the loop specification from the first image up to the check after the images. A set flag ends it early, and the count of flag reads never goes down. |
| WebApp.WebCycle | src/web_app.py:88-123 | One pass over the images and the check after it equals the loop specification from the first image, and reads the stop flag at least once. |
| WebApp.StartContinuousTest | src/web_app.py:53-137 | The trace of a web test equals the specification: nothing when setup raised, otherwise the start and the loop. |
| WebApp.WebRunProperties | src/web_app.py:79-123 | Each cycle starts right after a read that found the flag unset and a check that found the printer. Cycles are numbered one more than the cycles before. Every print follows an unset-flag read. Once a read finds the flag set, only further set reads and the final report follow: no image is started and the cycle-completed event is skipped. |
| WebApp.TestIdSeconds | src/web_app.py:333 | For one queue, two test ids are equal exactly when they were taken in the same second. |
| WebApp.ActiveTests | src/web_app.py:283-288 | One entry per registered test and no other, saying whether its thread is alive and whether its stop flag is set. |
| WebApp.SystemStatus | src/web_app.py:290 | "active" exactly when some test is registered, "idle" exactly when none is. |
| WebApp.Registry.constructor | src/web_app.py:32-41 | Empty registry, no printers, status "idle". |
| WebApp.Registry.StartTest | src/web_app.py:324-353 | 400 for a missing or empty printer, and for an id already registered, with no change. 500 with no change when the printer has no queue name. Otherwise the stop flag (unset) and the thread are both registered under "test_<queue>_<seconds>", and the answer is 200, or 500 when the printer has no name. The two dictionaries keep the same keys. |
| WebApp.Registry.StopTest | src/web_app.py:356-370 | 400 with no change for a missing, empty or unknown id. Otherwise only that test's flag is set. |
| WebApp.Registry.UpdateStatus | src/web_app.py:263-298 | A round where detection raised changes nothing. Otherwise it stores the detected printers, the active tests and the system status, leaving the registry unchanged. |
| WebApp.StartThenStop | src/web_app.py:324-370 | A stop request for a test that started answers 200, and the status derived afterwards shows the test as stopped. |
| Utils.ParsePrinterCapabilities | src/utils.py:93-133 | The four lists are the line-by-line extension over the stripped lines of the output. |
| Utils.CapabilityLine | src/utils.py:103-131 | An unrecognised line contributes nothing. A PageSize/ line contributes the word runs of the whole stripped line. MediaType/, Quality/ or PrintQuality/, and ColorModel/ lines contribute the word runs after the first ':' to their own list, or nothing without one. |
| Utils.AfterFirstColon | src/utils.py:115 | `line.split(':', 1)[1]`: the line is the colon-free text before the first ':', the ':', and the result. |
| Utils.CapabilitiesOfAppend | src/utils.py:103-131 | Tokens are appended in line order: parsing two blocks is parsing each and joining the lists. |
| Utils.AccumulateAppend | src/utils.py:104-131 | For any per-line contribution, parsing two blocks of lines joins the lists of the two blocks, in order. |
| Utils.AddCapabilityLine | src/utils.py:105-131 | One line extends the four lists by exactly what that line contributes, each at its end. |
| Utils.UnrecognisedLinesIgnored | src/utils.py:103-131 | Lines without a recognised prefix leave all four lists empty. |
| Utils.PageSizeLabelFirst | src/utils.py:107-110 | A PageSize/ line contributes the label "PageSize" itself as its first size. |
| Utils.LoadConfig | src/utils.py:164-177 | A decoded JSON object gives the default keys plus the user keys, with the user value winning per top-level key. A missing or unreadable file, or a document that is not an object, gives the defaults. |
| Utils.CountStatus | src/utils.py:210-211 | The count is the number of positions whose result has that "status" value, so it never exceeds the number of results. |
| Utils.PassedAndFailedDisjoint | src/utils.py:208-212 | Passed plus failed never exceeds the total. |
| Utils.ReportSummary | src/utils.py:205-213 | The total is the number of results, passed the number whose status is "success", failed the number whose status is "failed", and passed + failed ≤ total. |
| Utils.FormatDuration | src/utils.py:374-384 | Below 60 s the text ends in ".0 seconds" after the number; below an hour it ends in "s" and holds an "m"; from an hour on it ends in "m" and holds an "h". The numbers it holds are stated by the three round-trip lemmas below. |
| Utils.SecondsRoundTrip | src/utils.py:375-376 | Below 60 s, the text before ".0 seconds" reads back as the number of seconds, preceded by '-' when it is negative. |
| Utils.MinutesRoundTrip | src/utils.py:378-381 | From 60 s to under an hour, the text reads back as whole minutes and seconds, the seconds below 60. |
| Utils.HoursRoundTrip | src/utils.py:382-384 | From an hour on, the text reads back as hours and minutes below 60, the seconds truncated to the minute. |
| SimplePrinterTest.GetUsbPrinters | src/simple_printer_test.py:22-38 | A failed or raising `lsusb` gives nothing. Otherwise, for every line, every catalog entry whose id occurs in it, in catalog order. |
| SimplePrinterTest.LineHits | src/simple_printer_test.py:31-33 | The catalog entries whose id occurs in the line, in catalog order. |
| SimplePrinterTest.UsbPrintersMembers | src/simple_printer_test.py:30-33 | An entry is reported exactly when it is in the catalog and its id occurs in some line. |
| SimplePrinterTest.UsbPrintersAppend | src/simple_printer_test.py:30-33 | Reports are appended per line and never merged, so an id seen on two lines is reported twice. |
| SimplePrinterTest.GetCupsPrinters | src/simple_printer_test.py:40-60 | A failed or raising `lpstat -p` gives nothing. Otherwise each line's candidate, in line order. |
| SimplePrinterTest.CupsPrintersMeaning | src/simple_printer_test.py:48-55 | A queue is listed exactly when a line mentions "printer" and "idle", has it as its second token, and its lowercased name contains qw410, canon, cp1500 or selphy. Every listed name is one token. |
| SimplePrinterTest.PrintToPrinter | src/simple_printer_test.py:98-115 | The command is `lp -d <queue> <image>`, successful exactly when `lp` exited 0. |
| SimplePrinterTest.NextKnown | src/simple_printer_test.py:151-157 | After a round the known set is exactly the set of listed queues. |
| SimplePrinterTest.PrintedTo | src/simple_printer_test.py:137-149 | The queues printed to are listed and were not known: exactly the new ones when an image was made, none otherwise. |
| SimplePrinterTest.OncePerAppearance | src/simple_printer_test.py:126-157 | Over several rounds, a queue is printed to in a round exactly when an image was made then, and it is listed in that round but was not in the round before. |
| SimplePrinterTest.PrintEach | src/simple_printer_test.py:147-149 | Each new queue is printed to exactly once. |
| SimplePrinterTest.Watcher.Round | src/simple_printer_test.py:128-159 | The USB scan does not affect the round. The known set becomes the listed queues, even when no image was made, and the queues printed to are exactly the new ones, each once. |
| WorkingPrinterTest.GetIdlePrinters | src/working_printer_test.py:12-32 | A failed or raising `lpstat -p` gives nothing. Otherwise each line's candidate, in line order. |
| WorkingPrinterTest.IdlePrintersMeaning | src/working_printer_test.py:20-28 | A queue is listed exactly when a line mentions "printer", "idle" and "enabled", has it as its second token, and its lowercased name contains "qw410_4x6" or "qw410_4x4". |
| Process.CollectAppend | src/working_printer_test.py:20-28 | The queue scan's output follows line order: two blocks of lines give their lists one after the other. |
| Process.CollectMembers | src/simple_printer_test.py:48-55 | A value is collected exactly when some line yields it. |
| WorkingPrinterTest.TestPrint | src/working_printer_test.py:75-111 | All jobs on the queue are cancelled first, then `lp` is run. Success exactly when every command reached ran and `lp` exited 0; the job listing's content is ignored. |
| WorkingPrinterTest.Run | src/working_printer_test.py:113-145 | Nothing is tested without root, without idle printers or without an image. Otherwise every idle printer is tested in list order, and each result is that test print's outcome. |

## Left out

- Character classes: `\w`, `\d` and `lower()` are the ASCII ones. Python's Unicode letters and digits beyond ASCII are not modelled.
- Subprocess calls, `Path.exists` and `platform.system()` are inputs, not effects. The stderr text and the log and console messages are not modelled.
- Sleeps and the clock: the completion poll's 120-second timeout is the end of the given poll rounds, and the delays between prints and cycles are not modelled.
- Connectivity answers and print outcomes past the end of their input sequences read as "disconnected" and "failed". A test that is never disconnected and never stopped is therefore not modelled.
- Driver installation and PPD texts (`install_printer_drivers` and the PPD templates) are not part of this model.
- Test image generation (`generate_test_suite`, the embedded web image, `create_test_image`, `create_simple_image`) is not modelled. The images, or whether one could be made, are inputs, and an exception raised while making them is not modelled.
- The module imported by the web test for its embedded image (test_image_data) is not part of this model. The web test is given its image list, which the source fixes at one image.
- Flask routes, Socket.IO emits, threads and the background status thread are not modelled. The web loop's emits are events of its trace, and threads are opaque handles; the request body is a map of strings, so non-string JSON values are not modelled.
- WebApp.Registry.UpdateStatus: the `last_updated` timestamp and the descriptor-to-dictionary conversion are not modelled.
- The finally block of the web test calls `generator.cleanup()` on an undefined name (src/web_app.py:139), so the registry deletions after it never run. The registry never shrinks, and the model follows that.
- An exception from `PrinterInfo(**printer_info)` or from the image set-up in the web test is not modelled, nor is `test_error`. Every call inside the loop catches its own exceptions.
- The `test_stopped` report after a failed setup does not happen, because setup raises before the `try`. Such a test's trace is empty.
- The `KeyboardInterrupt` and generic-exception handlers of the watcher's loop are not modelled, nor its root check. The watcher is modelled one round at a time.
- SimplePrinterTest.PrintEach: the order in which a Python set yields the new queues is unspecified. The model proves each is printed to once, in some order.
- Utils.FormatDuration: `format_duration` is modelled on whole seconds. The float `.1f` formatting below 60 s of a fractional value is not modelled.
- Utils.Json: there is no float value. A config value that is a JSON float cannot be represented; the merge never looks at values, so it is unaffected.
- The environment helpers of src/utils.py (logging, config save, system info, temp cleanup, image validation, requirement checks, installation) and the report file write are not modelled.
- PrinterDetection.Cp1300QueueName: it takes the name as a parameter equal to the literal. Its equality with the catalog entry's name is stated by CreatePrinterInfo, not re-proved for the literal.
