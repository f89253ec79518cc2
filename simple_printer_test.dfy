/** The stand-alone watcher: it scans USB and the CUPS queue list every few
    seconds, prints a test image to each photo queue that has just appeared
    and forgets queues that have gone. */
module SimplePrinterTest {
  import opened Strings
  import opened Process

  /** The watcher's own catalog, in declaration order: USB id and model. */
  const Catalog: seq<(string, string)> := [
    ("04a9:327b", "Canon SELPHY CP1300"),
    ("04a9:3302", "Canon SELPHY CP1500"),
    ("04a9:327a", "Canon SELPHY CP910"),
    ("1343:0003", "DNP QW410"),
    ("1452:9201", "DNP Photo Printer")
  ]

  // ---------------------------------------------------------------------------
  // USB scan

  /** The catalog entries among `entries` whose id occurs in `line`, in order. */
  function CatalogHits(line: string, entries: seq<(string, string)>): seq<(string, string)> {
    if entries == [] then []
    else
      var e := entries[|entries| - 1];
      CatalogHits(line, entries[..|entries| - 1]) + if Contains(line, e.0) then [e] else []
  }

  /** Everything `get_usb_printers` appends for the lines of `lsusb`. */
  function UsbPrinters(lines: seq<string>, catalog: seq<(string, string)>): seq<(string, string)> {
    if lines == [] then []
    else UsbPrinters(lines[..|lines| - 1], catalog) + CatalogHits(lines[|lines| - 1], catalog)
  }

  /** `get_usb_printers`: nothing when `lsusb` raised or exited non-zero,
      otherwise every catalog hit of every line. */
  method GetUsbPrinters(lsusb: Option<CommandResult>) returns (printers: seq<(string, string)>)
    ensures !Succeeded(lsusb) ==> printers == []
    ensures Succeeded(lsusb) ==> printers == UsbPrinters(Lines(lsusb.value.stdout), Catalog)
  {
    if lsusb.None? || lsusb.value.exitCode != 0 {
      return [];
    }
    var lines := Lines(lsusb.value.stdout);
    printers := [];
    var i := 0;
    while i < |lines|
      invariant 0 <= i <= |lines|
      invariant printers == UsbPrinters(lines[..i], Catalog)
    {
      var hits := LineHits(lines[i], Catalog);
      printers := printers + hits;
      UsbPrintersStep(lines, i, Catalog);
      i := i + 1;
    }
    assert lines[..i] == lines;
  }

  /** The inner `for` loop of `get_usb_printers`: the catalog entries whose
      id the line contains, in catalog order. */
  method LineHits(line: string, catalog: seq<(string, string)>) returns (hits: seq<(string, string)>)
    ensures hits == CatalogHits(line, catalog)
  {
    hits := [];
    var j := 0;
    while j < |catalog|
      invariant 0 <= j <= |catalog|
      invariant hits == CatalogHits(line, catalog[..j])
    {
      assert catalog[..j + 1][..j] == catalog[..j];
      if Contains(line, catalog[j].0) {
        hits := hits + [catalog[j]];
      }
      j := j + 1;
    }
    assert catalog[..j] == catalog;
  }

  /** One more line adds its catalog hits. */
  lemma UsbPrintersStep(lines: seq<string>, i: nat, catalog: seq<(string, string)>)
    requires i < |lines|
    ensures UsbPrinters(lines[..i + 1], catalog) == UsbPrinters(lines[..i], catalog) + CatalogHits(lines[i], catalog)
  {
    assert lines[..i + 1][..i] == lines[..i];
  }

  lemma {:induction false} CatalogHitsMembers(line: string, entries: seq<(string, string)>, e: (string, string))
    ensures e in CatalogHits(line, entries) <==> e in entries && Contains(line, e.0)
    decreases |entries|
  {
    if entries != [] {
      var front := entries[..|entries| - 1];
      CatalogHitsMembers(line, front, e);
      assert entries == front + [entries[|entries| - 1]];
    }
  }

  /** Some line mentions `id`. */
  predicate SeenIn(lines: seq<string>, id: string) {
    exists i :: 0 <= i < |lines| && Contains(lines[i], id)
  }

  lemma SeenInSnoc(lines: seq<string>, id: string)
    requires lines != []
    ensures SeenIn(lines, id) <==> SeenIn(lines[..|lines| - 1], id) || Contains(lines[|lines| - 1], id)
  {
    var front := lines[..|lines| - 1];
    if SeenIn(lines, id) && !Contains(lines[|lines| - 1], id) {
      var i :| 0 <= i < |lines| && Contains(lines[i], id);
      assert front[i] == lines[i];
    }
    if SeenIn(front, id) {
      var i :| 0 <= i < |front| && Contains(front[i], id);
      assert lines[i] == front[i];
    }
  }

  /** An entry is reported exactly when it is in the catalog and its id
      occurs in some line. */
  lemma {:induction false} UsbPrintersMembers(lines: seq<string>, catalog: seq<(string, string)>, e: (string, string))
    ensures e in UsbPrinters(lines, catalog) <==> e in catalog && SeenIn(lines, e.0)
    decreases |lines|
  {
    if lines != [] {
      var front := lines[..|lines| - 1];
      var last := lines[|lines| - 1];
      UsbPrintersMembers(front, catalog, e);
      CatalogHitsMembers(last, catalog, e);
      SeenInSnoc(lines, e.0);
      assert UsbPrinters(lines, catalog) == UsbPrinters(front, catalog) + CatalogHits(last, catalog);
    }
  }

  /** Hits are appended line by line and never merged: the report for two
      runs of lines is the two reports one after the other, so an entry seen
      on two lines is reported twice. */
  lemma {:induction false} UsbPrintersAppend(a: seq<string>, b: seq<string>, catalog: seq<(string, string)>)
    ensures UsbPrinters(a + b, catalog) == UsbPrinters(a, catalog) + UsbPrinters(b, catalog)
    decreases |b|
  {
    if b == [] {
      assert a + b == a;
    } else {
      var b', last := b[..|b| - 1], b[|b| - 1];
      var hits := CatalogHits(last, catalog);
      assert (a + b)[..|a + b| - 1] == a + b';
      assert (a + b)[|a + b| - 1] == last;
      assert UsbPrinters(a + b, catalog) == UsbPrinters(a + b', catalog) + hits;
      assert UsbPrinters(b, catalog) == UsbPrinters(b', catalog) + hits;
      UsbPrintersAppend(a, b', catalog);
      AppendAssoc(UsbPrinters(a, catalog), UsbPrinters(b', catalog), hits);
    }
  }

  // ---------------------------------------------------------------------------
  // CUPS queue scan

  /** The lowercased queue name mentions one of the photo printer words. */
  predicate IsPhotoQueue(name: string) {
    exists word :: word in ["qw410", "canon", "cp1500", "selphy"] && Contains(Lower(name), word)
  }

  /** The queue a line of `lpstat -p` contributes: its second token, when
      the line mentions "printer" and "idle" and the token names a photo
      queue. */
  function CupsCandidate(line: string): Option<string> {
    if Contains(line, "printer") && Contains(line, "idle") then
      var parts := Split(line);
      if |parts| >= 2 && IsPhotoQueue(parts[1]) then Some(parts[1]) else None
    else None
  }

  /** `get_cups_printers`: nothing when `lpstat -p` raised or exited
      non-zero, otherwise the candidates of its lines in order. */
  method GetCupsPrinters(lpstat: Option<CommandResult>) returns (printers: seq<string>)
    ensures !Succeeded(lpstat) ==> printers == []
    ensures Succeeded(lpstat) ==> printers == Collect(Lines(lpstat.value.stdout), CupsCandidate)
  {
    if lpstat.None? || lpstat.value.exitCode != 0 {
      return [];
    }
    var lines := Lines(lpstat.value.stdout);
    printers := [];
    var i := 0;
    while i < |lines|
      invariant 0 <= i <= |lines|
      invariant printers == Collect(lines[..i], CupsCandidate)
    {
      CollectStep(lines, i, CupsCandidate);
      var line := lines[i];
      if Contains(line, "printer") && Contains(line, "idle") {
        var parts := Split(line);
        if |parts| >= 2 {
          var name := parts[1];
          if IsPhotoQueue(name) {
            printers := printers + [name];
          }
        }
      }
      i := i + 1;
    }
    assert lines[..i] == lines;
  }

  /** A queue is listed exactly when some line mentions "printer" and
      "idle" and has it as a second token naming a photo queue; every listed
      name is a single token. */
  lemma CupsPrintersMeaning(lines: seq<string>, q: string)
    ensures q in Collect(lines, CupsCandidate) <==>
              exists i :: 0 <= i < |lines| && Contains(lines[i], "printer") && Contains(lines[i], "idle")
                          && |Split(lines[i])| >= 2 && Split(lines[i])[1] == q && IsPhotoQueue(q)
    ensures q in Collect(lines, CupsCandidate) ==> q != [] && NoSpace(q)
  {
    CollectMembers(lines, CupsCandidate, q);
    if q in Collect(lines, CupsCandidate) {
      var i :| 0 <= i < |lines| && CupsCandidate(lines[i]) == Some(q);
      SplitFields(lines[i]);
      assert Split(lines[i])[1] in Split(lines[i]);
    }
  }

  // ---------------------------------------------------------------------------
  // Printing and the known-printer set

  /** `print_to_printer`: `lp -d <queue> <image>`, successful exactly when
      `lp` ran and exited 0. */
  method PrintToPrinter(queue: string, imagePath: string, lp: Option<CommandResult>) returns (cmd: seq<string>, ok: bool)
    ensures cmd == ["lp", "-d", queue, imagePath]
    ensures ok <==> Succeeded(lp)
  {
    cmd := ["lp", "-d", queue, imagePath];
    if lp.None? {
      return cmd, false;
    }
    ok := lp.value.exitCode == 0;
  }

  /** The known set after one round: the new queues are added, then the
      queues no longer listed are removed. */
  function NextKnown(known: set<string>, current: set<string>): (next: set<string>)
    ensures next == current
  {
    var added := known + (current - known);
    added - (added - current)
  }

  /** The queues printed to in one round: the new ones, when a test image
      could be made. */
  function PrintedTo(known: set<string>, current: set<string>, imageMade: bool): (printed: set<string>)
    ensures printed <= current && printed !! known
    ensures imageMade ==> printed == current - known
    ensures !imageMade ==> printed == {}
  {
    if current - known != {} && imageMade then current - known else {}
  }

  /** The queues printed to in each of several rounds, starting from
      `known`. */
  function PrintedInRounds(known: set<string>, currents: seq<set<string>>, images: seq<bool>): (rounds: seq<set<string>>)
    requires |images| == |currents|
    ensures |rounds| == |currents|
    decreases |currents|
  {
    if currents == [] then []
    else [PrintedTo(known, currents[0], images[0])]
         + PrintedInRounds(NextKnown(known, currents[0]), currents[1..], images[1..])
  }

  /** A queue is printed to in round `j` exactly when a test image was made
      in that round and the queue is listed now but was not listed in the
      round before: one test print per appearance. */
  lemma {:induction false} OncePerAppearance(known: set<string>, currents: seq<set<string>>, images: seq<bool>,
                                             j: nat, q: string)
    requires |images| == |currents| && j < |currents|
    ensures q in PrintedInRounds(known, currents, images)[j] <==>
              images[j] && q in currents[j] && q !in (if j == 0 then known else currents[j - 1])
    decreases j
  {
    if j > 0 {
      OncePerAppearance(NextKnown(known, currents[0]), currents[1..], images[1..], j - 1, q);
      assert currents[1..][j - 1] == currents[j];
      if j > 1 {
        assert currents[1..][j - 2] == currents[j - 1];
      }
    }
  }

  /** The queues `lpstat -p` lists, as a set. */
  function Listed(lpstat: Option<CommandResult>): set<string> {
    Elements(if Succeeded(lpstat) then Collect(Lines(lpstat.value.stdout), CupsCandidate) else [])
  }

  /** Python's `set(...)` of a list of names. */
  function Elements(names: seq<string>): (r: set<string>)
    ensures forall q :: q in r <==> q in names
  {
    set q | q in names
  }

  /** The `for` loop over the new queues: each is printed to once, in
      whatever order the set yields them. */
  method PrintEach(newPrinters: set<string>, lpAnswers: seq<Option<CommandResult>>) returns (printed: seq<string>)
    ensures forall q :: q in printed <==> q in newPrinters
    ensures |printed| == |newPrinters|
  {
    printed := [];
    var todo := newPrinters;
    while todo != {}
      invariant todo <= newPrinters
      invariant forall q :: q in printed <==> q in newPrinters - todo
      invariant |printed| + |todo| == |newPrinters|
      decreases |todo|
    {
      var q :| q in todo;
      var answer := if |printed| < |lpAnswers| then lpAnswers[|printed|] else None;
      var cmd, ok := PrintToPrinter(q, "/tmp/prig_test.png", answer);
      printed := printed + [q];
      todo := todo - {q};
    }
  }

  /** An empty difference means inclusion. */
  lemma NoneLeft(a: set<string>, b: set<string>)
    requires a - b == {}
    ensures a <= b
  {
    forall x | x in a ensures x in b {
      assert x !in a - b;
    }
  }

  /** The watcher's state between rounds. */
  class Watcher {
    var known: set<string>

    constructor()
      ensures known == {}
    {
      known := {};
    }

    /** One round of the main loop, with the `lsusb` and `lpstat -p`
        answers, whether a test image could be made and the `lp` answer for
        each print. The USB scan runs but nothing depends on it; the queues
        printed to are the new ones, each once; afterwards the known set is
        the set of listed queues, whether or not an image was made. */
    method Round(lsusb: Option<CommandResult>, lpstat: Option<CommandResult>, imageMade: bool, lpAnswers: seq<Option<CommandResult>>)
      returns (printed: seq<string>)
      modifies this
      ensures known == NextKnown(old(known), Listed(lpstat))
      ensures forall q :: q in printed <==> q in PrintedTo(old(known), Listed(lpstat), imageMade)
      ensures |printed| == |PrintedTo(old(known), Listed(lpstat), imageMade)|
    {
      var usbPrinters := GetUsbPrinters(lsusb);
      var cupsPrinters := GetCupsPrinters(lpstat);
      var current := Elements(cupsPrinters);
      var newPrinters := current - known;
      printed := [];
      if newPrinters != {} {
        if imageMade {
          printed := PrintEach(newPrinters, lpAnswers);
        }
        known := known + newPrinters;
      }
      if newPrinters == {} {
        NoneLeft(current, known);
      }
      var disconnected := known - current;
      if disconnected != {} {
        known := known - disconnected;
      } else {
        NoneLeft(known, current);
      }
    }
  }
}
