/** What the rig sees of an external command: its exit code and its standard
    output. Where the source catches an exception raised by `subprocess.run`
    (the program is missing, say), the call's answer is an
    `Option<CommandResult>` and `None` stands for the raised exception. */
module Process {

  datatype Option<T> = None | Some(value: T)

  datatype CommandResult = CommandResult(exitCode: int, stdout: string)

  /** The command ran and exited with status 0. */
  predicate Succeeded(r: Option<CommandResult>) {
    r.Some? && r.value.exitCode == 0
  }

  /** What a loop over the lines of a command's output appends: for each
      line in order, the value `pick` finds in it, if any. */
  function Collect<T>(lines: seq<string>, pick: string -> Option<T>): seq<T> {
    if lines == [] then []
    else
      var last := pick(lines[|lines| - 1]);
      Collect(lines[..|lines| - 1], pick) + if last.Some? then [last.value] else []
  }

  /** Concatenation is associative; stated for the loops that grow a trace
      while consuming the rest of a run. */
  lemma AppendAssoc<T>(a: seq<T>, b: seq<T>, c: seq<T>)
    ensures (a + b) + c == a + (b + c)
  {
  }

  /** One more line adds the value it gives, if any. */
  lemma CollectStep<T>(lines: seq<string>, i: nat, pick: string -> Option<T>)
    requires i < |lines|
    ensures Collect(lines[..i + 1], pick) == Collect(lines[..i], pick) + if pick(lines[i]).Some? then [pick(lines[i]).value] else []
  {
    assert lines[..i + 1][..i] == lines[..i];
  }

  /** The values of a longer output are those of its first part followed by
      those of the rest: order follows line order and nothing is merged. */
  lemma {:induction false} CollectAppend<T>(a: seq<string>, b: seq<string>, pick: string -> Option<T>)
    ensures Collect(a + b, pick) == Collect(a, pick) + Collect(b, pick)
    decreases |b|
  {
    if b == [] {
      assert a + b == a;
    } else {
      var b' := b[..|b| - 1];
      assert (a + b)[..|a + b| - 1] == a + b';
      assert (a + b)[|a + b| - 1] == b[|b| - 1];
      CollectAppend(a, b', pick);
    }
  }

  /** A value is collected exactly when some line yields it. */
  lemma {:induction false} CollectMembers<T>(lines: seq<string>, pick: string -> Option<T>, x: T)
    ensures x in Collect(lines, pick) <==> exists i :: 0 <= i < |lines| && pick(lines[i]) == Some(x)
    decreases |lines|
  {
    if lines != [] {
      var front := lines[..|lines| - 1];
      CollectMembers(front, pick, x);
      if x in Collect(lines, pick) && x !in Collect(front, pick) {
        assert pick(lines[|lines| - 1]) == Some(x);
      }
      if exists i :: 0 <= i < |lines| && pick(lines[i]) == Some(x) {
        var i :| 0 <= i < |lines| && pick(lines[i]) == Some(x);
        if i < |lines| - 1 {
          assert front[i] == lines[i];
        }
      }
    }
  }
}
