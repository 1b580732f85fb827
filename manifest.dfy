/**
 The dependency manifest `requirements.txt`: the four core package names in a fixed
 order, then the caller's extra names in the order given, one name per line.
 */
module Manifest {
  import opened Text

  /** The core dependencies, always written first and in this order. */
  const CoreRequirements: seq<string> := ["fastapi", "uvicorn", "pysqlite3", "jinja2"]

  /** The text of a file holding `lines`, each followed by a newline. */
  function Terminated(lines: seq<string>): string {
    if lines == [] then [] else lines[0] + "\n" + Terminated(lines[1..])
  }

  /** Joining with newlines and adding one final newline terminates every item. */
  lemma {:induction false} JoinTerminated(xs: seq<string>)
    requires xs != []
    ensures Join("\n", xs) + "\n" == Terminated(xs)
    decreases |xs|
  {
    if |xs| == 1 {
      assert xs[1..] == [];
    } else {
      JoinTerminated(xs[1..]);
      assert Join("\n", xs) + "\n" == xs[0] + "\n" + (Join("\n", xs[1..]) + "\n");
    }
  }

  /** The text that the generator's sequence of writes leaves in `requirements.txt`:
      the four core names, each with its newline, then, only if there are extras,
      the extras joined by newlines followed by one final newline. It is the file
      whose lines are the core names and then the extras. */
  function ManifestText(extras: seq<string>): (text: string)
    ensures text == Terminated(CoreRequirements + extras)
  {
    var text := "fastapi\n" + "uvicorn\n" + "pysqlite3\n" + "jinja2\n" +
      (if |extras| > 0 then Join("\n", extras) + "\n" else "");
    TerminatedAppend(CoreRequirements, extras);
    if |extras| > 0 then JoinTerminated(extras); text else text
  }

  lemma {:induction false} TerminatedAppend(a: seq<string>, b: seq<string>)
    ensures Terminated(a + b) == Terminated(a) + Terminated(b)
    decreases |a|
  {
    if a == [] {
      assert a + b == b;
    } else {
      assert (a + b)[0] == a[0] && (a + b)[1..] == a[1..] + b;
      TerminatedAppend(a[1..], b);
      assert a[0] + "\n" + (Terminated(a[1..]) + Terminated(b))
          == (a[0] + "\n" + Terminated(a[1..])) + Terminated(b);
    }
  }

  /** Length of the first line of `t`: the characters before the first newline. */
  function LineLength(t: string): (k: nat)
    ensures k <= |t| && '\n' !in t[..k]
    ensures k < |t| ==> t[k] == '\n'
  {
    if t == [] || t[0] == '\n' then 0
    else
      var k := 1 + LineLength(t[1..]);
      assert t[..k] == [t[0]] + t[1..][..k - 1];
      k
  }

  /** The lines of a text file, without their newline characters; a final line with
      no newline still counts as a line. */
  function Lines(t: string): seq<string>
    decreases |t|
  {
    if t == [] then []
    else
      var k := LineLength(t);
      if k == |t| then [t] else [t[..k]] + Lines(t[k + 1..])
  }

  predicate NoNewline(xs: seq<string>) {
    forall k :: 0 <= k < |xs| ==> '\n' !in xs[k]
  }

  lemma {:induction false} LineLengthOf(a: string, b: string)
    requires '\n' !in a
    ensures LineLength(a + "\n" + b) == |a|
    decreases |a|
  {
    var t := a + "\n" + b;
    if a == [] {
      assert t[0] == '\n';
    } else {
      assert t[0] == a[0] && t[1..] == a[1..] + "\n" + b;
      assert a[0] in a;
      assert forall c :: c in a[1..] ==> c in a;
      LineLengthOf(a[1..], b);
    }
  }

  /** Reading lines back from a newline-terminated text gives the original lines,
      provided none of them holds a newline itself. */
  lemma {:induction false} LinesOfTerminated(lines: seq<string>)
    requires NoNewline(lines)
    ensures Lines(Terminated(lines)) == lines
    decreases |lines|
  {
    if lines != [] {
      var t := Terminated(lines);
      assert t == lines[0] + "\n" + Terminated(lines[1..]);
      LineLengthOf(lines[0], Terminated(lines[1..]));
      var k := |lines[0]|;
      assert t[..k] == lines[0];
      assert t[k + 1..] == Terminated(lines[1..]);
      LinesOfTerminated(lines[1..]);
    }
  }

  /** The manifest's lines are `fastapi`, `uvicorn`, `pysqlite3`, `jinja2`, then the
      extras in the order supplied: 4 lines without extras, 4 + k with k extras. */
  lemma ManifestLines(extras: seq<string>)
    requires NoNewline(extras)
    ensures Lines(ManifestText(extras)) == CoreRequirements + extras
    ensures |Lines(ManifestText(extras))| == 4 + |extras|
    ensures Lines(ManifestText(extras))[..4] == CoreRequirements
    ensures Lines(ManifestText(extras))[4..] == extras
  {
    assert NoNewline(CoreRequirements);
    LinesOfTerminated(CoreRequirements + extras);
  }

  /** With no extras the manifest is exactly the four core lines. */
  lemma ManifestWithoutExtras()
    ensures ManifestText([]) == "fastapi\nuvicorn\npysqlite3\njinja2\n"
  {
  }
}
