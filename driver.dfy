/**
 The script's entry point: it reads a project name and a line of extra dependency
 names, rejects a name that is empty once stripped before touching anything, splits
 the extras on whitespace and runs the layout builder. The console reads are the
 two string parameters. The dependency installation that follows is not modelled:
 it writes outside the project's tree, and the final state of `Run` is the state
 before installation.
 */
module Driver {
  import opened Text
  import opened Manifest
  import opened Layout

  /** The extras as the driver computes them: `line.split() if line else []`.
      Every extra is non-empty and free of whitespace, there is none exactly when
      the line is blank, and the guard for the empty line changes nothing. */
  function ExtraRequirements(line: string): (extras: seq<string>)
    ensures forall k :: 0 <= k < |extras| ==> extras[k] != [] && NoSpace(extras[k])
    ensures extras == [] <==> AllSpace(line)
    ensures extras == Split(line)
  {
    if line != [] then Split(line) else []
  }

  /** The exit status of a run: 1 when the name is rejected, 0 otherwise. */
  method Run(fs: FileSystem, nameLine: string, extrasLine: string) returns (status: int)
    modifies fs
    ensures status == (if AllSpace(nameLine) then 1 else 0)
    ensures AllSpace(nameLine) ==> fs.State() == old(fs.State())
    ensures !AllSpace(nameLine) ==>
      fs.State() == Generated(old(fs.State()), Strip(nameLine), ExtraRequirements(extrasLine))
  {
    var projectName := Strip(nameLine);
    if projectName == [] {
      status := 1;
      return;
    }
    var extras := ExtraRequirements(extrasLine);
    fs.CreateProjectStructure(projectName, extras);
    status := 0;
  }

  /** Whatever the extras line holds, the manifest the driver has written lists the
      four core names and then the words of the line in order, one per line: 4 lines
      for a blank line and 4 + k lines for k words. */
  lemma DriverManifestLines(extrasLine: string)
    ensures Lines(ManifestText(ExtraRequirements(extrasLine))) == CoreRequirements + Split(extrasLine)
    ensures |Lines(ManifestText(ExtraRequirements(extrasLine)))| == 4 + |Split(extrasLine)|
  {
    ManifestLines(ExtraRequirements(extrasLine));
  }

  /** The extras line `redis celery` gives a manifest of six lines, the last two
      `redis` then `celery`. */
  lemma RedisCeleryManifest()
    ensures ExtraRequirements("redis celery") == ["redis", "celery"]
    ensures Lines(ManifestText(ExtraRequirements("redis celery"))) ==
      ["fastapi", "uvicorn", "pysqlite3", "jinja2", "redis", "celery"]
  {
    var ws := ["redis", "celery"];
    assert Join(" ", ws) == "redis celery";
    assert NoSpace(ws[0]) && NoSpace(ws[1]);
    SplitJoinWords(ws);
    DriverManifestLines("redis celery");
  }
}
