/**
 The layout builder `create_project_structure`: it creates five directories under
 the project root, writes seven backend files whose content the suffix dispatch
 chooses, writes the dependency manifest and writes three static assets.

 The file system is abstract: a set of directory paths and a map from file path to
 content. `Generated` states the whole effect of one run on that state, the
 `FileSystem` class performs it step by step as the source does, and the lemmas
 state what a run guarantees.
 */
module Layout {
  import opened Text
  import opened Templates
  import opened Manifest

  type Path = string

  datatype FsState = FsState(dirs: set<Path>, files: map<Path, string>)

  /** `f"{dir}/{name}"`. */
  function Sub(dir: Path, name: string): Path {
    dir + "/" + name
  }

  /** The directories `os.makedirs(path, exist_ok=True)` makes exist: `path` itself
      and every non-empty prefix of it that ends just before a `/`, that is, the path
      and each directory above it. */
  function MadeBy(path: Path): (made: set<Path>)
    ensures forall d :: d in made <==> d == path || Ancestor(d, path)
  {
    var made := {path} + set i | 0 < i < |path| && path[i] == '/' :: path[..i];
    assert forall d :: Ancestor(d, path) ==> d == path[..|d|] && d in made;
    made
  }

  /** The text before the last `/` of `path`: the directory `open` writes into. It
      is a prefix of `path`; when `path` holds a `/` the character after it is the
      last `/`, and otherwise it is empty. */
  function Parent(path: Path): (dir: Path)
    ensures |dir| <= |path| && dir == path[..|dir|]
    ensures '/' in path ==> |dir| < |path| && path[|dir|] == '/' && '/' !in path[|dir| + 1..]
    ensures '/' !in path ==> dir == []
  {
    if path == [] then []
    else if path[|path| - 1] == '/' then
      assert path[|path| - 1 + 1..] == [];
      path[..|path| - 1]
    else
      var init := path[..|path| - 1];
      var dir := Parent(init);
      assert path == init + [path[|path| - 1]];
      assert forall c :: c in path ==> c in init || c == path[|path| - 1];
      assert '/' in init ==> path[|dir| + 1..] == init[|dir| + 1..] + [path[|path| - 1]];
      dir
  }

  /** Storing a second value under the same key forgets the first. */
  lemma Overwrite(f: map<Path, string>, k: Path, x: string, y: string)
    ensures f[k := x][k := y] == f[k := y]
  {
  }

  /** `d` is a directory strictly inside the tree rooted at `p`. */
  predicate Under(d: Path, p: Path) {
    |p| + 1 <= |d| && d[..|p| + 1] == p + "/"
  }

  /** `d` is one of the directories above `p` when `p` itself holds a `/`. */
  predicate Ancestor(d: Path, p: Path) {
    0 < |d| < |p| && p[|d|] == '/' && d == p[..|d|]
  }

  /** The directories requested under the project root, in the source's order. */
  const DirNames: seq<string> := ["static/js", "static/css", "static/images", "static/fonts", "templates"]

  /** The backend files, in the order the source writes them. */
  const BackendNames: seq<string> :=
    ["main.py", "api.py", "models.py", "schemas.py", "database.py", "crud.py", "init_db.py"]

  /** Every file a run writes, relative to the project root. */
  const FileNames: seq<string> :=
    BackendNames + ["requirements.txt", "static/js/script.js", "static/css/style.css", "templates/index.html"]

  /** What each of the seven backend files is meant to hold: the four templates and
      the placeholder for `models.py`, `schemas.py` and `crud.py`. */
  const BackendTemplates: seq<string> :=
    [MainPy, ApiPy, Placeholder, Placeholder, DatabasePy, Placeholder, InitDbPy]

  /** What each file of `FileNames` is meant to hold. */
  function ExpectedContents(extras: seq<string>): seq<string> {
    BackendTemplates + [ManifestText(extras), StaticJs, StaticCss, IndexHtml]
  }

  /** The source's `backend_files` list for project root `p`. */
  function BackendPaths(p: Path): seq<Path> {
    seq(|BackendNames|, k requires 0 <= k < |BackendNames| => Sub(p, BackendNames[k]))
  }

  /** Every path of `FileNames` under root `p`. */
  function FilePaths(p: Path): seq<Path> {
    seq(|FileNames|, k requires 0 <= k < |FileNames| => Sub(p, FileNames[k]))
  }

  /** The directories a run makes exist under root `p`. */
  function LayoutDirs(p: Path): set<Path> {
    MadeBy(Sub(p, "static/js")) + MadeBy(Sub(p, "static/css")) + MadeBy(Sub(p, "static/images")) +
    MadeBy(Sub(p, "static/fonts")) + MadeBy(Sub(p, "templates"))
  }

  /** The backend files among `paths`, each with the content the dispatch picks. */
  function BackendFiles(paths: seq<Path>): map<Path, string> {
    map f | f in paths :: TemplateFor(f)
  }

  /** The files a run writes under root `p`, with the content each ends up holding.
      All of them lie inside the project's tree. */
  function GeneratedFiles(p: Path, extras: seq<string>): (written: map<Path, string>)
    ensures forall f :: f in written ==> Under(f, p)
  {
    BackendPathsUnder(p);
    UnderSub(p, "requirements.txt");
    UnderSub(p, "static/js/script.js");
    UnderSub(p, "static/css/style.css");
    UnderSub(p, "templates/index.html");
    BackendFiles(BackendPaths(p))
      [Sub(p, "requirements.txt") := ManifestText(extras)]
      [Sub(p, "static/js/script.js") := StaticJs]
      [Sub(p, "static/css/style.css") := StaticCss]
      [Sub(p, "templates/index.html") := IndexHtml]
  }

  /** The state after one run of the layout builder on state `s`: the layout's
      directories are added and every generated file is overwritten. Nothing is
      removed, and every file that was not there before lies inside the project's
      tree. */
  function Generated(s: FsState, p: Path, extras: seq<string>): (after: FsState)
    ensures s.dirs <= after.dirs && s.files.Keys <= after.files.Keys
    ensures forall f :: f in after.files && f !in s.files ==> Under(f, p)
  {
    FsState(s.dirs + LayoutDirs(p), s.files + GeneratedFiles(p, extras))
  }

  lemma UnderSub(p: Path, name: string)
    ensures Under(Sub(p, name), p)
  {
    assert Sub(p, name)[..|p| + 1] == p + "/";
  }

  lemma BackendPathsUnder(p: Path)
    ensures forall f :: f in BackendPaths(p) ==> Under(f, p)
  {
    forall k | 0 <= k < |BackendNames| ensures Under(BackendPaths(p)[k], p) {
      UnderSub(p, BackendNames[k]);
    }
  }

  // ----- path facts -----

  /** A path formed by `Sub` can be taken apart again. */
  lemma SubParts(dir: Path, name: string)
    ensures |Sub(dir, name)| == |dir| + 1 + |name|
    ensures Sub(dir, name)[..|dir|] == dir && Sub(dir, name)[|dir|] == '/'
    ensures Sub(dir, name)[|dir| + 1..] == name
  {
  }

  lemma SubInjective(dir: Path, a: string, b: string)
    requires Sub(dir, a) == Sub(dir, b)
    ensures a == b
  {
    SubParts(dir, a);
    SubParts(dir, b);
  }

  /** The directory part of `f"{dir}/{name}"` is `dir` when `name` holds no `/`. */
  lemma {:induction false} ParentOfSub(dir: Path, name: string)
    requires '/' !in name
    ensures Parent(Sub(dir, name)) == dir
    decreases |name|
  {
    var path := Sub(dir, name);
    if name == [] {
      assert path[..|path| - 1] == dir;
    } else {
      var shorter := name[..|name| - 1];
      assert path[|path| - 1] == name[|name| - 1];
      assert name[|name| - 1] in name;
      assert path[..|path| - 1] == Sub(dir, shorter);
      assert forall c :: c in shorter ==> c in name;
      ParentOfSub(dir, shorter);
    }
  }

  /** `endswith` on `f"{dir}/{name}"` looks only at `name`, for a suffix with no `/`. */
  lemma EndsWithSub(dir: Path, name: string, suffix: string)
    requires '/' !in suffix
    ensures EndsWith(Sub(dir, name), suffix) <==> EndsWith(name, suffix)
  {
    var path := Sub(dir, name);
    SubParts(dir, name);
    if |suffix| <= |name| {
      assert path[|path| - |suffix|..] == name[|name| - |suffix|..];
    }
  }

  /** The directories `makedirs` adds for a path inside root `p` are `p`, the
      directories above `p`, or directories inside `p`'s tree. */
  lemma MadeByWithin(p: Path, rel: string, d: Path)
    requires d in MadeBy(Sub(p, rel))
    ensures d == p || Ancestor(d, p) || Under(d, p)
  {
    var path := Sub(p, rel);
    SubParts(p, rel);
    if d != path {
      var i :| 0 < i < |path| && path[i] == '/' && d == path[..i];
      if i < |p| {
        assert p[i] == path[i];
        assert d == p[..i];
      } else if i > |p| {
        assert d[..|p| + 1] == path[..|p| + 1];
      }
    } else {
      assert d[..|p| + 1] == path[..|p| + 1];
    }
  }

  // ----- what a run guarantees -----

  /** The dispatch on a backend path depends only on the file name. */
  lemma DispatchOnName(p: Path, name: string)
    ensures TemplateFor(Sub(p, name)) == TemplateFor(name)
  {
    EndsWithSub(p, name, "main.py");
    EndsWithSub(p, name, "api.py");
    EndsWithSub(p, name, "database.py");
    EndsWithSub(p, name, "init_db.py");
  }

  /** The suffix chain sends each of the seven backend file names to the content
      meant for it. */
  lemma NameTemplate(k: nat)
    requires k < |BackendNames|
    ensures TemplateFor(BackendNames[k]) == BackendTemplates[k]
  {
    match k
    case 0 => assert EndsWith("main.py", "main.py");
    case 1 => assert !EndsWith("api.py", "main.py") && EndsWith("api.py", "api.py");
    case 2 =>
      assert !EndsWith("models.py", "main.py") && !EndsWith("models.py", "api.py");
      assert !EndsWith("models.py", "database.py") && !EndsWith("models.py", "init_db.py");
    case 3 =>
      assert !EndsWith("schemas.py", "main.py") && !EndsWith("schemas.py", "api.py");
      assert !EndsWith("schemas.py", "database.py") && !EndsWith("schemas.py", "init_db.py");
    case 4 =>
      assert !EndsWith("database.py", "main.py") && !EndsWith("database.py", "api.py");
      assert EndsWith("database.py", "database.py");
    case 5 =>
      assert !EndsWith("crud.py", "main.py") && !EndsWith("crud.py", "api.py");
      assert !EndsWith("crud.py", "database.py") && !EndsWith("crud.py", "init_db.py");
    case 6 =>
      assert !EndsWith("init_db.py", "main.py") && !EndsWith("init_db.py", "api.py");
      assert !EndsWith("init_db.py", "database.py") && EndsWith("init_db.py", "init_db.py");
  }

  /** The dispatch on the backend file at position `k`, for any project root. */
  lemma BackendDispatchAt(p: Path, k: nat)
    requires k < |BackendNames|
    ensures TemplateFor(Sub(p, BackendNames[k])) == BackendTemplates[k]
  {
    DispatchOnName(p, BackendNames[k]);
    NameTemplate(k);
  }

  /** The backend dispatch, for any project root: `main.py`, `api.py`, `database.py`
      and `init_db.py` get their templates and the other three the placeholder. */
  lemma BackendDispatch(p: Path)
    ensures forall k :: 0 <= k < |BackendNames| ==>
      TemplateFor(Sub(p, BackendNames[k])) == BackendTemplates[k]
  {
    forall k | 0 <= k < |BackendNames|
      ensures TemplateFor(Sub(p, BackendNames[k])) == BackendTemplates[k]
    {
      BackendDispatchAt(p, k);
    }
  }

  /** Exactly four of the seven backend files get real content: those at positions
      0, 1, 4 and 6 (`main.py`, `api.py`, `database.py`, `init_db.py`), and those
      four contents are pairwise distinct. */
  lemma FourRealBackendFiles()
    ensures forall k :: 0 <= k < |BackendTemplates| ==>
      (BackendTemplates[k] != Placeholder <==> k == 0 || k == 1 || k == 4 || k == 6)
    ensures forall j, k :: j in {0, 1, 4, 6} && k in {0, 1, 4, 6} && j != k ==>
      BackendTemplates[j] != BackendTemplates[k]
  {
    assert MainPy[2] != Placeholder[2] && ApiPy[2] != Placeholder[2];
    assert DatabasePy[2] != Placeholder[2] && InitDbPy[2] != Placeholder[2];
    assert MainPy[2] != ApiPy[2] && MainPy[2] != DatabasePy[2] && MainPy[2] != InitDbPy[2];
    assert ApiPy[2] != DatabasePy[2] && ApiPy[2] != InitDbPy[2];
    assert DatabasePy[10] != InitDbPy[10];
  }

  /** The eleven file names are pairwise distinct. */
  lemma FileNamesDistinct()
    ensures forall i, j :: 0 <= i < j < |FileNames| ==> FileNames[i] != FileNames[j]
  {
    forall i, j | 0 <= i < j < |FileNames|
      ensures FileNames[i] != FileNames[j]
    {
      assert |FileNames[i]| != |FileNames[j]| || FileNames[i][0] != FileNames[j][0];
    }
  }

  /** A sequence without repetitions has as many distinct elements as entries. */
  lemma {:induction false} DistinctCardinality(xs: seq<Path>)
    requires forall i, j :: 0 <= i < j < |xs| ==> xs[i] != xs[j]
    ensures |set x | x in xs| == |xs|
    decreases |xs|
  {
    if xs != [] {
      DistinctCardinality(xs[1..]);
      assert (set x | x in xs) == {xs[0]} + (set x | x in xs[1..]);
      assert xs[0] !in xs[1..];
    }
  }

  /** The paths of a run, backend files first, then the manifest and the assets. */
  lemma FilePathsParts(p: Path)
    ensures FilePaths(p) == BackendPaths(p) +
      [Sub(p, "requirements.txt"), Sub(p, "static/js/script.js"),
       Sub(p, "static/css/style.css"), Sub(p, "templates/index.html")]
  {
  }

  lemma FilePathsDistinct(p: Path)
    ensures forall i, j :: 0 <= i < j < |FileNames| ==> FilePaths(p)[i] != FilePaths(p)[j]
  {
    FileNamesDistinct();
    forall i, j | 0 <= i < j < |FileNames|
      ensures FilePaths(p)[i] != FilePaths(p)[j]
    {
      if FilePaths(p)[i] == FilePaths(p)[j] { SubInjective(p, FileNames[i], FileNames[j]); }
    }
  }

  /** A run writes exactly eleven files, all of them inside the project's tree: the
      seven backend files, `requirements.txt`, `script.js`, `style.css` and
      `index.html`. */
  lemma GeneratedPaths(p: Path, extras: seq<string>)
    ensures forall f :: f in GeneratedFiles(p, extras) <==> f in FilePaths(p)
    ensures |GeneratedFiles(p, extras)| == 11
    ensures forall f :: f in GeneratedFiles(p, extras) ==> Under(f, p)
  {
    FilePathsParts(p);
    var keys := GeneratedFiles(p, extras).Keys;
    assert keys == set f | f in FilePaths(p);
    FilePathsDistinct(p);
    DistinctCardinality(FilePaths(p));
    forall f | f in GeneratedFiles(p, extras) ensures Under(f, p) {
      var k :| 0 <= k < |FileNames| && f == FilePaths(p)[k];
      SubParts(p, FileNames[k]);
      assert f[..|p| + 1] == p + "/";
    }
  }

  /** Whatever the project root, every generated file holds the content meant for
      its name: the backend files their dispatched template or the placeholder,
      `requirements.txt` the manifest, and the assets their fixed text. The contents
      do not depend on the project name; only the paths do. */
  lemma GeneratedContents(p: Path, extras: seq<string>)
    ensures forall k :: 0 <= k < |FileNames| ==>
      FilePaths(p)[k] in GeneratedFiles(p, extras) &&
      GeneratedFiles(p, extras)[FilePaths(p)[k]] == ExpectedContents(extras)[k]
  {
    FilePathsParts(p);
    FilePathsDistinct(p);
    BackendDispatch(p);
    var paths := FilePaths(p);
    forall k | 0 <= k < |FileNames|
      ensures paths[k] in GeneratedFiles(p, extras) &&
              GeneratedFiles(p, extras)[paths[k]] == ExpectedContents(extras)[k]
    {
      if k < |BackendNames| {
        assert paths[k] != paths[7] && paths[k] != paths[8] && paths[k] != paths[9] && paths[k] != paths[10];
        assert paths[k] == BackendPaths(p)[k];
        assert BackendFiles(BackendPaths(p))[paths[k]] == BackendTemplates[k];
      } else {
        assert paths[7] != paths[8] && paths[7] != paths[9] && paths[7] != paths[10];
        assert paths[8] != paths[9] && paths[8] != paths[10] && paths[9] != paths[10];
      }
    }
  }

  /** Every written file ends up holding its fixed content whatever it held before:
      writes overwrite. */
  lemma RunOverwrites(s: FsState, p: Path, extras: seq<string>)
    ensures forall k :: 0 <= k < |FileNames| ==>
      FilePaths(p)[k] in Generated(s, p, extras).files &&
      Generated(s, p, extras).files[FilePaths(p)[k]] == ExpectedContents(extras)[k]
  {
    GeneratedContents(p, extras);
  }

  /** After a run the requested directories exist, together with their parents
      `p/static` and, for a non-empty name, `p` itself. */
  lemma LayoutDirsExist(p: Path)
    ensures forall k :: 0 <= k < |DirNames| ==> Sub(p, DirNames[k]) in LayoutDirs(p)
    ensures Sub(p, "static") in LayoutDirs(p)
    ensures p != [] ==> p in LayoutDirs(p)
  {
    var js := Sub(p, "static/js");
    SubParts(p, "static/js");
    assert js[..|p| + 7] == Sub(p, "static") && js[|p| + 7] == '/';
    if p != [] {
      assert js[..|p|] == p;
    }
  }

  /** A run changes nothing outside the project's tree: every file it touches is
      under `p/`, and every directory it adds is `p`, one of `p`'s own parents when
      the name holds a `/`, or a directory under `p/`. With no `/` in the name only
      `p` and paths under `p/` change. */
  lemma RunFrame(s: FsState, p: Path, extras: seq<string>)
    ensures forall f :: !Under(f, p) ==>
      (f in Generated(s, p, extras).files <==> f in s.files) &&
      (f in s.files ==> Generated(s, p, extras).files[f] == s.files[f])
    ensures forall d :: d in Generated(s, p, extras).dirs && d !in s.dirs ==>
      d == p || Ancestor(d, p) || Under(d, p)
    ensures '/' !in p ==> forall d :: d in Generated(s, p, extras).dirs && d !in s.dirs ==>
      d == p || Under(d, p)
    ensures s.dirs <= Generated(s, p, extras).dirs
  {
    GeneratedPaths(p, extras);
    forall d | d in LayoutDirs(p) ensures d == p || Ancestor(d, p) || Under(d, p) {
      if d in MadeBy(Sub(p, "static/js")) { MadeByWithin(p, "static/js", d); }
      else if d in MadeBy(Sub(p, "static/css")) { MadeByWithin(p, "static/css", d); }
      else if d in MadeBy(Sub(p, "static/images")) { MadeByWithin(p, "static/images", d); }
      else if d in MadeBy(Sub(p, "static/fonts")) { MadeByWithin(p, "static/fonts", d); }
      else { MadeByWithin(p, "templates", d); }
    }
    forall d | Ancestor(d, p) ensures p[|d|] in p { }
  }

  /** Running the generator twice with the same inputs leaves the state one run
      leaves. */
  lemma RunIdempotent(s: FsState, p: Path, extras: seq<string>)
    ensures Generated(Generated(s, p, extras), p, extras) == Generated(s, p, extras)
  {
    var once := Generated(s, p, extras);
    assert once.files + GeneratedFiles(p, extras) == once.files;
    assert once.dirs + LayoutDirs(p) == once.dirs;
  }

  /** The directory set of a real file system: every parent of a directory is one. */
  ghost predicate Closed(dirs: set<Path>) {
    forall d, i :: d in dirs && 0 < i < |d| && d[i] == '/' ==> d[..i] in dirs
  }

  /** `makedirs` keeps the directory set closed under parents, and on a directory
      that already exists it changes nothing (`exist_ok=True`). */
  lemma MakeDirsClosed(dirs: set<Path>, path: Path)
    requires Closed(dirs)
    ensures Closed(dirs + MadeBy(path))
    ensures path in dirs ==> dirs + MadeBy(path) == dirs
  {
    forall d, i | d in MadeBy(path) && 0 < i < |d| && d[i] == '/'
      ensures d[..i] in MadeBy(path)
    {
      if d != path {
        var j :| 0 < j < |path| && path[j] == '/' && d == path[..j];
        assert d[..i] == path[..i] && path[i] == '/';
      }
    }
    if path in dirs {
      forall d | d in MadeBy(path) ensures d in dirs {
        if d != path {
          var j :| 0 < j < |path| && path[j] == '/' && d == path[..j];
        }
      }
    }
  }

  /** A run keeps the directory set closed under parents. */
  lemma RunKeepsClosed(s: FsState, p: Path, extras: seq<string>)
    requires Closed(s.dirs)
    ensures Closed(Generated(s, p, extras).dirs)
  {
    var d1 := s.dirs + MadeBy(Sub(p, "static/js"));
    var d2 := d1 + MadeBy(Sub(p, "static/css"));
    var d3 := d2 + MadeBy(Sub(p, "static/images"));
    var d4 := d3 + MadeBy(Sub(p, "static/fonts"));
    MakeDirsClosed(s.dirs, Sub(p, "static/js"));
    MakeDirsClosed(d1, Sub(p, "static/css"));
    MakeDirsClosed(d2, Sub(p, "static/images"));
    MakeDirsClosed(d3, Sub(p, "static/fonts"));
    MakeDirsClosed(d4, Sub(p, "templates"));
    assert Generated(s, p, extras).dirs == d4 + MadeBy(Sub(p, "templates"));
  }

  /** The file system the generator runs against: the directories that exist and
      the content of every file. */
  class FileSystem {
    var dirs: set<Path>
    var files: map<Path, string>

    constructor (dirs0: set<Path>, files0: map<Path, string>)
      ensures dirs == dirs0 && files == files0
    {
      dirs := dirs0;
      files := files0;
    }

    function State(): FsState
      reads this
    {
      FsState(dirs, files)
    }

    /** `os.makedirs(path, exist_ok=True)`: `path` and all its missing parents. */
    method MakeDirs(path: Path)
      modifies this
      ensures dirs == old(dirs) + MadeBy(path)
      ensures files == old(files)
    {
      dirs := dirs + MadeBy(path);
    }

    /** `open(path, "w")`: the file is created, or truncated if it exists; the
        directory it goes into must exist. */
    method Open(path: Path)
      requires Parent(path) == [] || Parent(path) in dirs
      modifies this
      ensures files == old(files)[path := ""]
      ensures dirs == old(dirs)
    {
      files := files[path := ""];
    }

    /** `f.write(text)` on a file opened for writing: `text` is appended. */
    method Write(path: Path, text: string)
      requires path in files
      modifies this
      ensures files == old(files)[path := old(files)[path] + text]
      ensures dirs == old(dirs)
    {
      files := files[path := files[path] + text];
    }

    /** Writes `content` to the file `f"{dir}/{name}"` after opening it. */
    method WriteFile(dir: Path, name: string, content: string)
      requires '/' !in name
      requires dir == [] || dir in dirs
      modifies this
      ensures files == old(files)[Sub(dir, name) := content]
      ensures dirs == old(dirs)
    {
      var path := Sub(dir, name);
      ParentOfSub(dir, name);
      Open(path);
      Write(path, content);
      assert "" + content == content;
      Overwrite(old(files), path, "", content);
    }

    /** `create_project_structure(p, extras)`: the directories, the backend files
        with their dispatched contents, the manifest and the static assets, in the
        source's order. The state it leaves is `Generated` of the state it found. */
    method CreateProjectStructure(p: Path, extras: seq<string>)
      modifies this
      ensures State() == Generated(old(State()), p, extras)
    {
      MakeLayoutDirs(p);
      LayoutDirsExist(p);
      WriteBackendFiles(p);
      WriteManifest(p, extras);
      WriteStaticFiles(p);
      GeneratedFilesAfter(old(files), p, extras);
    }

    /** The five `makedirs` calls. */
    method MakeLayoutDirs(p: Path)
      modifies this
      ensures dirs == old(dirs) + LayoutDirs(p)
      ensures files == old(files)
    {
      MakeDirs(Sub(p, "static/js"));
      MakeDirs(Sub(p, "static/css"));
      MakeDirs(Sub(p, "static/images"));
      MakeDirs(Sub(p, "static/fonts"));
      MakeDirs(Sub(p, "templates"));
    }

    /** The loop over `backend_files`, each opened and given its dispatched content. */
    method WriteBackendFiles(p: Path)
      requires p == [] || p in dirs
      modifies this
      ensures files == old(files) + BackendFiles(BackendPaths(p))
      ensures dirs == old(dirs)
    {
      var backendFiles := BackendPaths(p);
      var i := 0;
      while i < |backendFiles|
        invariant 0 <= i <= |backendFiles|
        invariant dirs == old(dirs)
        invariant files == old(files) + BackendFiles(backendFiles[..i])
      {
        var file := backendFiles[i];
        ghost var before := files;
        BackendParent(p, i);
        Open(file);
        Write(file, TemplateFor(file));
        assert "" + TemplateFor(file) == TemplateFor(file);
        Overwrite(before, file, "", TemplateFor(file));
        BackendFilesSnoc(old(files), backendFiles, i);
        i := i + 1;
      }
      assert backendFiles[..i] == backendFiles;
    }

    /** `requirements.txt`: opened, then the four core names and, if there are
        extras, the extras joined by newlines with a final newline. */
    method WriteManifest(p: Path, extras: seq<string>)
      requires p == [] || p in dirs
      modifies this
      ensures files == old(files)[Sub(p, "requirements.txt") := ManifestText(extras)]
      ensures dirs == old(dirs)
    {
      var manifest := Sub(p, "requirements.txt");
      ParentOfSub(p, "requirements.txt");
      ghost var before := files;
      var core := "fastapi\n" + "uvicorn\n" + "pysqlite3\n" + "jinja2\n";
      Open(manifest);
      Write(manifest, "fastapi\n");
      assert "" + "fastapi\n" == "fastapi\n";
      Overwrite(before, manifest, "", "fastapi\n");
      Write(manifest, "uvicorn\n");
      Overwrite(before, manifest, "fastapi\n", "fastapi\n" + "uvicorn\n");
      Write(manifest, "pysqlite3\n");
      Overwrite(before, manifest, "fastapi\n" + "uvicorn\n", "fastapi\n" + "uvicorn\n" + "pysqlite3\n");
      Write(manifest, "jinja2\n");
      Overwrite(before, manifest, "fastapi\n" + "uvicorn\n" + "pysqlite3\n", core);
      if |extras| > 0 {
        Write(manifest, Join("\n", extras) + "\n");
        Overwrite(before, manifest, core, core + (Join("\n", extras) + "\n"));
      } else {
        assert core + "" == core;
      }
    }

    /** The script, the stylesheet and the page shell. */
    method WriteStaticFiles(p: Path)
      requires Sub(p, "static/js") in dirs && Sub(p, "static/css") in dirs && Sub(p, "templates") in dirs
      modifies this
      ensures files == old(files)
        [Sub(p, "static/js/script.js") := StaticJs]
        [Sub(p, "static/css/style.css") := StaticCss]
        [Sub(p, "templates/index.html") := IndexHtml]
      ensures dirs == old(dirs)
    {
      SubSub(p, "static/js", "script.js", "static/js/script.js");
      SubSub(p, "static/css", "style.css", "static/css/style.css");
      SubSub(p, "templates", "index.html", "templates/index.html");
      WriteFile(Sub(p, "static/js"), "script.js", StaticJs);
      WriteFile(Sub(p, "static/css"), "style.css", StaticCss);
      WriteFile(Sub(p, "templates"), "index.html", IndexHtml);
    }
  }

  lemma BackendNamesNoSlash()
    ensures forall k :: 0 <= k < |BackendNames| ==> '/' !in BackendNames[k]
  {
    forall k | 0 <= k < |BackendNames| ensures '/' !in BackendNames[k] {
      match k
      case 0 => case 1 => case 2 => case 3 => case 4 => case 5 => case 6 =>
    }
  }

  /** Each backend file goes straight into the project's root directory. */
  lemma BackendParent(p: Path, i: nat)
    requires i < |BackendNames|
    ensures Parent(BackendPaths(p)[i]) == p
  {
    BackendNamesNoSlash();
    ParentOfSub(p, BackendNames[i]);
  }

  /** The seven backend files are distinct, and each lies in the project's tree
      directly inside the root, so the `open` of each finds its directory once the
      root exists. */
  lemma BackendPathsInRoot(p: Path)
    ensures |BackendPaths(p)| == 7
    ensures forall k :: 0 <= k < 7 ==>
      Parent(BackendPaths(p)[k]) == p && Under(BackendPaths(p)[k], p)
    ensures forall i, j :: 0 <= i < j < 7 ==> BackendPaths(p)[i] != BackendPaths(p)[j]
  {
    BackendPathsUnder(p);
    forall k | 0 <= k < 7 ensures Parent(BackendPaths(p)[k]) == p {
      BackendParent(p, k);
    }
    FilePathsDistinct(p);
    FilePathsParts(p);
    forall i, j | 0 <= i < j < 7 ensures BackendPaths(p)[i] != BackendPaths(p)[j] {
      assert BackendPaths(p)[i] == FilePaths(p)[i] && BackendPaths(p)[j] == FilePaths(p)[j];
    }
  }

  lemma SubSub(p: Path, dir: string, name: string, full: string)
    requires full == dir + "/" + name
    ensures Sub(Sub(p, dir), name) == Sub(p, full)
  {
  }

  /** One more turn of the backend loop adds one more dispatched file. */
  lemma BackendFilesSnoc(base: map<Path, string>, paths: seq<Path>, i: nat)
    requires i < |paths|
    ensures (base + BackendFiles(paths[..i]))[paths[i] := TemplateFor(paths[i])]
         == base + BackendFiles(paths[..i + 1])
  {
    assert paths[..i + 1] == paths[..i] + [paths[i]];
    assert BackendFiles(paths[..i + 1]) == BackendFiles(paths[..i])[paths[i] := TemplateFor(paths[i])];
  }

  /** The four writes after the backend loop, on top of what the loop left. */
  lemma GeneratedFilesAfter(base: map<Path, string>, p: Path, extras: seq<string>)
    ensures (base + BackendFiles(BackendPaths(p)))
        [Sub(p, "requirements.txt") := ManifestText(extras)]
        [Sub(p, "static/js/script.js") := StaticJs]
        [Sub(p, "static/css/style.css") := StaticCss]
        [Sub(p, "templates/index.html") := IndexHtml]
      == base + GeneratedFiles(p, extras)
  {
  }
}
