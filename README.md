# fastapi_init: a verified model of the project-scaffolding generator

`fastapi_init.py` asks for a project name and a line of extra dependency names. It
then creates a fixed FastAPI project layout under a directory with that name:

- five directories,
- seven backend files, whose contents a suffix dispatch picks,
- the dependency manifest `requirements.txt`,
- three static assets.

After that it installs the dependencies with pip.

This project models the deterministic core of that script in Dafny. The file system
is an abstract state: a set of directory paths and a map from file path to content.

- `text.dfy` (module `Text`) models the string builtins the driver and the dispatch
  use: Python's `str.isspace`, `strip()`, `split()` with no arguments, and
  `endswith`.
- `templates.dfy` (module `Templates`) holds the template catalog as constant strings,
  plus the `endswith` chain that picks a backend file's content (`TemplateFor`).
- `manifest.dfy` (module `Manifest`) holds the text of `requirements.txt` and a line
  reader used to state what that text contains.
- `layout.dfy` (module `Layout`) has three parts:
  - `Generated`, the whole effect of one run on the file-system state;
  - the `FileSystem` class, whose `CreateProjectStructure` does the run step by step
    as the source does (five `makedirs`, a loop over the backend paths, sequential
    writes to the manifest, three asset writes) and is proved to leave `Generated`
    of the state it found;
  - lemmas about what a run guarantees: every file it writes, its content, its
    directories, the frame (what it leaves unchanged), idempotence, and that a
    directory set containing every directory's parents still has that property after
    a run.
- `driver.dfy` (module `Driver`) models the `__main__` block. The name is stripped,
  and a blank name ends the run with status 1 before anything is created. The extras
  line is split on whitespace, then the layout builder runs.

Notes on the source that the model follows:

- The name is stripped before the emptiness test (fastapi_init.py:278-282), so a
  name made only of whitespace is rejected as well.
- `create_project_structure` itself accepts any name, including an empty one; only
  the driver rejects a blank name (fastapi_init.py:8, 280-282).
- The SQLite dependency is the package `pysqlite3` and the templating engine is the
  package `jinja2` (fastapi_init.py:44-45).
- A name that contains `/` makes `makedirs` also create the directories above the
  project root (fastapi_init.py:10-14). The frame lemma allows for this:
  `Layout.Ancestor`.

## Model

| member | source | states |
|---|---|---|
| `Text.AsciiSpaces` | fastapi_init.py:278 | `str.isspace` as the model defines it: among ASCII characters, exactly tab, line feed, vertical tab, form feed, carriage return, the separators 0x1C to 0x1F, and the blank. (`IsSpace`'s definition lists Python's whitespace characters above ASCII too; the lemma's contract covers only ASCII.) |
| `Text.Strip` | fastapi_init.py:278 | The stripped name is the slice of the input that follows the leading whitespace, and only whitespace comes after it. It is empty exactly when the input is all whitespace. Otherwise its first and last characters are not whitespace. |
| `Text.StripIdempotent` | fastapi_init.py:278 | Stripping an already stripped name changes nothing. |
| `Text.Split` | fastapi_init.py:286 | Splitting on whitespace gives words that are never empty and never hold whitespace. There are no words exactly when the input is all whitespace. |
| `Text.SplitKeepsText` | fastapi_init.py:286 | Joining the words with the empty separator gives back every non-whitespace character of the input, in order. Only whitespace is lost. |
| `Text.SplitAtSpace` | fastapi_init.py:286 | `split()` cuts at every whitespace character. The words of `a`, one whitespace character, then `b` are the words of `a` followed by the words of `b`. So no word spans whitespace, and a run of several whitespace characters separates exactly like one. |
| `Text.SplitJoinWords` | fastapi_init.py:286 | Round trip: take words that are non-empty and free of whitespace, join them with single blanks, then split the result. You get the same words back in the same order. |
| `Text.JoinParts` | fastapi_init.py:47 | `sep.join(xs)` is empty for no items; otherwise it starts with the first item and ends with the last. With two or more items, `sep` follows the first item. |
| `Templates.TemplateForCases` | fastapi_init.py:27-38 | The dispatch always yields one of the four templates or the placeholder. It yields the placeholder exactly when the path ends with none of `main.py`, `api.py`, `database.py`, `init_db.py`. |
| `Text.EndsWithConcat` | fastapi_init.py:29-35 | `endswith` holds exactly when the string is some text followed by the suffix. |
| `Manifest.JoinTerminated` | fastapi_init.py:47 | Joining the extras with newlines and adding one final newline ends every extra with a newline. |
| `Manifest.ManifestText` | fastapi_init.py:41-47 | The text the sequence of writes produces is the four core names and then the extras, each followed by a newline. This holds for any extras, including none. |
| `Manifest.LinesOfTerminated` | fastapi_init.py:41-47 | Reading lines back from newline-terminated text gives the original lines, provided no line contains a newline. |
| `Manifest.ManifestLines` | fastapi_init.py:41-47 | The manifest's lines are `fastapi`, `uvicorn`, `pysqlite3`, `jinja2` and then the extras in the order supplied. That makes exactly 4 + k lines for k extras. |
| `Manifest.ManifestWithoutExtras` | fastapi_init.py:41-46 | With no extras the manifest is exactly `fastapi\nuvicorn\npysqlite3\njinja2\n`. |
| `Layout.MadeBy` | fastapi_init.py:10-14 | The directories `makedirs` makes exist are exactly the path and each directory above it: each non-empty prefix that ends just before a `/`. |
| `Layout.Parent` | fastapi_init.py:28 | The directory `open` writes into is a prefix of the path. When the path holds a `/`, it ends just before the last `/`; otherwise it is empty. |
| `Layout.BackendPathsInRoot` | fastapi_init.py:17-28 | The seven entries of `backend_files` are pairwise distinct. Each lies in the project's tree directly inside the root `p`, so the `open` at line 28 writes into `p` itself. |
| `Layout.GeneratedFiles` | fastapi_init.py:17-161 | Every file a run writes lies inside the project's tree `p/`. |
| `Layout.Generated` | fastapi_init.py:8-161 | A run removes no directory and no file. Every file that did not exist before lies inside the project's tree. |
| `Layout.MadeByWithin` | fastapi_init.py:10-14 | A directory that `makedirs` creates for a path under root `p` is one of three things: `p` itself, a directory above `p`, or a directory under `p/`. |
| `Layout.MakeDirsClosed` | fastapi_init.py:10-14 | Suppose every directory's parents are already directories. Then `makedirs` keeps this true. On a directory that already exists it changes nothing (`exist_ok=True`). |
| `Layout.LayoutDirsExist` | fastapi_init.py:10-14 | After a run, `p/static/js`, `p/static/css`, `p/static/images`, `p/static/fonts`, `p/templates` and their parent `p/static` exist. For a non-empty name, `p` exists too. |
| `Layout.RunKeepsClosed` | fastapi_init.py:10-14 | If every directory's parents are directories before a run, that still holds after it. |
| `Layout.DispatchOnName` | fastapi_init.py:27-38 | The dispatch on `p/<name>` gives the same result as the dispatch on `<name>` alone, whatever the project name. |
| `Layout.NameTemplate` | fastapi_init.py:27-38 | Each of the seven backend file names is sent to its intended content by the suffix chain: `main.py`, `api.py`, `database.py` and `init_db.py` to their templates, the other three to the placeholder. |
| `Layout.BackendDispatchAt` | fastapi_init.py:17-38 | The backend file at any position of `backend_files`, under any project root, gets the content meant for its name. |
| `Layout.BackendDispatch` | fastapi_init.py:17-38 | For every project name, `main.py`, `api.py`, `database.py` and `init_db.py` get their templates. `models.py`, `schemas.py` and `crud.py` get the placeholder. |
| `Layout.FourRealBackendFiles` | fastapi_init.py:29-38 | Exactly four of the seven backend files get real content: positions 0, 1, 4 and 6. Those four contents are pairwise distinct. |
| `Layout.FileNamesDistinct` | fastapi_init.py:17-161 | No two of the eleven generated file names are equal. |
| `Layout.GeneratedPaths` | fastapi_init.py:17-161 | A run writes exactly these 11 distinct files, all under `p/`: the 7 backend files, `requirements.txt`, `script.js`, `style.css` and `index.html`. |
| `Layout.GeneratedContents` | fastapi_init.py:17-161 | Every generated file holds the content meant for its name. That content does not depend on the project name; only the paths do. |
| `Layout.RunOverwrites` | fastapi_init.py:27-161 | After a run, every generated file holds its fixed content, whatever the file held before. Writes overwrite. |
| `Layout.RunFrame` | fastapi_init.py:10-161 | A file that is not under `p/` is present, absent or changed exactly as before the run. A new directory is `p`, a directory above `p`, or one under `p/`. If the name has no `/`, a new directory is `p` or under `p/`. No directory is removed. |
| `Layout.RunIdempotent` | fastapi_init.py:10-161 | Running twice with the same inputs leaves the same state as running once. |
| `Layout.FileSystem.MakeDirs` | fastapi_init.py:10 | `makedirs` adds the path and every prefix of it that ends before a `/`. Files are unchanged. |
| `Layout.FileSystem.Open` | fastapi_init.py:28 | Opening for writing creates or truncates the file to empty. It requires the directory the file goes into to exist. |
| `Layout.FileSystem.Write` | fastapi_init.py:30 | Writing to an open file appends the text to it. |
| `Layout.FileSystem.WriteFile` | fastapi_init.py:154-155 | Opening `dir/name` and writing `content` leaves exactly `content` in it. |
| `Layout.FileSystem.MakeLayoutDirs` | fastapi_init.py:10-14 | The five `makedirs` calls add exactly the layout's directories. |
| `Layout.FileSystem.WriteBackendFiles` | fastapi_init.py:17-38 | The loop over `backend_files` gives every backend path its dispatched content. Every other file is unchanged. The new state is stated through a loop invariant. |
| `Layout.FileSystem.WriteManifest` | fastapi_init.py:41-47 | The four writes to `requirements.txt` and, when there are extras, the fifth leave exactly the manifest text in it. |
| `Layout.FileSystem.WriteStaticFiles` | fastapi_init.py:154-161 | The three asset writes leave the script, the stylesheet and the page shell at their paths. |
| `Layout.FileSystem.CreateProjectStructure` | fastapi_init.py:8-161 | A whole run leaves exactly the state `Generated` of the state it found. |
| `Driver.ExtraRequirements` | fastapi_init.py:285-286 | Every extra is non-empty and free of whitespace. There are no extras exactly when the line is blank. The `if ... else []` guard gives the same result as `split()` alone. |
| `Driver.Run` | fastapi_init.py:276-288 | A blank name gives exit status 1 and leaves the file system unchanged. Any other name gives status 0 and the state `Generated` for the stripped name and the split extras. |
| `Driver.DriverManifestLines` | fastapi_init.py:284-288 | Whatever the extras line holds, the manifest's lines are the four core names and then the line's words in order: 4 + k lines for k words. |
| `Driver.RedisCeleryManifest` | fastapi_init.py:284-288 | The extras line `redis celery` gives the extras `redis` and `celery`, and the manifest then has six lines ending with `redis` and then `celery`. |

## Left out

- `install_requirements` (fastapi_init.py:168-174) runs pip in a child process, which is outside the model. pip writes only outside the project's tree: the installed packages and pip's cache. `Driver.Run`'s final state is the state before installation, and `Layout.RunFrame` says nothing about what the installer writes.
- The `print` notices (fastapi_init.py:49, 163, 170-174) are console output only and are not modelled.
- The two `input()` calls are not modelled. The strings they return are `Driver.Run`'s parameters. The second is read only once the name is accepted (fastapi_init.py:285); for a blank name `Run` ignores `extrasLine`.
- The template bodies are stand-ins. `main_py_content`, `api_py_content`, `database_py_content`, `init_db_content`, the stylesheet and the page shell become short, distinct constant strings. The model only relies on them being fixed, pairwise distinct and independent of the project name. The placeholder `# TODO: 添加内容\n` and the script line are exact. What the generated application does is not part of the generator.
- Real operating-system behaviour is not modelled: permissions, a path component that exists as a file, writing to a path that is a directory, path normalisation (`.`, `..`, repeated `/`), the UTF-8 encoding of contents, and a crash in the middle of a write. So the `OSError`s that `makedirs` and `open` can raise have no error path in the model.
- `Layout.FileSystem.Open`: the parent directory must exist, and the model states this as a precondition instead of modelling a failure. Every call in the run is proved to meet it.
- An exception from `install_requirements` other than `CalledProcessError` is not modelled. `Driver.Run` therefore always ends with status 0 once the name is accepted.
- No lemma evaluates a run for one literal project name, because evaluating the concrete paths costs the verifier too much. `Layout.GeneratedPaths`, `Layout.GeneratedContents`, `Layout.LayoutDirsExist` and `Manifest.ManifestWithoutExtras` hold for every name.
- The default `additional_requirements=None` (fastapi_init.py:8) is represented by the empty list. Line 46 tests truthiness, so `None` and `[]` both write no extras.
