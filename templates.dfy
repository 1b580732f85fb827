/**
 The template catalog: the fixed contents the generator writes, and the suffix
 dispatch that picks a backend file's content from its path.

 None of these contents takes a parameter, so no generated file can depend on the
 project name. The Python, CSS and HTML template bodies are long literals whose
 meaning belongs to the generated application, not to the generator; they are
 stood in for by short distinct constants. The placeholder and the script line are
 the generator's own text.
 */
module Templates {
  import opened Text

  /** Stand-in for the body returned by `main_py_content` (the FastAPI entry point). */
  const MainPy: string := "# FastAPI entry point\n"
  /** Stand-in for the body returned by `api_py_content` (the item router). */
  const ApiPy: string := "# API router\n"
  /** Stand-in for the body returned by `database_py_content` (the connection helper). */
  const DatabasePy: string := "# SQLite connection\n"
  /** Stand-in for the body returned by `init_db_content` (the schema initialiser). */
  const InitDbPy: string := "# SQLite schema init\n"
  /** The fallback content of a backend file no suffix test recognises. */
  const Placeholder: string := "# TODO: 添加内容\n"

  /** The content of `static/js/script.js`. */
  const StaticJs: string := "console.log(\"静态 JS 文件加载完成.\");"
  /** Stand-in for the stylesheet written to `static/css/style.css`. */
  const StaticCss: string := "body { font-family: Arial; }\n"
  /** Stand-in for the page shell written to `templates/index.html`. */
  const IndexHtml: string := "<!DOCTYPE html>\n<html></html>\n"

  /** The content a backend file at `path` receives: an ordered chain of
      `endswith` tests, the first that matches wins, the placeholder otherwise. */
  function TemplateFor(path: string): string {
    if EndsWith(path, "main.py") then MainPy
    else if EndsWith(path, "api.py") then ApiPy
    else if EndsWith(path, "database.py") then DatabasePy
    else if EndsWith(path, "init_db.py") then InitDbPy
    else Placeholder
  }

  /** The dispatch never falls through to anything but one of the five contents,
      and it gives the placeholder exactly when none of the four suffixes matches. */
  lemma TemplateForCases(path: string)
    ensures TemplateFor(path) in {MainPy, ApiPy, DatabasePy, InitDbPy, Placeholder}
    ensures TemplateFor(path) == Placeholder <==>
      !EndsWith(path, "main.py") && !EndsWith(path, "api.py") &&
      !EndsWith(path, "database.py") && !EndsWith(path, "init_db.py")
  {
    assert MainPy[2] != Placeholder[2] && ApiPy[2] != Placeholder[2];
    assert DatabasePy[2] != Placeholder[2] && InitDbPy[2] != Placeholder[2];
  }
}
