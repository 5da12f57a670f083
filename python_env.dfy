/** How the main process decides which Python interpreter and which script file to
    launch (python-env.js). Whether the application runs from a packaged bundle, the
    resources directory, the application directory and the set of files that exist
    are inputs; the decisions are pure functions of them. */
module PythonEnv {
  import opened Paths

  /** What the code reads from its environment: `app.isPackaged`,
      `process.resourcesPath` and `__dirname`. */
  datatype Env = Env(isPackaged: bool, resourcesPath: string, appDir: string)

  /** A program and its argument vector, as handed to `spawn`. */
  datatype Spawn = Spawn(program: string, argv: seq<string>)

  /** The name under which the system interpreter is found on the search path. */
  const SystemPython: string := "python"

  /** Where a packaged build looks for its bundled interpreter. */
  function BundledPython(env: Env): (r: string)
    ensures Basename(r) == "python.exe"
  {
    JoinBasename(Join(env.resourcesPath, "python"), "python.exe");
    Join(Join(env.resourcesPath, "python"), "python.exe")
  }

  /** `getPythonPath`: the bundled interpreter when the build is packaged and that file
      exists, otherwise the system interpreter. A missing bundled interpreter is not an
      error. `files` is the set of paths `fs.existsSync` reports as existing. */
  function PythonPath(env: Env, files: set<string>): (r: string)
    ensures r == SystemPython || (env.isPackaged && r == BundledPython(env) && r in files)
    ensures env.isPackaged && BundledPython(env) in files ==> r == BundledPython(env)
  {
    if env.isPackaged && BundledPython(env) in files then BundledPython(env) else SystemPython
  }

  /** `getScriptPath`: the script lives in the resources directory of a packaged build
      and in the application directory otherwise. */
  function ScriptPath(env: Env, scriptName: string): (r: string)
    ensures Free(scriptName, Sep) ==> Basename(r) == scriptName
    ensures Free(scriptName, Sep) && PlainDir(env.resourcesPath) && PlainDir(env.appDir) ==>
      Dir(r) == if env.isPackaged then env.resourcesPath else env.appDir
  {
    var dir := if env.isPackaged then env.resourcesPath else env.appDir;
    JoinParts(dir, scriptName);
    Join(dir, scriptName)
  }

  /** `runPythonScript`: the interpreter is the program, the script path is its first
      argument and the caller's arguments follow in their order. */
  function RunPythonScript(env: Env, files: set<string>, scriptName: string, args: seq<string>): (r: Spawn)
    ensures r.program == PythonPath(env, files)
    ensures |r.argv| == |args| + 1 && r.argv[0] == ScriptPath(env, scriptName) && r.argv[1..] == args
    ensures Free(scriptName, Sep) ==> Basename(r.argv[0]) == scriptName
  {
    Spawn(PythonPath(env, files), [ScriptPath(env, scriptName)] + args)
  }

  /** In development mode the file system plays no part: the system interpreter is used
      whatever exists. */
  lemma DevelopmentIgnoresFiles(env: Env, files: set<string>, files': set<string>)
    requires !env.isPackaged
    ensures PythonPath(env, files) == PythonPath(env, files') == SystemPython
  {
  }

  /** A packaged build whose bundled interpreter is missing falls back to the system
      interpreter, and one whose bundled interpreter is present uses it. */
  lemma PackagedFallback(env: Env, files: set<string>)
    requires env.isPackaged
    ensures BundledPython(env) !in files ==> PythonPath(env, files) == SystemPython
    ensures BundledPython(env) in files ==> PythonPath(env, files) == BundledPython(env)
  {
  }

  /** The program is never a bundled interpreter that does not exist. */
  lemma NeverMissingBundled(env: Env, files: set<string>)
    ensures PythonPath(env, files) != SystemPython ==> PythonPath(env, files) in files
  {
  }
}
