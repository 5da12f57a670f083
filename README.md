# IDO/DDS editor front end: job panel, DDS fallback header, interpreter resolution

This project models, in Dafny, the orchestration core of a small desktop tool that
decompiles and compiles IDO files and converts textures between DDS and PNG:

- **Job panel** (`renderer.js`, module `Renderer`, class `JobPanel`). Three tasks
  (decompile, compile, DDS conversion) each hold an input and an output path. The DDS
  task also holds a direction. One `isProcessing` flag is shared by all three, and the
  panel keeps an append-only log of `(level, message)` entries plus a status line. Every
  click handler is a method. The dialog's answer and the tool's outcome are
  parameters: `Ok(output, size?, meta?)`, `ToolFail(error)` or `Threw(message)`. The
  run buttons' `disabled` flags are fields. The class invariant `Valid()` says each one
  is set exactly when its task is not ready (input set, output set, nothing running).
  Every handler requires and re-establishes it. The `modifies` clauses name the fields
  each handler may touch. So a run never changes a task's paths or the DDS direction,
  and one task's handlers never touch another task's paths. Readiness is the function
  `Ready(job, busy)` of one task's paths and the shared flag only.
- **DDS fallback header** (`dds_converter.py`, module `DdsConverter`). When the image
  library cannot write DDS, `png_to_dds` writes a 128-byte header (the `"DDS "` magic,
  then DDS_HEADER with an embedded DDS_PIXELFORMAT), followed by the pixel bytes.
  `BuildHeader` grows the header in the same order the script grows its bytearray.
  `IsRgba8Header` describes the header independently, field by field, at the offsets
  the DirectDraw Surface format gives to DDS_HEADER and DDS_PIXELFORMAT. The pixel
  data is an opaque byte sequence.
- **Entry point of the converter** (`main`, function `DdsConverter.Main`). It makes a
  decision over `sys.argv`, the set of existing paths, what each conversion returns and
  the size of the output file. It returns which conversion it started, the line it
  printed last and the exit code.
- **Interpreter resolution** (`python-env.js`, module `PythonEnv`). These are pure
  functions of `isPackaged`, the resources directory, the application directory and
  the set of existing files.
- **Paths** (module `Paths`) holds the few Node `path` operations the code relies on,
  over `/`-separated strings: `join` of one segment, `basename` with and without a
  suffix, `parse().dir`, `extname` and `parse().name`.

Behaviour kept exactly as the code has it:

- `setProcessing(false)` runs in the `finally` block after the outcome's status was set.
  It overwrites 'Complete', 'Failed' or 'Error' with 'Idle' and empty details. So
  `JobPanel.Run` ends with status 'Idle' for all three outcomes. `OutcomeStatus` gives
  the status that is set and then overwritten.
- Log texts are the code's own strings, including the check mark, cross and arrow as
  they are stored in the source file (mis-encoded, e.g. `âœ“`).
- JavaScript truthiness decides everything the code tests with `if (x)`. A null path
  and an empty string both count as unset (`Nullable.Truthy`). A missing path or size in
  a log message prints as `null` or `undefined`.
- The header flags DWORD is `0x000A1007`. Besides the five flags the source comment
  names, it also has DDSD_MIPMAPCOUNT (0x20000) set. The model follows the bytes.
- Two behaviours a reader might not expect:
  - A packaged build whose bundled interpreter is missing falls back to `python`
    silently. It raises no "missing runtime" error.
  - A run's final status is 'Idle', not the outcome's status.

## Model

| member | source | states |
|---|---|---|
| `Renderer.JobPanel.constructor` | renderer.js:496-500 | start-up state: no paths, DDS-to-PNG mode, the decompile tab current, not processing, the two greeting lines in the log, status 'Idle', all run buttons disabled, invariant established |
| `Renderer.JobPanel.AddLog` | renderer.js:70-88 | the log grows by exactly one entry at its end; nothing before it changes |
| `Renderer.JobPanel.ClearLog` | renderer.js:90-93 | afterwards the log is exactly one entry, "Log cleared." |
| `Renderer.JobPanel.UpdateStatus` | renderer.js:95-98 | status text and details become the given values |
| `Renderer.JobPanel.UpdateButtons` | renderer.js:114-126 | each run button is disabled iff its own task lacks a path or a run is in progress |
| `Renderer.JobPanel.SetProcessing` | renderer.js:100-112 | sets the flag; busy shows 'Processing...'/'Please wait' and disables every run button, idle shows 'Idle' with empty details; invariant holds |
| `Renderer.JobPanel.SelectDecompileInput` | renderer.js:146-169 | cancel changes nothing; a chosen file becomes the input and is logged by base name; the output becomes `<dir>/<name>.xml` only if no output was set, otherwise it is kept |
| `Renderer.JobPanel.SelectDecompileOutput` | renderer.js:171-190 | offers `<input name without .ido>.xml` or `output.xml` to the dialog; cancel changes nothing; a chosen file always replaces the output and is logged |
| `Renderer.JobPanel.SelectCompileInputFile` | renderer.js:236-260 | as for decompile input, with `.ido` as the suggested extension |
| `Renderer.JobPanel.SelectCompileInputFolder` | renderer.js:262-279 | a chosen folder becomes the input; the output becomes `<folder>/output.ido` only if unset |
| `Renderer.JobPanel.SelectCompileOutput` | renderer.js:281-300 | offers `<input name>.ido` or `output.ido`; cancel changes nothing; a chosen file replaces the output |
| `Renderer.JobPanel.SwitchTab` | renderer.js:129-143 | the named tab becomes current and exactly one INFO entry `Switched to <tab> mode` is appended; paths, mode, status and buttons are untouched |
| `Renderer.JobPanel.ToggleDirection` | renderer.js:344-380 | choosing the active mode changes nothing at all; choosing the other sets the mode, clears both DDS paths, appends exactly one log entry and leaves the other tasks alone |
| `Renderer.JobPanel.SelectDdsInput` | renderer.js:383-414 | cancel changes nothing; a chosen file becomes the input; the output is suggested with `.png` in DDS-to-PNG mode and `.dds` otherwise, only if unset |
| `Renderer.JobPanel.SelectDdsOutput` | renderer.js:417-443 | offers `<input name>` or `output` plus the mode's target extension; a chosen file replaces the output |
| `Renderer.JobPanel.LogStart` | renderer.js:449-455 | appends the start block for the task's current paths and mode |
| `Renderer.JobPanel.LogOutcome` | renderer.js:210-229 | appends the block for the outcome and nothing else |
| `Renderer.JobPanel.Run` | renderer.js:192-233 | while processing: no change at all; otherwise the log grows by the start block then the outcome's block, the flag is released for every outcome, the status ends as 'Idle', the task's button is enabled again iff both paths are set; paths and mode are never modified |
| `Renderer.StartBlock` | renderer.js:196-200 | five INFO entries: rule, the task's start message (for a DDS run, the only record of its direction), `Input: <path>`, `Output: <path>`, rule |
| `Renderer.ResultBlock` | renderer.js:210-229 | three to five entries between two rules; the inner entries are all SUCCESS for a successful result and all ERROR for a failed or thrown one |
| `Renderer.OutcomeStatus` | renderer.js:218-229 | the status set before the release is Complete / Failed / Error exactly for success / tool failure / exception, with the error text or exception message verbatim as details |
| `Renderer.Decimal` | renderer.js:324 | the size in the "Total size" line is written as decimal digits without a leading zero that read back as the size |
| `Renderer.SuccessBlockLength` | renderer.js:210-217 | a successful decompile block has the metadata line iff the result carries a metadata path; compile and DDS blocks always have `Total size: <size> bytes` as their fourth entry (as at renderer.js:324 and 469); the output path is reported |
| `Renderer.FailureBlockCarriesText` | renderer.js:219-229 | a failure or critical-error block has three entries and its error entry ends with the tool's error text or the exception message unchanged |
| `Renderer.FailureKindsDiffer` | renderer.js:219-229 | a tool failure's error entry is `âœ— <Activity> failed: <error>`, a thrown call's is `âœ— Critical error: <message>`, and the two entries differ for every text, so the log tells them apart after the status is reset |
| `Renderer.SuggestOutputShape` | renderer.js:159-165 | a suggested output is in the input's directory, has the input's name and carries exactly the target extension |
| `Renderer.SuggestFolderOutputShape` | renderer.js:270-275 | a folder's suggested output is `output.ido` directly inside the folder |
| `Renderer.DecompileSuggestionExample` | renderer.js:159-165 | `models/model.ido` suggests `models/model.xml` |
| `Paths.StemIsBasenameWithoutExtname` | renderer.js:404 | `basename(p, extname(p))`, used by the DDS handlers, is the same name as `parse(p).name`, used by the other handlers |
| `Paths.JoinParts` | python-env.js:44-47 | joining a segment onto a directory can be undone: the segment is the base name and a plain directory is the directory of the result |
| `Paths.StemExtname` | renderer.js:161-162 | name and extension together give back the base name |
| `DdsConverter.EncodeLE32` | dds_converter.py:76-77 | four little-endian bytes whose decoded value is the input modulo 2^32 |
| `DdsConverter.DecodeEncode` | dds_converter.py:76-77 | encoding a decoded DWORD gives back the same four bytes |
| `DdsConverter.HeadBytes` | dds_converter.py:72-81 | the first 32 bytes: magic, size 124, flags, height and width little-endian, zero pitch, depth, mipmap count |
| `DdsConverter.PixelFormatBytes` | dds_converter.py:87-96 | DDS_PIXELFORMAT of size 32, flags 0x41, no FourCC, 32 bits per pixel and the four channel masks |
| `DdsConverter.CapsBytes` | dds_converter.py:99-105 | caps 0x1008 followed by four zero DWORDs |
| `DdsConverter.BuildHeader` | dds_converter.py:72-105 | the bytearray grown as the script grows it satisfies the full field-by-field header description |
| `DdsConverter.FallbackFile` | dds_converter.py:108-110 | the written file is the header followed by the pixel data: length 128 + data length, data from offset 128 unchanged |
| `DdsConverter.Rgba8HeaderUnique` | dds_converter.py:72-105 | the header description determines every one of the 128 bytes |
| `DdsConverter.Rgba8HeaderOffsets` | dds_converter.py:73-96 | "DDS " at 0..3, 124 at 4, height and width modulo 2^32 at 12 and 16, zero reserved bytes 32..75, pixel format size 32 at 76, RGB bit count 32 at 88 |
| `DdsConverter.ParseOperation` | dds_converter.py:135-141 | exactly `to-png` and `to-dds` name an operation |
| `DdsConverter.Main` | dds_converter.py:120-158 | checks argument count, then input existence, then the operation, each failing with its own message and exit 1; a conversion is started only if all three pass; the result line is `{success, output, size}` with exit 0 exactly when the conversion succeeded, else `Conversion failed` with exit 1 |
| `DdsConverter.MissingInputFirst` | dds_converter.py:129-141 | with a missing input and an invalid operation, the missing input is what is reported |
| `DdsConverter.ExitMirrorsConversion` | dds_converter.py:134-158 | with valid arguments the exit code is 0 iff the requested conversion succeeded; an unknown operation gives its own error |
| `PythonEnv.BundledPython` | python-env.js:22 | the bundled interpreter path ends in `python.exe` |
| `PythonEnv.PythonPath` | python-env.js:16-34 | the result is `python` or an existing bundled interpreter of a packaged build, and the bundled one is preferred when it exists |
| `PythonEnv.ScriptPath` | python-env.js:39-49 | the script keeps its name and sits in the resources directory when packaged, the application directory otherwise |
| `PythonEnv.RunPythonScript` | python-env.js:54-59 | the program is the resolved interpreter; argv is the script path followed by the caller's arguments in order |
| `PythonEnv.DevelopmentIgnoresFiles` | python-env.js:30-33 | in development mode the result is `python` whatever files exist |
| `PythonEnv.PackagedFallback` | python-env.js:20-29 | a packaged build uses the bundled interpreter when present and falls back to `python`, with no error, when absent |
| `PythonEnv.NeverMissingBundled` | python-env.js:20-29 | anything other than `python` that is returned exists |

## Left out

- DOM work is left out as presentation: element lookups, input values, labels and
  placeholders (including the DDS labels a toggle rewrites), CSS classes, auto-scroll,
  and the dialog filter lists.
- Tab switching keeps only its state change and its log entry (`JobPanel.SwitchTab`).
  The CSS classes it toggles are left out as presentation. Tab names come from the
  page's markup and are a parameter.
- Timestamps (`formatTime`) are left out because they come from the wall clock. A log
  entry is a level and a message.
- Electron IPC, the dialogs and the tool call are left out. Their answers are
  parameters of the handlers.
- The `python-log` listener is left out. Streamed tool lines, and their interleaving
  with a run's own entries, are concurrency. Each run is one atomic step, so the levels
  are only INFO, SUCCESS and ERROR.
- A successful result without an `output` string is not modelled. `path.basename` would
  throw inside the `try`, adding a critical-error block after the success block.
- The image library is left out: `Image.open`, `convert`, `save`, `tobytes`, the body
  of `dds_to_png`, the direct DDS save attempt in `png_to_dds` and the ImportError
  guard. Whether a conversion succeeds is an input of `Main`.
- I/O is left out. This covers the script's `log()` lines, JSON serialisation of what
  `main` prints, `sys.exit`, file writing, `os.path.getsize` (the size is a parameter),
  `Path.exists` and `fs.existsSync` (both a set of existing paths) and `spawn` (its
  program and argv are returned as a value).
- `Main` returns only the last line the script prints. The conversions' own progress
  lines are not part of it.
- The channel masks are kept as written (red 0x00FF0000, blue 0x000000FF). Whether
  they match the byte order of the pixel data is not modelled, because the pixel data
  is opaque.
- Paths: one separator `/` is used throughout. A packaged Windows build would join
  with `\`. `.` and `..` segments and repeated separators are not normalised, and a trailing separator is not stripped. Node gives `b` as the base name of `a/b/` and `a` as its directory; the model gives "" and `a/b`. This shows in the "Selected input folder" log line and in the compile output's default name for a folder chosen with a trailing `/`.
  `path.dirname` gives "." where `path.parse().dir` gives "". Both join to the same
  path, so both are modelled as "". The `extname` of a base name made only of dots is
  not special-cased.
- Width and height are natural numbers, since `img.size` is never negative. The shifts
  and masks of the script are divisions and remainders by powers of 256.
