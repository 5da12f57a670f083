/** The job panel of the renderer process (renderer.js): three tasks (decompile,
    compile, DDS conversion), each with an input and an output path, a conversion
    direction for the DDS task, one processing flag shared by all tasks, an
    append-only log and a status line.

    Every click handler is a method of `JobPanel`. What the handler awaits is an
    input: the path the dialog returns (`None` or "" when the user cancels) and the
    outcome of the tool run. Each run happens at once, between two user actions. */
module Renderer {
  import opened Nullable
  import opened Paths

  datatype Level = Info | Success | Error

  /** A log line: its level and message. Timestamps are left out. */
  type Entry = (Level, string)

  datatype Task = Decompile | Compile | DdsConvert

  /** The two modes of the DDS task: 'dds-to-png' and 'png-to-dds'. */
  datatype Direction = DdsToPng | PngToDds

  /** A task's paths; each is null until chosen. */
  datatype Job = Job(input: Option<string>, output: Option<string>)

  const NoPaths: Job := Job(None, None)

  /** What the tool call gives back: a result object with `success` true (its output
      path, optional size in bytes and optional metadata path), a result with
      `success` false (its error text), or an exception (its message). */
  datatype Outcome =
    | Ok(output: string, size: Option<nat>, meta: Option<string>)
    | ToolFail(error: string)
    | Threw(message: string)

  // ---------------------------------------------------------------- log texts

  /** The rule line that brackets every block of run messages. */
  const Rule: string := "========================================"

  /** The check mark, cross and arrow exactly as the source file stores them: UTF-8
      text that was read back as Windows-1252 and saved again. */
  const CheckMark: string := "\U{E2}\U{153}\U{201C}"
  const CrossMark: string := "\U{E2}\U{153}\U{2014}"
  const Arrow: string := "\U{E2}\U{2020}\U{2019}"

  function ModeName(d: Direction): string
  {
    match d
    case DdsToPng => "DDS" + Arrow + "PNG"
    case PngToDds => "PNG" + Arrow + "DDS"
  }

  /** The noun the run messages use for a task. */
  function Activity(t: Task): string
  {
    match t
    case Decompile => "Decompilation"
    case Compile => "Compilation"
    case DdsConvert => "Conversion"
  }

  /** The message that opens a run. */
  function StartMessage(t: Task, d: Direction): string
  {
    match t
    case Decompile => "Starting decompilation process..."
    case Compile => "Starting compilation process..."
    case DdsConvert => "Starting " + ModeName(d) + " conversion..."
  }

  /** JavaScript's rendering of a path that may be null in a template string. */
  function ShowPath(p: Option<string>): string
  {
    match p
    case None => "null"
    case Some(s) => s
  }

  /** The number a string of decimal digits denotes, most significant digit first. */
  function DigitsValue(s: string): nat
    requires forall i :: 0 <= i < |s| ==> '0' <= s[i] <= '9'
  {
    if s == [] then 0 else 10 * DigitsValue(s[..|s| - 1]) + (s[|s| - 1] - '0') as nat
  }

  /** Decimal digits of `n`, as a template string renders a number: they read back as
      `n` and have no leading zero. */
  function Decimal(n: nat): (r: string)
    ensures |r| >= 1 && forall i :: 0 <= i < |r| ==> '0' <= r[i] <= '9'
    ensures DigitsValue(r) == n
    ensures |r| > 1 ==> r[0] != '0'
  {
    var digit := ['0' + (n % 10) as char];
    if n < 10 then digit else Decimal(n / 10) + digit
  }

  /** JavaScript's rendering of a size that may be missing in a template string. */
  function ShowSize(s: Option<nat>): string
  {
    match s
    case None => "undefined"
    case Some(n) => Decimal(n)
  }

  /** The five entries every run starts with: a rule, the start message, the input and
      output paths, and another rule. */
  function StartBlock(t: Task, j: Job, d: Direction): (r: seq<Entry>)
    ensures |r| == 5
    ensures r[0] == r[4] == (Info, Rule)
    ensures forall i :: 0 <= i < 5 ==> r[i].0 == Info
    ensures r[1] == (Info, StartMessage(t, d))
    ensures r[2].1 == "Input: " + ShowPath(j.input) && r[3].1 == "Output: " + ShowPath(j.output)
  {
    [(Info, Rule), (Info, StartMessage(t, d)),
     (Info, "Input: " + ShowPath(j.input)), (Info, "Output: " + ShowPath(j.output)),
     (Info, Rule)]
  }

  /** The entries a run ends with, chosen by its outcome. */
  function ResultBlock(t: Task, o: Outcome): (r: seq<Entry>)
    ensures 3 <= |r| <= 5
    ensures r[0] == r[|r| - 1] == (Info, Rule)
    ensures forall i :: 0 < i < |r| - 1 ==> r[i].0 == (if o.Ok? then Success else Error)
  {
    match o
    case Ok(output, size, meta) =>
      var extra :=
        if t == Decompile then (if Truthy(meta) then [(Success, "Metadata saved to: " + meta.value)] else [])
        else [(Success, "Total size: " + ShowSize(size) + " bytes")];
      [(Info, Rule),
       (Success, CheckMark + " " + Activity(t) + " completed successfully!"),
       (Success, "Output saved to: " + output)]
      + extra + [(Info, Rule)]
    case ToolFail(error) =>
      [(Info, Rule), (Error, CrossMark + " " + Activity(t) + " failed: " + error), (Info, Rule)]
    case Threw(message) =>
      [(Info, Rule), (Error, CrossMark + " Critical error: " + message), (Info, Rule)]
  }

  /** The status a run sets once its outcome is known, before the processing flag is
      released (which then sets the status to 'Idle'). */
  function OutcomeStatus(t: Task, o: Outcome): (r: (string, string))
    ensures o.Ok? <==> r.0 == "Complete"
    ensures o.ToolFail? <==> r.0 == "Failed"
    ensures o.Threw? <==> r.0 == "Error"
    ensures o.ToolFail? ==> r.1 == o.error
    ensures o.Threw? ==> r.1 == o.message
  {
    match o
    case Ok(output, _, _) =>
      var verb := match t case Decompile => "Decompiled" case Compile => "Compiled" case DdsConvert => "Converted";
      ("Complete", verb + ": " + Basename(output))
    case ToolFail(error) => ("Failed", error)
    case Threw(message) => ("Error", message)
  }

  /** A task can run when both its paths are set and no task is running. */
  predicate Ready(j: Job, busy: bool)
  {
    Truthy(j.input) && Truthy(j.output) && !busy
  }

  /** The output suggested for an input file: same directory, same name, the task's
      target extension. */
  function SuggestOutput(input: string, ext: string): string
  {
    Join(Dir(input), Stem(input) + ext)
  }

  /** The output suggested for an input folder: `output.ido` inside it. */
  function SuggestFolderOutput(folder: string): string
  {
    Join(folder, "output.ido")
  }

  /** The target extension of the DDS task in each direction. */
  function DdsTargetExt(d: Direction): string
  {
    if d == DdsToPng then ".png" else ".dds"
  }

  /** The format name the DDS input handler reports in each direction. */
  function DdsSourceFormat(d: Direction): string
  {
    if d == DdsToPng then "DDS" else "PNG"
  }

  /** A suggested output lies next to its input, keeps its name and carries the target
      extension. */
  lemma SuggestOutputShape(input: string, ext: string)
    requires Basename(input) != "" && PlainDir(Dir(input))
    requires |ext| >= 1 && ext[0] == '.' && Free(ext[1..], '.') && Free(ext, Sep)
    ensures Dir(SuggestOutput(input, ext)) == Dir(input)
    ensures Stem(SuggestOutput(input, ext)) == Stem(input)
    ensures Extname(SuggestOutput(input, ext)) == ext
  {
    StemShape(input);
    var base := Stem(input) + ext;
    assert Free(base, Sep);
    JoinParts(Dir(input), base);
    ExtnameOfSuffixed(Dir(input), Stem(input), ext);
  }

  /** A suggested folder output is `output.ido` directly inside the folder. */
  lemma SuggestFolderOutputShape(folder: string)
    requires PlainDir(folder)
    ensures Dir(SuggestFolderOutput(folder)) == folder
    ensures Basename(SuggestFolderOutput(folder)) == "output.ido"
  {
    assert Free("output.ido", Sep);
    JoinParts(folder, "output.ido");
  }

  /** The metadata line appears in a successful decompile block exactly when the result
      carries a metadata path; the other tasks always report a size line instead. */
  lemma SuccessBlockLength(t: Task, output: string, size: Option<nat>, meta: Option<string>)
    ensures t == Decompile ==> |ResultBlock(t, Ok(output, size, meta))| == if Truthy(meta) then 5 else 4
    ensures t != Decompile ==> |ResultBlock(t, Ok(output, size, meta))| == 5
    ensures t == Decompile && Truthy(meta) ==>
      ResultBlock(t, Ok(output, size, meta))[3] == (Success, "Metadata saved to: " + meta.value)
    ensures t != Decompile ==>
      ResultBlock(t, Ok(output, size, meta))[3] == (Success, "Total size: " + ShowSize(size) + " bytes")
    ensures ResultBlock(t, Ok(output, size, meta))[2] == (Success, "Output saved to: " + output)
  {
  }

  /** A failed run reports the tool's error text, and a thrown call its message, as the
      end of the one error entry of the block. */
  lemma FailureBlockCarriesText(t: Task, o: Outcome)
    requires !o.Ok?
    ensures |ResultBlock(t, o)| == 3
    ensures var text := if o.ToolFail? then o.error else o.message;
      var m := ResultBlock(t, o)[1].1;
      |text| <= |m| && m[|m| - |text|..] == text
  {
    var text := if o.ToolFail? then o.error else o.message;
    var m := ResultBlock(t, o)[1].1;
    var prefix := m[..|m| - |text|];
    assert m == prefix + text;
  }

  /** The error entry of a tool failure names the task and says "failed"; that of a
      thrown call says "Critical error". The two can never be confused, whatever the
      text: the second character after the cross mark and its space differs. */
  lemma FailureKindsDiffer(t: Task, x: string)
    ensures ResultBlock(t, ToolFail(x))[1].1 == CrossMark + " " + Activity(t) + " failed: " + x
    ensures ResultBlock(t, Threw(x))[1].1 == CrossMark + " Critical error: " + x
    ensures ResultBlock(t, ToolFail(x))[1] != ResultBlock(t, Threw(x))[1]
  {
    var k := |CrossMark| + 2;
    assert (CrossMark + " " + Activity(t) + " failed: " + x)[k] == Activity(t)[1] != 'r';
    assert (CrossMark + " Critical error: " + x)[k] == 'r';
  }

  /** Selecting `models/model.ido` for decompilation with no output set suggests
      `models/model.xml`. */
  lemma DecompileSuggestionExample()
    ensures SuggestOutput("models/model.ido", ".xml") == "models/model.xml"
  {
    var input := Join("models", "model" + ".ido");
    assert input == "models/model.ido";
    ExtnameOfSuffixed("models", "model", ".ido");
    JoinDir("models", "model" + ".ido");
    assert Join("models", "model" + ".xml") == "models/model.xml";
  }

  // ---------------------------------------------------------------- the panel

  class JobPanel {
    var decompile: Job
    var compile: Job
    var dds: Job
    var direction: Direction
    var currentTab: string
    var isProcessing: bool
    var log: seq<Entry>
    var statusText: string
    var statusDetails: string
    var decompileRunDisabled: bool
    var compileRunDisabled: bool
    var ddsRunDisabled: bool

    /** The paths of one task. */
    function JobOf(t: Task): Job
      reads this
    {
      match t
      case Decompile => decompile
      case Compile => compile
      case DdsConvert => dds
    }

    /** Whether a task's run button is disabled. */
    function RunDisabled(t: Task): bool
      reads this
    {
      match t
      case Decompile => decompileRunDisabled
      case Compile => compileRunDisabled
      case DdsConvert => ddsRunDisabled
    }

    /** Every run button is disabled exactly when its task is not ready. */
    predicate Valid()
      reads this
    {
      && decompileRunDisabled == !Ready(decompile, isProcessing)
      && compileRunDisabled == !Ready(compile, isProcessing)
      && ddsRunDisabled == !Ready(dds, isProcessing)
    }

    /** The state at start-up: no paths, DDS-to-PNG mode, not processing, the two
        greeting lines in the log, status 'Idle', every run button disabled. */
    constructor ()
      ensures Valid()
      ensures decompile == compile == dds == NoPaths && direction == DdsToPng && !isProcessing
      ensures currentTab == "decompile"
      ensures log == [(Info, "IDO Compiler & Decompiler initialized"),
                      (Info, "Select files and click the run button to begin")]
      ensures statusText == "Idle" && statusDetails == ""
      ensures RunDisabled(Decompile) && RunDisabled(Compile) && RunDisabled(DdsConvert)
    {
      decompile, compile, dds := NoPaths, NoPaths, NoPaths;
      direction := DdsToPng;
      currentTab := "decompile";
      isProcessing := false;
      log := [];
      statusText, statusDetails := "", "";
      decompileRunDisabled, compileRunDisabled, ddsRunDisabled := true, true, true;
      new;
      AddLog("IDO Compiler & Decompiler initialized", Info);
      AddLog("Select files and click the run button to begin", Info);
      UpdateStatus("Idle", "");
      UpdateButtons();
    }

    /** `addLog`: one entry at the end. */
    method AddLog(message: string, level: Level)
      modifies this`log
      ensures log == old(log) + [(level, message)]
    {
      log := log + [(level, message)];
    }

    /** `clearLog`: the log is emptied, then records that it was cleared. */
    method ClearLog()
      requires Valid()
      modifies this`log
      ensures Valid()
      ensures log == [(Info, "Log cleared.")]
    {
      log := [];
      AddLog("Log cleared.", Info);
    }

    /** `updateStatus` */
    method UpdateStatus(text: string, details: string)
      modifies this`statusText, this`statusDetails
      ensures statusText == text && statusDetails == details
    {
      statusText, statusDetails := text, details;
    }

    /** `updateButtons`: each run button follows its own task's readiness. */
    method UpdateButtons()
      modifies this`decompileRunDisabled, this`compileRunDisabled, this`ddsRunDisabled
      ensures Valid()
    {
      decompileRunDisabled := !Ready(decompile, isProcessing);
      compileRunDisabled := !Ready(compile, isProcessing);
      ddsRunDisabled := !Ready(dds, isProcessing);
    }

    /** `setProcessing`: sets the flag, shows 'Processing...' or 'Idle', and updates
        the run buttons. */
    method SetProcessing(busy: bool)
      modifies this`isProcessing, this`statusText, this`statusDetails
      modifies this`decompileRunDisabled, this`compileRunDisabled, this`ddsRunDisabled
      ensures Valid() && isProcessing == busy
      ensures busy ==> statusText == "Processing..." && statusDetails == "Please wait"
      ensures !busy ==> statusText == "Idle" && statusDetails == ""
      ensures busy ==> RunDisabled(Decompile) && RunDisabled(Compile) && RunDisabled(DdsConvert)
    {
      isProcessing := busy;
      if busy {
        UpdateStatus("Processing...", "Please wait");
      } else {
        UpdateStatus("Idle", "");
      }
      UpdateButtons();
    }

    /** Decompile input button. A chosen file becomes the input and is logged by its base
        name; when no output is set yet, `<name>.xml` next to the input becomes the
        output. A cancelled dialog changes nothing. */
    method SelectDecompileInput(chosen: Option<string>)
      requires Valid()
      modifies this`decompile, this`log
      modifies this`decompileRunDisabled, this`compileRunDisabled, this`ddsRunDisabled
      ensures Valid()
      ensures !Truthy(chosen) ==> unchanged(this)
      ensures Truthy(chosen) ==>
        && decompile.input == chosen
        && decompile.output == (if Truthy(old(decompile.output)) then old(decompile.output)
                                else Some(SuggestOutput(chosen.value, ".xml")))
        && log == old(log) + [(Info, "Selected input file: " + Basename(chosen.value))]
    {
      if Truthy(chosen) {
        var filePath := chosen.value;
        decompile := decompile.(input := chosen);
        AddLog("Selected input file: " + Basename(filePath), Info);
        if !Truthy(decompile.output) {
          decompile := decompile.(output := Some(SuggestOutput(filePath, ".xml")));
        }
        UpdateButtons();
      }
    }

    /** Decompile output button. `offered` is the default name handed to the save
        dialog; a chosen file replaces the output, whatever it was. */
    method SelectDecompileOutput(chosen: Option<string>) returns (offered: string)
      requires Valid()
      modifies this`decompile, this`log
      modifies this`decompileRunDisabled, this`compileRunDisabled, this`ddsRunDisabled
      ensures Valid()
      ensures offered == if Truthy(decompile.input) then BasenameWithout(decompile.input.value, ".ido") + ".xml"
                         else "output.xml"
      ensures !Truthy(chosen) ==> unchanged(this)
      ensures Truthy(chosen) ==>
        && decompile == old(decompile).(output := chosen)
        && log == old(log) + [(Info, "Set output location: " + Basename(chosen.value))]
    {
      offered := if Truthy(decompile.input) then BasenameWithout(decompile.input.value, ".ido") + ".xml"
                 else "output.xml";
      if Truthy(chosen) {
        decompile := decompile.(output := chosen);
        AddLog("Set output location: " + Basename(chosen.value), Info);
        UpdateButtons();
      }
    }

    /** Compile input-file button: as for decompile, with `<name>.ido` as suggestion. */
    method SelectCompileInputFile(chosen: Option<string>)
      requires Valid()
      modifies this`compile, this`log
      modifies this`decompileRunDisabled, this`compileRunDisabled, this`ddsRunDisabled
      ensures Valid()
      ensures !Truthy(chosen) ==> unchanged(this)
      ensures Truthy(chosen) ==>
        && compile.input == chosen
        && compile.output == (if Truthy(old(compile.output)) then old(compile.output)
                              else Some(SuggestOutput(chosen.value, ".ido")))
        && log == old(log) + [(Info, "Selected input file: " + Basename(chosen.value))]
    {
      if Truthy(chosen) {
        var filePath := chosen.value;
        compile := compile.(input := chosen);
        AddLog("Selected input file: " + Basename(filePath), Info);
        if !Truthy(compile.output) {
          compile := compile.(output := Some(SuggestOutput(filePath, ".ido")));
        }
        UpdateButtons();
      }
    }

    /** Compile input-folder button: the folder becomes the input; the suggestion is
        `output.ido` inside it. */
    method SelectCompileInputFolder(chosen: Option<string>)
      requires Valid()
      modifies this`compile, this`log
      modifies this`decompileRunDisabled, this`compileRunDisabled, this`ddsRunDisabled
      ensures Valid()
      ensures !Truthy(chosen) ==> unchanged(this)
      ensures Truthy(chosen) ==>
        && compile.input == chosen
        && compile.output == (if Truthy(old(compile.output)) then old(compile.output)
                              else Some(SuggestFolderOutput(chosen.value)))
        && log == old(log) + [(Info, "Selected input folder: " + Basename(chosen.value))]
    {
      if Truthy(chosen) {
        var folderPath := chosen.value;
        compile := compile.(input := chosen);
        AddLog("Selected input folder: " + Basename(folderPath), Info);
        if !Truthy(compile.output) {
          compile := compile.(output := Some(SuggestFolderOutput(folderPath)));
        }
        UpdateButtons();
      }
    }

    /** Compile output button. */
    method SelectCompileOutput(chosen: Option<string>) returns (offered: string)
      requires Valid()
      modifies this`compile, this`log
      modifies this`decompileRunDisabled, this`compileRunDisabled, this`ddsRunDisabled
      ensures Valid()
      ensures offered == if Truthy(compile.input) then Stem(compile.input.value) + ".ido" else "output.ido"
      ensures !Truthy(chosen) ==> unchanged(this)
      ensures Truthy(chosen) ==>
        && compile == old(compile).(output := chosen)
        && log == old(log) + [(Info, "Set output location: " + Basename(chosen.value))]
    {
      if Truthy(compile.input) {
        StemIsBasenameWithoutExtname(compile.input.value);
        offered := BasenameWithout(compile.input.value, Extname(compile.input.value)) + ".ido";
      } else {
        offered := "output.ido";
      }
      if Truthy(chosen) {
        compile := compile.(output := chosen);
        AddLog("Set output location: " + Basename(chosen.value), Info);
        UpdateButtons();
      }
    }

    /** A tab button: the named tab becomes the current one and the switch is logged.
        Jobs, mode, status and buttons are untouched. */
    method SwitchTab(tabName: string)
      requires Valid()
      modifies this`currentTab, this`log
      ensures Valid()
      ensures currentTab == tabName
      ensures log == old(log) + [(Info, "Switched to " + tabName + " mode")]
    {
      currentTab := tabName;
      AddLog("Switched to " + tabName + " mode", Info);
    }

    /** A DDS mode button. Choosing the current mode does nothing; choosing the other
        one switches the mode, clears both DDS paths and logs the switch. */
    method ToggleDirection(d: Direction)
      requires Valid()
      modifies this`direction, this`dds, this`log
      modifies this`decompileRunDisabled, this`compileRunDisabled, this`ddsRunDisabled
      ensures Valid()
      ensures old(direction) == d ==> unchanged(this)
      ensures old(direction) != d ==>
        && direction == d && dds == NoPaths
        && log == old(log) + [(Info, "Switched to " + ModeName(d) + " mode")]
    {
      if direction == d {
        return;
      }
      direction := d;
      dds := NoPaths;
      UpdateButtons();
      AddLog("Switched to " + ModeName(d) + " mode", Info);
    }

    /** DDS input button: the suggested output takes the extension of the current
        mode's target format. */
    method SelectDdsInput(chosen: Option<string>)
      requires Valid()
      modifies this`dds, this`log
      modifies this`decompileRunDisabled, this`compileRunDisabled, this`ddsRunDisabled
      ensures Valid()
      ensures !Truthy(chosen) ==> unchanged(this)
      ensures Truthy(chosen) ==>
        && dds.input == chosen
        && dds.output == (if Truthy(old(dds.output)) then old(dds.output)
                          else Some(SuggestOutput(chosen.value, DdsTargetExt(direction))))
        && log == old(log) + [(Info, "Selected " + DdsSourceFormat(direction) + " file: " + Basename(chosen.value))]
    {
      var isDdsToPng := direction == DdsToPng;
      if Truthy(chosen) {
        var filePath := chosen.value;
        dds := dds.(input := chosen);
        AddLog("Selected " + (if isDdsToPng then "DDS" else "PNG") + " file: " + Basename(filePath), Info);
        if !Truthy(dds.output) {
          var ext := if isDdsToPng then ".png" else ".dds";
          StemIsBasenameWithoutExtname(filePath);
          var suggested := Join(Dir(filePath), BasenameWithout(filePath, Extname(filePath)) + ext);
          dds := dds.(output := Some(suggested));
        }
        UpdateButtons();
      }
    }

    /** DDS output button. */
    method SelectDdsOutput(chosen: Option<string>) returns (offered: string)
      requires Valid()
      modifies this`dds, this`log
      modifies this`decompileRunDisabled, this`compileRunDisabled, this`ddsRunDisabled
      ensures Valid()
      ensures offered == (if Truthy(dds.input) then Stem(dds.input.value) else "output") + DdsTargetExt(direction)
      ensures !Truthy(chosen) ==> unchanged(this)
      ensures Truthy(chosen) ==>
        && dds == old(dds).(output := chosen)
        && log == old(log) + [(Info, "Set output location: " + Basename(chosen.value))]
    {
      var ext := if direction == DdsToPng then ".png" else ".dds";
      if Truthy(dds.input) {
        StemIsBasenameWithoutExtname(dds.input.value);
        offered := BasenameWithout(dds.input.value, Extname(dds.input.value)) + ext;
      } else {
        offered := "output" + ext;
      }
      if Truthy(chosen) {
        dds := dds.(output := chosen);
        AddLog("Set output location: " + Basename(chosen.value), Info);
        UpdateButtons();
      }
    }

    /** The opening of a run: the paths as they stand and the DDS mode. */
    method LogStart(t: Task)
      modifies this`log
      ensures log == old(log) + StartBlock(t, JobOf(t), direction)
    {
      var job := JobOf(t);
      AddLog(Rule, Info);
      AddLog(StartMessage(t, direction), Info);
      AddLog("Input: " + ShowPath(job.input), Info);
      AddLog("Output: " + ShowPath(job.output), Info);
      AddLog(Rule, Info);
    }

    /** The block that reports the outcome of a run. */
    method LogOutcome(t: Task, outcome: Outcome)
      modifies this`log
      ensures log == old(log) + ResultBlock(t, outcome)
    {
      match outcome {
        case Ok(output, size, meta) =>
          AddLog(Rule, Info);
          AddLog(CheckMark + " " + Activity(t) + " completed successfully!", Success);
          AddLog("Output saved to: " + output, Success);
          if t == Decompile {
            if Truthy(meta) {
              AddLog("Metadata saved to: " + meta.value, Success);
            }
          } else {
            AddLog("Total size: " + ShowSize(size) + " bytes", Success);
          }
          AddLog(Rule, Info);
        case ToolFail(error) =>
          AddLog(Rule, Info);
          AddLog(CrossMark + " " + Activity(t) + " failed: " + error, Error);
          AddLog(Rule, Info);
        case Threw(message) =>
          AddLog(Rule, Info);
          AddLog(CrossMark + " Critical error: " + message, Error);
          AddLog(Rule, Info);
      }
    }

    /** A run button, for any of the three tasks. While another run is in progress it
        does nothing. Otherwise it raises the processing flag, logs the start block,
        logs the block for the outcome, sets the outcome's status, and in every case
        releases the flag again, which leaves the status at 'Idle'. It never changes
        a task's paths or the DDS mode. */
    method Run(t: Task, outcome: Outcome)
      requires Valid()
      modifies this`isProcessing, this`log, this`statusText, this`statusDetails
      modifies this`decompileRunDisabled, this`compileRunDisabled, this`ddsRunDisabled
      ensures Valid()
      ensures old(isProcessing) ==> unchanged(this)
      ensures !old(isProcessing) ==>
        && log == old(log) + StartBlock(t, JobOf(t), direction) + ResultBlock(t, outcome)
        && !isProcessing
        && statusText == "Idle" && statusDetails == ""
        && RunDisabled(t) == !(Truthy(JobOf(t).input) && Truthy(JobOf(t).output))
    {
      if isProcessing {
        return;
      }
      SetProcessing(true);
      LogStart(t);
      LogOutcome(t, outcome);
      var status := OutcomeStatus(t, outcome);
      UpdateStatus(status.0, status.1);
      SetProcessing(false);
    }
  }
}
