/**
 * The `tweak` console command: `tweak set <name> <value>`, `tweak save
 * [file]`, `tweak load [file]` and `tweak list [name]`, over the process-wide
 * TweakSettings. Subcommands are matched without regard to case; a wrong
 * argument count is logged and changes nothing.
 */
module TweakCommand {
  import opened Wrappers
  import TS = TweakSettings

  const COMMAND_NAME := "tweak"
  const DEFAULT_FILE := "tweakSettings.xml"

  datatype Level = Info | Warning

  datatype LogLine = LogLine(level: Level, text: string)

  /** What `run` decides to do from its arguments alone (`args[0]` is the command name). */
  datatype Action =
    | TooFew
    | Unknown(arg: string)
    | BadCount
    | SetTo(name: string, value: string)
    | SaveTo(file: string)
    | LoadFrom(file: string)
    | ListAll
    | ListOne(name: string)

  /** The file named by a `save` or `load` with two or three arguments. */
  function FileArg(args: seq<string>): string
    requires 2 <= |args|
  {
    if |args| == 3 then args[2] else DEFAULT_FILE
  }

  /** `run` and the argument-count checks of the four subcommands. */
  function Plan(args: seq<string>): Action
  {
    if |args| < 2 then TooFew
    else if TS.IEquals(args[1], "set") then (if |args| != 4 then BadCount else SetTo(args[2], args[3]))
    else if TS.IEquals(args[1], "save") then (if |args| > 3 then BadCount else SaveTo(FileArg(args)))
    else if TS.IEquals(args[1], "load") then (if |args| > 3 then BadCount else LoadFrom(FileArg(args)))
    else if TS.IEquals(args[1], "list") then (if |args| == 2 then ListAll else if |args| == 3 then ListOne(args[2]) else BadCount)
    else Unknown(args[1])
  }

  /** The four subcommand names differ from one another whatever the case. */
  lemma SubcommandsDistinct()
    ensures !TS.IEquals("set", "save") && !TS.IEquals("set", "load") && !TS.IEquals("set", "list")
    ensures !TS.IEquals("save", "load") && !TS.IEquals("save", "list") && !TS.IEquals("load", "list")
  {
    assert TS.Lower("save"[1]) != TS.Lower("set"[1]);
    assert TS.Lower("load"[0]) != TS.Lower("save"[0]);
    assert TS.Lower("list"[1]) != TS.Lower("load"[1]);
  }

  /** The subcommand's case does not matter. */
  lemma {:induction false} PlanIgnoresCase(args: seq<string>, other: seq<string>)
    requires |args| == |other| >= 2 && TS.IEquals(args[1], other[1])
    requires forall i :: 0 <= i < |args| && i != 1 ==> args[i] == other[i]
    ensures Plan(args) == Plan(other) || (Plan(args).Unknown? && Plan(other).Unknown?)
  {
    IEqualsTransitive(args[1], other[1], "set");
    IEqualsTransitive(other[1], args[1], "set");
    IEqualsTransitive(args[1], other[1], "save");
    IEqualsTransitive(other[1], args[1], "save");
    IEqualsTransitive(args[1], other[1], "load");
    IEqualsTransitive(other[1], args[1], "load");
    IEqualsTransitive(args[1], other[1], "list");
    IEqualsTransitive(other[1], args[1], "list");
  }

  lemma IEqualsTransitive(a: string, b: string, c: string)
    ensures TS.IEquals(a, b) ==> (TS.IEquals(a, c) <==> TS.IEquals(b, c))
  {
  }

  /**
   * The argument-count rules: `set` takes exactly four arguments; `save` and
   * `load` two or three, the default file with two; `list` two or three.
   */
  lemma PlanCounts(args: seq<string>)
    ensures |args| < 2 <==> Plan(args) == TooFew
    ensures Plan(args).SetTo? <==> |args| == 4 && TS.IEquals(args[1], "set")
    ensures Plan(args).SaveTo? <==> 2 <= |args| <= 3 && TS.IEquals(args[1], "save")
    ensures Plan(args).LoadFrom? <==> 2 <= |args| <= 3 && TS.IEquals(args[1], "load") && !TS.IEquals(args[1], "save")
    ensures (Plan(args).SaveTo? || Plan(args).LoadFrom?) && |args| == 2 ==> Plan(args) in {SaveTo(DEFAULT_FILE), LoadFrom(DEFAULT_FILE)}
    ensures Plan(args).ListAll? <==> |args| == 2 && TS.IEquals(args[1], "list")
    ensures Plan(args).ListOne? <==> |args| == 3 && TS.IEquals(args[1], "list")
  {
    SubcommandsDistinct();
    if |args| >= 2 {
      IEqualsTransitive(args[1], "save", "load");
      IEqualsTransitive(args[1], "set", "save");
      IEqualsTransitive(args[1], "set", "load");
      IEqualsTransitive(args[1], "set", "list");
      IEqualsTransitive(args[1], "save", "list");
      IEqualsTransitive(args[1], "load", "list");
    }
  }

  const INVALID_COUNT := LogLine(Info, "Invalid number of arguments to command")

  /** `listSettings` with a name: the stored value, or "Not set". */
  function ListOneLine(es: seq<TS.Entry>, name: string): LogLine
  {
    LogLine(Info, name + " = " + match TS.Lookup(es, name) case Some(e) => e.value case None => "Not set")
  }

  /** What `run` leaves behind: its log (or the exception it lets out), the settings, and the document it saved. */
  datatype Outcome = Outcome(result: Result<seq<LogLine>, string>, entries: seq<TS.Entry>, saved: Option<(string, seq<TS.SettingElement>)>)

  /** The log lines of a listing of every setting. */
  function ListLines(es: seq<TS.Entry>): (r: seq<LogLine>)
    ensures |r| == |es| && forall i :: 0 <= i < |es| ==> r[i] == LogLine(Info, TS.Descriptions(es)[i])
  {
    seq(|es|, i requires 0 <= i < |es| => LogLine(Info, TS.Descriptions(es)[i]))
  }

  /** The error `loadSettings` throws for a document, if any. */
  function LoadError(doc: TS.Document): Option<string>
  {
    if doc.size == 0 then Some(TS.INVALID_STREAM)
    else if doc.root.None? then Some(TS.MISSING_ROOT)
    else None
  }

  /**
   * `run` over settings `es`; `present` says whether an instance exists (if
   * not, `getInstance` throws out of the command). `absolute` stands for
   * `boost::filesystem::absolute`, which `save` and `load` apply to the file
   * name before they log or open it; `writable` says whether a path opens for
   * writing, `files` what each readable path holds.
   */
  function Execute(args: seq<string>, present: bool, es: seq<TS.Entry>, absolute: string -> string, writable: string -> bool, files: map<string, TS.Document>): Outcome
  {
    match Plan(args)
    case TooFew => Outcome(Ok([LogLine(Info, "To few arguments to command")]), es, None)
    case Unknown(arg) => Outcome(Ok([LogLine(Info, "Unknown argument: '" + arg + "'")]), es, None)
    case BadCount => Outcome(Ok([INVALID_COUNT]), es, None)
    case SetTo(name, value) =>
      if !present then Outcome(Err(TS.NOT_INITIALIZED), es, None)
      else Outcome(Ok([LogLine(Info, "Set '" + name + "' to '" + value + "'")]), TS.SetValue(es, name, value), None)
    case SaveTo(file) =>
      var path := absolute(file);
      if !writable(path) then Outcome(Ok([LogLine(Warning, "Failed to save settings to '" + path + "'")]), es, None)
      else if !present then Outcome(Err(TS.NOT_INITIALIZED), es, None)
      else Outcome(Ok([LogLine(Info, "Saved settings to '" + path + "'")]), es, Some((path, TS.Saved(es))))
    case LoadFrom(file) =>
      var path := absolute(file);
      if path !in files then Outcome(Ok([LogLine(Warning, "Failed to load settings from '" + path + "'")]), es, None)
      else if !present then Outcome(Err(TS.NOT_INITIALIZED), es, None)
      else
        (match LoadError(files[path])
         case Some(e) => Outcome(Ok([LogLine(Warning, "Failed to load settings from '" + path + "': " + e)]), es, None)
         case None => Outcome(Ok([LogLine(Info, "Loaded settings from '" + path + "'")]), TS.Applied(es, files[path].root.value), None))
    case ListAll =>
      if !present then Outcome(Err(TS.NOT_INITIALIZED), es, None) else Outcome(Ok(ListLines(es)), es, None)
    case ListOne(name) =>
      if !present then Outcome(Err(TS.NOT_INITIALIZED), es, None) else Outcome(Ok([ListOneLine(es, name)]), es, None)
  }

  /**
   * Only `set` and a successful `load` change settings, and only `save` writes
   * a document, to the absolute form of the file name.
   */
  lemma ExecuteChanges(args: seq<string>, present: bool, es: seq<TS.Entry>, absolute: string -> string, writable: string -> bool, files: map<string, TS.Document>)
    ensures var o := Execute(args, present, es, absolute, writable, files);
      && (o.entries != es ==> Plan(args).SetTo? || Plan(args).LoadFrom?)
      && (o.saved.Some? <==> Plan(args).SaveTo? && writable(absolute(Plan(args).file)) && present)
      && (o.saved.Some? ==> o.saved.value == (absolute(Plan(args).file), TS.Saved(es)))
      && (!present ==> o.entries == es)
      && (o.result.Err? <==>
            (!present && Plan(args) !in {TooFew, BadCount} && !Plan(args).Unknown?
             && !(Plan(args).SaveTo? && !writable(absolute(Plan(args).file)))
             && !(Plan(args).LoadFrom? && absolute(Plan(args).file) !in files)))
  {
  }

  /** `run`, against the process-wide instance. */
  method Run(args: seq<string>, single: TS.Singleton, absolute: string -> string, writable: string -> bool, files: map<string, TS.Document>)
    returns (r: Result<seq<LogLine>, string>, saved: Option<(string, seq<TS.SettingElement>)>)
    requires single.instance != null ==> single.instance.Valid()
    modifies if single.instance == null then {} else {single.instance}
    ensures single.instance != null ==>
              (single.instance.Valid()
               && Outcome(r, single.instance.entries, saved) == Execute(args, true, old(single.instance.entries), absolute, writable, files))
    ensures single.instance == null ==> Outcome(r, [], saved) == Execute(args, false, [], absolute, writable, files)
  {
    saved := None;
    match Plan(args)
    case TooFew =>
      r := Ok([LogLine(Info, "To few arguments to command")]);
    case Unknown(arg) =>
      r := Ok([LogLine(Info, "Unknown argument: '" + arg + "'")]);
    case BadCount =>
      r := Ok([INVALID_COUNT]);
    case SetTo(name, value) =>
      var inst := single.GetInstance();
      if inst.Err? {
        return Err(inst.error), None;
      }
      var _ := inst.value.SetSetting(name, value);
      r := Ok([LogLine(Info, "Set '" + name + "' to '" + value + "'")]);
    case SaveTo(file) =>
      var path := absolute(file);
      if writable(path) {
        var inst := single.GetInstance();
        if inst.Err? {
          return Err(inst.error), None;
        }
        var elements := inst.value.SaveSettings();
        saved := Some((path, elements));
        r := Ok([LogLine(Info, "Saved settings to '" + path + "'")]);
      } else {
        r := Ok([LogLine(Warning, "Failed to save settings to '" + path + "'")]);
      }
    case LoadFrom(file) =>
      var path := absolute(file);
      if path in files {
        var inst := single.GetInstance();
        if inst.Err? {
          return Err(inst.error), None;
        }
        var loaded := inst.value.LoadSettings(files[path]);
        if loaded.Ok? {
          r := Ok([LogLine(Info, "Loaded settings from '" + path + "'")]);
        } else {
          r := Ok([LogLine(Warning, "Failed to load settings from '" + path + "': " + loaded.error)]);
        }
      } else {
        r := Ok([LogLine(Warning, "Failed to load settings from '" + path + "'")]);
      }
    case ListAll =>
      var inst := single.GetInstance();
      if inst.Err? {
        return Err(inst.error), None;
      }
      var lines := inst.value.GetSettings();
      r := Ok(seq(|lines|, i requires 0 <= i < |lines| => LogLine(Info, lines[i])));
    case ListOne(name) =>
      var inst := single.GetInstance();
      if inst.Err? {
        return Err(inst.error), None;
      }
      var val := inst.value.QueryString(name, "Not set");
      r := Ok([LogLine(Info, name + " = " + val)]);
  }
}
