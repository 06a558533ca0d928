/**
 * raconfig/include/raconfig/raconfig.hpp: the option schema and the
 * parse, merge, validate and commit engine of `raconfig::config`.
 *
 * The external parsers are inputs. `Argv` is what the Boost command-line
 * tokenizer produced: a failure (malformed token, repeated scalar, bad
 * lexical cast), or the typed value of every long name it met. A
 * `FileSystem` maps a path to what the INI parser produced for that file.
 * `Lookup` models the check Boost's parsers make against the options
 * `init_option` registered, where an unknown name or a mistyped value fails;
 * the engine's own steps are the `--config` path, the merge order, the
 * validators and the commit.
 */
module Engine {
  import opened Wrappers
  import opened Values
  import opened Containers
  import opened Range

  /** `skip_option_check`: the validator of an option declared without one. */
  function SkipCheck(v: Value): bool
  {
    true
  }

  /**
   * A Boost command-line option name: `"text,t"` declares the long name
   * `--text` and the short name `-t`, `"power2"` a long name only.
   */
  datatype CmdName = CmdName(long: string, short: Option<char>)

  /**
   * One `RACONFIG_OPTION_CHECKED` descriptor: its tag name, C++ type,
   * default value (the braced initializer for a container), validator,
   * command-line and file names (None for `RACONFIG_NO_NAME`) and description.
   */
  datatype OptionDecl = OptionDecl(
    name: string,
    shape: Shape,
    default: Value,
    check: Value -> bool,
    cmdName: Option<CmdName>,
    cfgName: Option<string>,
    description: string)

  /** `RACONFIG_OPTION`: a descriptor whose validator is `skip_option_check`. */
  function UncheckedOption(name: string, shape: Shape, default: Value, cmdName: Option<CmdName>,
                           cfgName: Option<string>, description: string): OptionDecl
  {
    OptionDecl(name, shape, default, SkipCheck, cmdName, cfgName, description)
  }

  /** `RACONFIG_OPTION_EASY`: an unchecked option registered under its tag name on both sides. */
  function EasyOption(tag: string, shape: Shape, default: Value, description: string): OptionDecl
  {
    UncheckedOption(tag, shape, default, Some(CmdName(tag, None)), Some(tag), description)
  }

  /** The option types of `config<Actions, Ts...>`, in declaration order. */
  type Schema = seq<OptionDecl>

  /** `raconfig::config_error`: the one error kind a parse lets escape. */
  datatype ConfigError = ConfigError(message: string) | OptionCheckFailed(option: string, value: string)

  /** What `parse_cmd_line_impl` can throw. */
  datatype Exception = Raised(error: ConfigError) | StdException(what: string) | UnknownException

  type CallbackId = nat

  datatype HelpEntry = HelpEntry(name: CmdName, description: string)

  /** What the `Actions` sink and the callbacks are asked to do, in order. */
  datatype Event =
    | Help(entries: seq<HelpEntry>)
    | Version(text: string)
    | ShowConfigBegin
    | ShowValue(name: string, value: string)
    | ShowList(name: string, values: seq<string>)
    | ShowConfigEnd
    | CallbackRan(id: CallbackId)

  datatype Argv = ArgvFailed(what: string) | Tokens(given: map<string, Value>)

  datatype FileContents = Unparsable(what: string) | Entries(given: map<string, Value>)

  type FileSystem = map<string, FileContents>

  datatype Side = CommandLine | File

  const HelpFlag: string := "help"
  const VersionFlag: string := "version"
  const ShowConfigFlag: string := "show-config"
  const ConfigFlag: string := "config"

  const UnknownExceptionMessage: string := "unknown exception"
  const UnrecognisedOption: string := "unrecognised option"
  const InvalidOptionValue: string := "invalid option value"
  const CannotReadFile: string := "can not read options configuration file"

  function Names(schema: Schema): seq<string>
  {
    seq(|schema|, i requires 0 <= i < |schema| => schema[i].name)
  }

  /** `find_type`: the position of a tag in the option list. */
  function FindType(tags: seq<string>, tag: string): (i: nat)
    requires tag in tags
    ensures i < |tags| && tags[i] == tag
    ensures forall j :: 0 <= j < i ==> tags[j] != tag
  {
    if tags[0] == tag then 0 else 1 + FindType(tags[1..], tag)
  }

  /** The name under which `init_option` registers `d` on one side, if any. */
  function Key(d: OptionDecl, side: Side): Option<string>
  {
    match side
    case CommandLine => if d.cmdName.Some? then Some(d.cmdName.value.long) else None
    case File => d.cfgName
  }

  /** The built-in command-line options; `version` only when a version string is configured. */
  function ControlNames(version: Option<string>): set<string>
  {
    {HelpFlag, ShowConfigFlag, ConfigFlag} + (if version.Some? then {VersionFlag} else {})
  }

  predicate DistinctKeys(schema: Schema, side: Side)
  {
    forall i, j :: 0 <= i < j < |schema| && Key(schema[i], side).Some? ==> Key(schema[i], side) != Key(schema[j], side)
  }

  /**
   * The option lists the model admits. Distinct tags reflect the template
   * itself (the tuple is indexed by type), and well-typed defaults reflect
   * the construction of each cell. Distinct registered names that do not
   * clash with the built-in options are the model's own assumption: the
   * template accepts such clashes, and Boost reports the ambiguity only when
   * the name is given.
   */
  predicate WellFormed(schema: Schema)
  {
    && (forall i, j :: 0 <= i < j < |schema| ==> schema[i].name != schema[j].name)
    && DistinctKeys(schema, CommandLine)
    && DistinctKeys(schema, File)
    && (forall i :: 0 <= i < |schema| && Key(schema[i], CommandLine).Some? ==>
          Key(schema[i], CommandLine).value !in {HelpFlag, VersionFlag, ShowConfigFlag, ConfigFlag})
    && (forall i :: 0 <= i < |schema| ==> Conforms(schema[i].shape, schema[i].default))
  }

  predicate Registered(schema: Schema, side: Side, k: string)
  {
    exists i :: 0 <= i < |schema| && Key(schema[i], side) == Some(k)
  }

  predicate Supplied(d: OptionDecl, side: Side, given: map<string, Value>)
  {
    Key(d, side).Some? && Key(d, side).value in given
  }

  /**
   * The parser's view of the registered options: an unregistered name or a
   * value of the wrong type fails; otherwise each supplied option's value,
   * by option index.
   */
  function Lookup(schema: Schema, side: Side, given: map<string, Value>): Result<map<nat, Value>, Exception>
  {
    if exists k :: k in given && !Registered(schema, side, k) then
      Failure(StdException(UnrecognisedOption))
    else if exists i :: 0 <= i < |schema| && Supplied(schema[i], side, given) &&
                        !Conforms(schema[i].shape, given[Key(schema[i], side).value]) then
      Failure(StdException(InvalidOptionValue))
    else
      Success(map i: nat | i < |schema| && Supplied(schema[i], side, given) :: given[Key(schema[i], side).value])
  }

  /** The variables map of a successful command-line parse. */
  datatype Parsed = Parsed(help: bool, version: bool, showConfig: bool, configPath: Option<string>, values: map<nat, Value>)

  predicate IsPath(v: Value)
  {
    v.One? && v.scalar.Text?
  }

  function ParseArgs(schema: Schema, version: Option<string>, given: map<string, Value>): Result<Parsed, Exception>
  {
    if ConfigFlag in given && !IsPath(given[ConfigFlag]) then
      Failure(StdException(InvalidOptionValue))
    else
      match Lookup(schema, CommandLine, given - ControlNames(version))
      case Failure(e) => Failure(e)
      case Success(values) =>
        Success(Parsed(
          HelpFlag in given,
          version.Some? && VersionFlag in given,
          ShowConfigFlag in given,
          if ConfigFlag in given then Some(given[ConfigFlag].scalar.text) else None,
          values))
  }

  /** `parse_file_impl`'s parse: the file's options by index, or the failure. */
  function ReadFile(schema: Schema, fs: FileSystem, path: string): Result<map<nat, Value>, Exception>
  {
    if path !in fs then Failure(StdException(CannotReadFile))
    else
      match fs[path]
      case Unparsable(what) => Failure(StdException(what))
      case Entries(given) => Lookup(schema, File, given)
  }

  function FileValues(schema: Schema, fs: FileSystem, path: Option<string>): Result<map<nat, Value>, Exception>
  {
    if path.Some? then ReadFile(schema, fs, path.value) else Success(map[])
  }

  /** The user value `tag()` constructs: `option_value<type>{default_value}`. */
  function Seed(d: OptionDecl): Value
  {
    ToUser(d.shape, d.default)
  }

  function Seeds(schema: Schema): seq<Value>
  {
    seq(|schema|, i requires 0 <= i < |schema| => Seed(schema[i]))
  }

  /** The backend of each cell of `tmp` after the file and then the command line were notified. */
  function Backends(schema: Schema, fileValues: map<nat, Value>, cmdValues: map<nat, Value>): seq<Value>
  {
    seq(|schema|, i requires 0 <= i < |schema| =>
      if i in cmdValues then cmdValues[i]
      else if i in fileValues then fileValues[i]
      else Seed(schema[i]))
  }

  /** The user value of each cell after `transform_backend`. */
  function Users(schema: Schema, backends: seq<Value>): seq<Value>
    requires |backends| == |schema|
  {
    seq(|schema|, i requires 0 <= i < |schema| => ToUser(schema[i].shape, backends[i]))
  }

  function OptionEntries(schema: Schema): seq<HelpEntry>
  {
    if schema == [] then []
    else
      (if schema[0].cmdName.Some? then [HelpEntry(schema[0].cmdName.value, schema[0].description)] else [])
      + OptionEntries(schema[1..])
  }

  /** The `options_description` passed to the help action. */
  function HelpEntries(schema: Schema, version: Option<string>): seq<HelpEntry>
  {
    [HelpEntry(CmdName(HelpFlag, None), "Show this message and exit")]
    + (if version.Some? then [HelpEntry(CmdName(VersionFlag, None), "Show version and exit")] else [])
    + [HelpEntry(CmdName(ShowConfigFlag, None), "Show final configuration and exit"),
       HelpEntry(CmdName(ConfigFlag, None), "Load options from file, command line options override ones from file")]
    + OptionEntries(schema)
  }

  /** The help and version actions, fired right after the command line is parsed. */
  function EarlyEvents(schema: Schema, version: Option<string>, p: Parsed): seq<Event>
  {
    (if p.help then [Help(HelpEntries(schema, version))] else [])
    + (if p.version && version.Some? then [Version(version.value)] else [])
  }

  /** `detail::to_string(v)`: lexical_cast for a scalar, the braced form for a container. */
  function ToText(v: Value): string
  {
    match v
    case One(s) => RenderScalar(s)
    case Many(xs) => Braced(Renders(xs))
  }

  /** `show_option(actions, option)`: a scalar as one string, a container as one string per element. */
  function ShowEvent(name: string, v: Value): Event
  {
    match v
    case One(s) => ShowValue(name, RenderScalar(s))
    case Many(xs) => ShowList(name, Renders(xs))
  }

  function ShowConfigEvents(schema: Schema, values: seq<Value>): seq<Event>
    requires |values| == |schema|
  {
    [ShowConfigBegin]
    + seq(|schema|, i requires 0 <= i < |schema| => ShowEvent(schema[i].name, values[i]))
    + [ShowConfigEnd]
  }

  function CallbackEvents(callbacks: seq<CallbackId>): seq<Event>
  {
    seq(|callbacks|, i requires 0 <= i < |callbacks| => CallbackRan(callbacks[i]))
  }

  /** The first option from `from` on whose validator rejects its user value. */
  function FirstFailing(schema: Schema, users: seq<Value>, from: nat): (r: Option<nat>)
    requires |users| == |schema| && from <= |schema|
    ensures r.Some? ==> from <= r.value < |schema| && !schema[r.value].check(users[r.value])
    ensures r.Some? ==> forall i :: from <= i < r.value ==> schema[i].check(users[i])
    ensures r.None? ==> forall i :: from <= i < |schema| ==> schema[i].check(users[i])
    decreases |schema| - from
  {
    if from == |schema| then None
    else if !schema[from].check(users[from]) then Some(from)
    else FirstFailing(schema, users, from + 1)
  }

  /** The exception the `check_value` fold throws, if any. */
  function CheckFailure(schema: Schema, users: seq<Value>): Option<Exception>
    requires |users| == |schema|
  {
    match FirstFailing(schema, users, 0)
    case Some(j) => Some(Raised(OptionCheckFailed(schema[j].name, ToText(users[j]))))
    case None => None
  }

  /** The Boost command-line parse, including its check of names and values against the registered options (`Lookup`). */
  function ReadCommandLine(schema: Schema, version: Option<string>, argv: Argv): Result<Parsed, Exception>
  {
    match argv
    case ArgvFailed(what) => Failure(StdException(what))
    case Tokens(given) => ParseArgs(schema, version, given)
  }

  /**
   * What follows a successful command-line parse: the file's values, the
   * merge, the conversion and the validators; the values to commit or the exception.
   */
  function Convert(schema: Schema, fs: FileSystem, p: Parsed): (r: Result<seq<Value>, Exception>)
    ensures r.Success? ==> |r.value| == |schema|
  {
    match FileValues(schema, fs, p.configPath)
    case Failure(e) => Failure(e)
    case Success(fileValues) =>
      var users := Users(schema, Backends(schema, fileValues, p.values));
      match CheckFailure(schema, users)
      case Some(e) => Failure(e)
      case None => Success(users)
  }

  /** One `parse_cmd_line_impl` call: the actions fired, the values to commit or the exception, and show-config. */
  datatype Attempt = Attempt(early: seq<Event>, result: Result<seq<Value>, Exception>, showConfig: bool)

  function Parse(schema: Schema, version: Option<string>, argv: Argv, fs: FileSystem): (a: Attempt)
    ensures a.result.Success? ==> |a.result.value| == |schema|
    ensures a.showConfig ==> a.result.Success?
  {
    match ReadCommandLine(schema, version, argv)
    case Failure(e) => Attempt([], Failure(e), false)
    case Success(p) =>
      var r := Convert(schema, fs, p);
      Attempt(EarlyEvents(schema, version, p), r, r.Success? && p.showConfig)
  }

  /** The catch clauses of `parse_cmd_line`. */
  function ToConfigError(ex: Exception): ConfigError
  {
    match ex
    case Raised(e) => e
    case StdException(what) => ConfigError(what)
    case UnknownException => ConfigError(UnknownExceptionMessage)
  }

  /** `parse_file(path)` parses the arguments `{"", "--config", path}`. */
  function FileArgv(path: string): Argv
  {
    Tokens(map[ConfigFlag := One(Text(path))])
  }

  predicate Distinct(cells: seq<OptionValue>)
  {
    forall i, j :: 0 <= i < j < |cells| ==> cells[i] != cells[j]
  }

  /** `std::tuple<Ts...> tmp;`: one fresh cell per option, holding its default. */
  method NewCells(schema: Schema) returns (tmp: seq<OptionValue>)
    requires WellFormed(schema)
    ensures |tmp| == |schema| && Distinct(tmp)
    ensures forall i :: 0 <= i < |tmp| ==> fresh(tmp[i])
    ensures forall i :: 0 <= i < |tmp| ==> tmp[i].shape == schema[i].shape && tmp[i].backend == Seed(schema[i])
    ensures forall i :: 0 <= i < |tmp| ==> tmp[i].Get() == Seed(schema[i])
  {
    SeedsCanonical(schema);
    tmp := [];
    for i := 0 to |schema|
      invariant |tmp| == i && Distinct(tmp)
      invariant forall k :: 0 <= k < i ==> fresh(tmp[k])
      invariant forall k :: 0 <= k < i ==> tmp[k].shape == schema[k].shape && tmp[k].backend == Seed(schema[k])
      invariant forall k :: 0 <= k < i ==> tmp[k].Get() == Seed(schema[k])
    {
      var cell := new OptionValue(schema[i].shape, Seed(schema[i]));
      tmp := tmp + [cell];
    }
  }

  /** `po::notify(vm)`: every option in the variables map is written to its cell. */
  method Notify(tmp: seq<OptionValue>, values: map<nat, Value>)
    requires Distinct(tmp)
    modifies set c | c in tmp
    ensures forall i :: 0 <= i < |tmp| ==> tmp[i].backend == if i in values then values[i] else old(tmp[i].backend)
    ensures forall i :: 0 <= i < |tmp| ==> tmp[i].user == old(tmp[i].user)
  {
    for i := 0 to |tmp|
      invariant forall k :: 0 <= k < i ==> tmp[k].backend == if k in values then values[k] else old(tmp[k].backend)
      invariant forall k :: i <= k < |tmp| ==> tmp[k].backend == old(tmp[k].backend)
      invariant forall k :: 0 <= k < |tmp| ==> tmp[k].user == old(tmp[k].user)
    {
      if i in values {
        tmp[i].Store(values[i]);
      }
    }
  }

  /** The `transform_backend` fold over `tmp`. */
  method TransformAll(tmp: seq<OptionValue>)
    requires Distinct(tmp)
    modifies set c | c in tmp
    ensures forall i :: 0 <= i < |tmp| ==> tmp[i].backend == old(tmp[i].backend)
    ensures forall i :: 0 <= i < |tmp| ==> tmp[i].Get() == ToUser(tmp[i].shape, tmp[i].backend)
  {
    for i := 0 to |tmp|
      invariant forall k :: 0 <= k < |tmp| ==> tmp[k].backend == old(tmp[k].backend)
      invariant forall k :: 0 <= k < i ==> tmp[k].Get() == ToUser(tmp[k].shape, tmp[k].backend)
    {
      tmp[i].Transform();
    }
  }

  /** The user value of every cell, in declaration order. */
  method UserValues(tmp: seq<OptionValue>) returns (vals: seq<Value>)
    ensures |vals| == |tmp|
    ensures forall i :: 0 <= i < |tmp| ==> vals[i] == tmp[i].Get()
  {
    vals := [];
    for i := 0 to |tmp|
      invariant |vals| == i
      invariant forall k :: 0 <= k < i ==> vals[k] == tmp[k].Get()
    {
      vals := vals + [tmp[i].Get()];
    }
  }

  /** `detail::to_string(v)` through `type_proxy`: lexical_cast or the range loop. */
  method ValueToString(v: Value) returns (s: string)
    ensures s == ToText(v)
  {
    match v
    case One(x) => s := RenderScalar(x);
    case Many(xs) => s := RangeToString(xs);
  }

  /** The `check_value` fold: validators run in declaration order and the first rejection throws. */
  method CheckAll(schema: Schema, users: seq<Value>) returns (failure: Option<Exception>)
    requires |users| == |schema|
    ensures failure == CheckFailure(schema, users)
  {
    for i := 0 to |schema|
      invariant FirstFailing(schema, users, 0) == FirstFailing(schema, users, i)
    {
      if !schema[i].check(users[i]) {
        var text := ValueToString(users[i]);
        return Some(Raised(OptionCheckFailed(schema[i].name, text)));
      }
    }
    return None;
  }

  /** `show_option` for one committed option. */
  method ShowOption(name: string, v: Value) returns (ev: Event)
    ensures ev == ShowEvent(name, v)
  {
    match v
    case One(x) =>
      ev := ShowValue(name, RenderScalar(x));
    case Many(xs) =>
      var vs := ShowRange(xs);
      assert vs == Renders(xs);
      ev := ShowList(name, vs);
  }

  /**
   * The tail of the cell pipeline: `notify(vm)` over cells that already hold
   * the file's values, then `transform_backend` on every cell.
   */
  method Finish(schema: Schema, tmp: seq<OptionValue>, fileValues: map<nat, Value>, cmdValues: map<nat, Value>)
    returns (vals: seq<Value>)
    requires |tmp| == |schema| && Distinct(tmp)
    requires forall i :: 0 <= i < |tmp| ==> tmp[i].shape == schema[i].shape
    requires forall i :: 0 <= i < |tmp| ==>
               tmp[i].backend == if i in fileValues then fileValues[i] else Seed(schema[i])
    modifies set c | c in tmp
    ensures vals == Users(schema, Backends(schema, fileValues, cmdValues))
  {
    Notify(tmp, cmdValues);
    ghost var backends := Backends(schema, fileValues, cmdValues);
    assert forall i :: 0 <= i < |tmp| ==> tmp[i].backend == backends[i];
    TransformAll(tmp);
    vals := UserValues(tmp);
  }

  /** Everything `parse_cmd_line_impl` does to `tmp` after the command line was parsed. */
  method Stage(schema: Schema, fs: FileSystem, p: Parsed, tmp: seq<OptionValue>) returns (r: Result<seq<Value>, Exception>)
    requires |tmp| == |schema| && Distinct(tmp)
    requires forall i :: 0 <= i < |tmp| ==> tmp[i].shape == schema[i].shape && tmp[i].backend == Seed(schema[i])
    modifies set c | c in tmp
    ensures r == Convert(schema, fs, p)
  {
    var fileValues: map<nat, Value> := map[];
    if p.configPath.Some? {
      var f := ParseFileImpl(schema, p.configPath.value, fs, tmp);
      if f.Failure? {
        return Failure(f.error);
      }
      fileValues := f.value;
    }
    var vals := Finish(schema, tmp, fileValues, p.values);
    var failure := CheckAll(schema, vals);
    if failure.Some? {
      return Failure(failure.value);
    }
    return Success(vals);
  }

  /** `parse_file_impl`: parses the file against the file names and notifies `tmp`. */
  method ParseFileImpl(schema: Schema, path: string, fs: FileSystem, tmp: seq<OptionValue>)
    returns (r: Result<map<nat, Value>, Exception>)
    requires Distinct(tmp)
    modifies set c | c in tmp
    ensures r == ReadFile(schema, fs, path)
    ensures forall i :: 0 <= i < |tmp| ==>
              tmp[i].backend == if r.Success? && i in r.value then r.value[i] else old(tmp[i].backend)
    ensures forall i :: 0 <= i < |tmp| ==> tmp[i].user == old(tmp[i].user)
  {
    r := ReadFile(schema, fs, path);
    if r.Success? {
      Notify(tmp, r.value);
    }
  }

  /** A parse whose command line was read is the actions it fires, the conversion, and show-config if that succeeded. */
  lemma ParseAfterRead(schema: Schema, version: Option<string>, argv: Argv, fs: FileSystem)
    requires ReadCommandLine(schema, version, argv).Success?
    ensures var p := ReadCommandLine(schema, version, argv).value;
            var r := Convert(schema, fs, p);
            Parse(schema, version, argv, fs) == Attempt(EarlyEvents(schema, version, p), r, r.Success? && p.showConfig)
  {
  }

  /** Default values are well-typed containers in iteration order. */
  lemma SeedsCanonical(schema: Schema)
    requires WellFormed(schema)
    ensures forall i :: 0 <= i < |schema| ==>
              Conforms(schema[i].shape, Seed(schema[i])) && Canonical(schema[i].shape, Seed(schema[i]))
  {
    forall i | 0 <= i < |schema|
      ensures Conforms(schema[i].shape, Seed(schema[i])) && Canonical(schema[i].shape, Seed(schema[i]))
    {
      ToUserCanonical(schema[i].shape, schema[i].default);
    }
  }

  lemma LookupConforms(schema: Schema, side: Side, given: map<string, Value>)
    requires Lookup(schema, side, given).Success?
    ensures forall i :: i in Lookup(schema, side, given).value ==>
              i < |schema| && Conforms(schema[i].shape, Lookup(schema, side, given).value[i])
  {
  }

  /** Every value the command line supplies is well-typed. */
  lemma ReadConforms(schema: Schema, version: Option<string>, argv: Argv)
    requires ReadCommandLine(schema, version, argv).Success?
    ensures var m := ReadCommandLine(schema, version, argv).value.values;
            forall i :: i in m ==> i < |schema| && Conforms(schema[i].shape, m[i])
  {
    LookupConforms(schema, CommandLine, argv.given - ControlNames(version));
  }

  /** Every value the configuration file supplies is well-typed. */
  lemma FileValuesConform(schema: Schema, fs: FileSystem, path: Option<string>)
    requires FileValues(schema, fs, path).Success?
    ensures var m := FileValues(schema, fs, path).value;
            forall i :: i in m ==> i < |schema| && Conforms(schema[i].shape, m[i])
  {
    if path.Some? {
      LookupConforms(schema, File, fs[path.value].given);
    }
  }

  /** Merging well-typed file and command-line values over the defaults gives well-typed backends. */
  lemma BackendsConform(schema: Schema, fileValues: map<nat, Value>, cmdValues: map<nat, Value>)
    requires WellFormed(schema)
    requires forall i :: i in fileValues ==> i < |schema| && Conforms(schema[i].shape, fileValues[i])
    requires forall i :: i in cmdValues ==> i < |schema| && Conforms(schema[i].shape, cmdValues[i])
    ensures forall i :: 0 <= i < |schema| ==> Conforms(schema[i].shape, Backends(schema, fileValues, cmdValues)[i])
  {
    SeedsCanonical(schema);
  }

  /** Every value a parse commits is well-typed and in its container's iteration order. */
  lemma ParseCanonical(schema: Schema, version: Option<string>, argv: Argv, fs: FileSystem)
    requires WellFormed(schema)
    requires Parse(schema, version, argv, fs).result.Success?
    ensures var u := Parse(schema, version, argv, fs).result.value;
            forall i :: 0 <= i < |schema| ==> Conforms(schema[i].shape, u[i]) && Canonical(schema[i].shape, u[i])
  {
    var p := ReadCommandLine(schema, version, argv).value;
    var fv := FileValues(schema, fs, p.configPath).value;
    ParseAfterRead(schema, version, argv, fs);
    ReadConforms(schema, version, argv);
    FileValuesConform(schema, fs, p.configPath);
    var b := Backends(schema, fv, p.values);
    BackendsConform(schema, fv, p.values);
    forall i | 0 <= i < |schema|
      ensures Conforms(schema[i].shape, ToUser(schema[i].shape, b[i]))
      ensures Canonical(schema[i].shape, ToUser(schema[i].shape, b[i]))
    {
      ToUserCanonical(schema[i].shape, b[i]);
    }
  }

  /**
   * The process-wide `config` instance: the committed option values
   * (`options_`), the registered callbacks (`callbacks_`), and the log of
   * everything the `Actions` sink and the callbacks were asked to do.
   */
  class Config {
    const schema: Schema
    const version: Option<string>
    var committed: seq<Value>
    var callbacks: seq<CallbackId>
    var log: seq<Event>

    ghost predicate Valid()
      reads this
    {
      && WellFormed(schema)
      && |committed| == |schema|
      && forall i :: 0 <= i < |schema| ==>
           Conforms(schema[i].shape, committed[i]) && Canonical(schema[i].shape, committed[i])
    }

    /** `instance()` on first use: every option holds its default, no callback is registered. */
    constructor (schema: Schema, version: Option<string>)
      requires WellFormed(schema)
      ensures Valid()
      ensures this.schema == schema && this.version == version
      ensures committed == Seeds(schema) && callbacks == [] && log == []
    {
      this.schema := schema;
      this.version := version;
      committed := Seeds(schema);
      callbacks := [];
      log := [];
      SeedsCanonical(schema);
    }

    /** `get<T>()`: the committed value of the option with that tag. */
    function Get(tag: string): (v: Value)
      reads this
      requires Valid() && tag in Names(schema)
      ensures forall i :: 0 <= i < |schema| && schema[i].name == tag ==> v == committed[i]
    {
      committed[FindType(Names(schema), tag)]
    }

    /** `add_callback`: callbacks accumulate in registration order. */
    method AddCallback(cb: CallbackId)
      modifies this`callbacks
      ensures callbacks == old(callbacks) + [cb]
    {
      callbacks := callbacks + [cb];
    }

    /** The show-config sequence over the committed values, in declaration order. */
    method ShowConfig()
      requires |committed| == |schema|
      modifies this`log
      ensures log == old(log) + ShowConfigEvents(schema, committed)
    {
      var values := committed;
      log := log + [ShowConfigBegin];
      for i := 0 to |schema|
        invariant log == old(log) + [ShowConfigBegin] +
                         seq(i, k requires 0 <= k < i => ShowEvent(schema[k].name, values[k]))
      {
        var ev := ShowOption(schema[i].name, values[i]);
        log := log + [ev];
      }
      log := log + [ShowConfigEnd];
    }

    /** The help action, then the version action when a version string is configured. */
    method FireEarly(p: Parsed)
      modifies this`log
      ensures log == old(log) + EarlyEvents(schema, version, p)
    {
      if p.help {
        log := log + [Help(HelpEntries(schema, version))];
      }
      if p.version && version.Some? {
        log := log + [Version(version.value)];
      }
    }

    /**
     * `parse_cmd_line_impl`: fresh cells, the command-line parse, the help and
     * version actions, then file, merge, conversion and validators; commits
     * and shows the values only when all of that succeeded.
     */
    method ParseCmdLineImpl(argv: Argv, fs: FileSystem) returns (res: Result<bool, Exception>)
      requires Valid()
      modifies this`committed, this`log
      ensures Valid()
      ensures var a := Parse(schema, version, argv, fs);
              && res == (if a.result.Success? then Success(a.showConfig) else Failure(a.result.error))
              && committed == (if a.result.Success? then a.result.value else old(committed))
              && log == old(log) + a.early +
                        (if a.showConfig then ShowConfigEvents(schema, a.result.value) else [])
    {
      var tmp := NewCells(schema);
      var parsed := ReadCommandLine(schema, version, argv);
      if parsed.Failure? {
        return Failure(parsed.error);
      }
      var vm := parsed.value;
      FireEarly(vm);
      var r := Stage(schema, fs, vm, tmp);
      ParseAfterRead(schema, version, argv, fs);
      if r.Failure? {
        return Failure(r.error);
      }
      ParseCanonical(schema, version, argv, fs);
      committed := r.value;
      if vm.showConfig {
        ShowConfig();
      }
      return Success(vm.showConfig);
    }

    /** The loop over `callbacks_`: each callback runs once, in registration order. */
    method RunCallbacks()
      modifies this`log
      ensures log == old(log) + CallbackEvents(callbacks)
    {
      var cbs := callbacks;
      for i := 0 to |cbs|
        invariant log == old(log) + seq(i, k requires 0 <= k < i => CallbackRan(cbs[k]))
      {
        log := log + [CallbackRan(cbs[i])];
      }
    }

    /**
     * `parse_cmd_line`: every escaping exception becomes a `config_error`;
     * the callbacks run in registration order, only after a successful commit.
     */
    method ParseCmdLine(argv: Argv, fs: FileSystem) returns (r: Outcome<ConfigError>)
      requires Valid()
      modifies this`committed, this`log
      ensures Valid()
      ensures var a := Parse(schema, version, argv, fs);
              && r == (if a.result.Success? then Pass else Fail(ToConfigError(a.result.error)))
              && committed == (if a.result.Success? then a.result.value else old(committed))
              && log == old(log) + a.early +
                        (if a.showConfig then ShowConfigEvents(schema, a.result.value) else []) +
                        (if a.result.Success? then CallbackEvents(callbacks) else [])
    {
      ghost var a := Parse(schema, version, argv, fs);
      var res := ParseCmdLineImpl(argv, fs);
      if res.Failure? {
        return Fail(ToConfigError(res.error));
      }
      RunCallbacks();
      return Pass;
    }

    /** `parse_file(path)`: exactly `parse_cmd_line` over `{"", "--config", path}`. */
    method ParseFile(path: string, fs: FileSystem) returns (r: Outcome<ConfigError>)
      requires Valid()
      modifies this`committed, this`log
      ensures Valid()
      ensures var a := Parse(schema, version, FileArgv(path), fs);
              && r == (if a.result.Success? then Pass else Fail(ToConfigError(a.result.error)))
              && committed == (if a.result.Success? then a.result.value else old(committed))
              && log == old(log) + a.early +
                        (if a.showConfig then ShowConfigEvents(schema, a.result.value) else []) +
                        (if a.result.Success? then CallbackEvents(callbacks) else [])
    {
      r := ParseCmdLine(FileArgv(path), fs);
    }
  }
}
