/**
 * What one `parse_cmd_line_impl` call promises: which source wins for each
 * option, which names are refused, that validators see the merged values
 * and report the first rejection, and what `parse_file` amounts to.
 */
module EngineLaws {
  import opened Wrappers
  import opened Values
  import opened Range
  import opened Engine

  /** A lookup succeeds exactly when every name is registered and every value has the option's type. */
  lemma LookupSucceedsIff(schema: Schema, side: Side, given: map<string, Value>)
    ensures Lookup(schema, side, given).Success? <==>
              && (forall k :: k in given ==> Registered(schema, side, k))
              && (forall i :: 0 <= i < |schema| && Supplied(schema[i], side, given) ==>
                    Conforms(schema[i].shape, given[Key(schema[i], side).value]))
    ensures Lookup(schema, side, given).Success? ==>
              forall i :: 0 <= i < |schema| ==>
                (i in Lookup(schema, side, given).value <==> Supplied(schema[i], side, given))
  {
  }

  /** A lookup's result is determined by which options were supplied and with which values. */
  lemma LookupIs(schema: Schema, side: Side, given: map<string, Value>, m: map<nat, Value>)
    requires forall k :: k in given ==> Registered(schema, side, k)
    requires forall i :: 0 <= i < |schema| ==> (i in m <==> Supplied(schema[i], side, given))
    requires forall i :: i in m ==>
               && i < |schema| && Supplied(schema[i], side, given)
               && m[i] == given[Key(schema[i], side).value]
               && Conforms(schema[i].shape, m[i])
    ensures Lookup(schema, side, given) == Success(m)
  {
    var r := map i: nat | i < |schema| && Supplied(schema[i], side, given) :: given[Key(schema[i], side).value];
    assert r == m;
  }

  lemma EmptyLookup(schema: Schema, side: Side)
    ensures Lookup(schema, side, map[]) == Success(map[])
  {
    var none: map<string, Value> := map[];
    var m := map i: nat | i < |schema| && Supplied(schema[i], side, none) :: none[Key(schema[i], side).value];
    assert m == map[];
  }

  /** A value converted twice is the value converted once. */
  lemma SeedSurvivesTransform(schema: Schema, i: nat)
    requires WellFormed(schema) && i < |schema|
    ensures ToUser(schema[i].shape, Seed(schema[i])) == Seed(schema[i])
  {
    SeedsCanonical(schema);
    RoundTrip(schema[i].shape, Seed(schema[i]));
  }

  lemma SeedsSurviveTransform(schema: Schema)
    requires WellFormed(schema)
    ensures Users(schema, Backends(schema, map[], map[])) == Seeds(schema)
  {
    forall i | 0 <= i < |schema|
      ensures Users(schema, Backends(schema, map[], map[]))[i] == Seeds(schema)[i]
    {
      SeedSurvivesTransform(schema, i);
    }
  }

  /**
   * With no arguments every option takes its default, nothing is shown,
   * and the defaults are committed unless a validator rejects one.
   */
  lemma DefaultsWithoutArguments(schema: Schema, version: Option<string>, fs: FileSystem)
    requires WellFormed(schema)
    ensures var a := Parse(schema, version, Tokens(map[]), fs);
            && a.early == [] && !a.showConfig
            && a.result == match CheckFailure(schema, Seeds(schema))
                           case None => Success(Seeds(schema))
                           case Some(e) => Failure(e)
  {
    var given: map<string, Value> := map[];
    assert given - ControlNames(version) == map[];
    EmptyLookup(schema, CommandLine);
    SeedsSurviveTransform(schema);
  }

  /** A command-line name that no option registered fails the parse before any action fires. */
  lemma UnregisteredCommandLineNameFails(schema: Schema, version: Option<string>, given: map<string, Value>, fs: FileSystem, k: string)
    requires k in given && k !in ControlNames(version) && !Registered(schema, CommandLine, k)
    ensures var a := Parse(schema, version, Tokens(given), fs);
            a.result.Failure? && a.early == [] && !a.showConfig
  {
    assert k in given - ControlNames(version);
  }

  /** `--version` is refused when no version string was configured. */
  lemma VersionNeedsVersionString(schema: Schema, given: map<string, Value>, fs: FileSystem)
    requires WellFormed(schema) && VersionFlag in given
    ensures Parse(schema, None, Tokens(given), fs).result.Failure?
  {
    forall i | 0 <= i < |schema|
      ensures Key(schema[i], CommandLine) != Some(VersionFlag)
    {
    }
    UnregisteredCommandLineNameFails(schema, None, given, fs, VersionFlag);
  }

  /**
   * An option without a command-line name is never set from the command
   * line, and its file name given there fails the parse unless another
   * option registered that name on the command line.
   */
  lemma FileOnlyOptionRefusedOnCommandLine(schema: Schema, version: Option<string>, given: map<string, Value>, fs: FileSystem, i: nat)
    requires i < |schema| && schema[i].cmdName.None?
    ensures ReadCommandLine(schema, version, Tokens(given)).Success? ==>
              i !in ReadCommandLine(schema, version, Tokens(given)).value.values
    ensures schema[i].cfgName.Some? && schema[i].cfgName.value in given - ControlNames(version) &&
            !Registered(schema, CommandLine, schema[i].cfgName.value) ==>
              Parse(schema, version, Tokens(given), fs).result.Failure?
  {
    LookupSucceedsIff(schema, CommandLine, given - ControlNames(version));
    if schema[i].cfgName.Some? && schema[i].cfgName.value in given - ControlNames(version) &&
       !Registered(schema, CommandLine, schema[i].cfgName.value) {
      UnregisteredCommandLineNameFails(schema, version, given, fs, schema[i].cfgName.value);
    }
  }

  /**
   * An option with neither a command-line nor a file name always holds its
   * default, so when its validator rejects the default every parse fails.
   */
  lemma UnnamedRejectedDefaultFailsEveryParse(schema: Schema, version: Option<string>, argv: Argv, fs: FileSystem, i: nat)
    requires WellFormed(schema) && i < |schema|
    requires schema[i].cmdName.None? && schema[i].cfgName.None? && !schema[i].check(Seed(schema[i]))
    ensures Parse(schema, version, argv, fs).result.Failure?
  {
    var r := ReadCommandLine(schema, version, argv);
    if r.Success? {
      var p := r.value;
      var fv := FileValues(schema, fs, p.configPath);
      if fv.Success? {
        assert i !in p.values by {
          LookupSucceedsIff(schema, CommandLine, argv.given - ControlNames(version));
        }
        assert i !in fv.value by {
          if p.configPath.Some? {
            LookupSucceedsIff(schema, File, fs[p.configPath.value].given);
          }
        }
        SeedSurvivesTransform(schema, i);
        ValidationReportsFirstRejection(schema, version, argv, fs);
      }
    }
  }

  /**
   * The help and version actions fire exactly when the command line was
   * read and asked for them, help first; `--version` only with a version string.
   */
  lemma EarlyActionsAreTheAskedOnes(schema: Schema, version: Option<string>, given: map<string, Value>, fs: FileSystem)
    ensures var a := Parse(schema, version, Tokens(given), fs);
            var read := ReadCommandLine(schema, version, Tokens(given)).Success?;
            a.early == (if read && HelpFlag in given then [Help(HelpEntries(schema, version))] else [])
                       + (if read && version.Some? && VersionFlag in given then [Version(version.value)] else [])
  {
    var r := ReadCommandLine(schema, version, Tokens(given));
    if r.Success? {
      assert r.value.help == (HelpFlag in given);
      assert r.value.version == (version.Some? && VersionFlag in given);
    }
  }

  /** A configuration file that cannot be read fails the parse, after help and version fired. */
  lemma MissingFileFails(schema: Schema, version: Option<string>, argv: Argv, fs: FileSystem)
    requires ReadCommandLine(schema, version, argv).Success?
    requires var p := ReadCommandLine(schema, version, argv).value;
             p.configPath.Some? && p.configPath.value !in fs
    ensures var a := Parse(schema, version, argv, fs);
            && a.result == Failure(StdException(CannotReadFile))
            && a.early == EarlyEvents(schema, version, ReadCommandLine(schema, version, argv).value)
  {
  }

  /** A file name that no option registered fails the parse, after help and version fired. */
  lemma UnregisteredFileNameFails(schema: Schema, version: Option<string>, argv: Argv, fs: FileSystem, k: string)
    requires ReadCommandLine(schema, version, argv).Success?
    requires var p := ReadCommandLine(schema, version, argv).value;
             && p.configPath.Some? && p.configPath.value in fs
             && fs[p.configPath.value].Entries?
             && k in fs[p.configPath.value].given && !Registered(schema, File, k)
    ensures var a := Parse(schema, version, argv, fs);
            && a.result == Failure(StdException(UnrecognisedOption))
            && a.early == EarlyEvents(schema, version, ReadCommandLine(schema, version, argv).value)
  {
  }

  /**
   * `--help` and `--version` only add actions: the parse goes on and
   * commits exactly what it would have committed without them.
   */
  lemma HelpAndVersionDoNotStopTheParse(schema: Schema, version: Option<string>, given: map<string, Value>, fs: FileSystem)
    requires version.Some? || VersionFlag !in given
    ensures var plain := given - {HelpFlag, VersionFlag};
            && Parse(schema, version, Tokens(given), fs).result == Parse(schema, version, Tokens(plain), fs).result
            && Parse(schema, version, Tokens(given), fs).showConfig == Parse(schema, version, Tokens(plain), fs).showConfig
  {
    var plain := given - {HelpFlag, VersionFlag};
    ReadIgnoresHelpAndVersion(schema, version, given);
    var p := ReadCommandLine(schema, version, Tokens(given));
    var q := ReadCommandLine(schema, version, Tokens(plain));
    if p.Success? {
      ConvertSeesPathAndValues(schema, fs, p.value, q.value);
    }
  }

  lemma ReadIgnoresHelpAndVersion(schema: Schema, version: Option<string>, given: map<string, Value>)
    requires version.Some? || VersionFlag !in given
    ensures var p := ReadCommandLine(schema, version, Tokens(given));
            var q := ReadCommandLine(schema, version, Tokens(given - {HelpFlag, VersionFlag}));
            && p.Success? == q.Success?
            && (p.Failure? ==> p.error == q.error)
            && (p.Success? ==>
                  && p.value.configPath == q.value.configPath
                  && p.value.values == q.value.values
                  && p.value.showConfig == q.value.showConfig)
  {
    var plain := given - {HelpFlag, VersionFlag};
    assert given - ControlNames(version) == plain - ControlNames(version);
  }

  /** What follows the command-line parse reads only the `--config` path and the option values. */
  lemma ConvertSeesPathAndValues(schema: Schema, fs: FileSystem, p: Parsed, q: Parsed)
    requires p.configPath == q.configPath && p.values == q.values
    ensures Convert(schema, fs, p) == Convert(schema, fs, q)
  {
  }

  /** The entries of the configuration file a parse reads, if it reads one. */
  function FileGiven(fs: FileSystem, path: Option<string>): map<string, Value>
  {
    if path.Some? && path.value in fs && fs[path.value].Entries? then fs[path.value].given else map[]
  }

  /**
   * The command line beats the file, the file beats the default: the final
   * value of each option comes from the first source that supplied it.
   */
  lemma Precedence(schema: Schema, version: Option<string>, given: map<string, Value>, fs: FileSystem, i: nat)
    requires WellFormed(schema) && i < |schema|
    requires Parse(schema, version, Tokens(given), fs).result.Success?
    ensures var p := ReadCommandLine(schema, version, Tokens(given)).value;
            var fileGiven := FileGiven(fs, p.configPath);
            var v := Parse(schema, version, Tokens(given), fs).result.value[i];
            && (Supplied(schema[i], CommandLine, given) ==>
                  v == ToUser(schema[i].shape, given[Key(schema[i], CommandLine).value]))
            && (!Supplied(schema[i], CommandLine, given) && Supplied(schema[i], File, fileGiven) ==>
                  v == ToUser(schema[i].shape, fileGiven[Key(schema[i], File).value]))
            && (!Supplied(schema[i], CommandLine, given) && !Supplied(schema[i], File, fileGiven) ==>
                  v == Seed(schema[i]))
  {
    var p := ReadCommandLine(schema, version, Tokens(given)).value;
    var fv := FileValues(schema, fs, p.configPath).value;
    var v := Parse(schema, version, Tokens(given), fs).result.value[i];
    assert v == ToUser(schema[i].shape, Backends(schema, fv, p.values)[i]);
    var cmdGiven := given - ControlNames(version);
    assert Lookup(schema, CommandLine, cmdGiven) == Success(p.values);
    CommandLineKeyIsNotControl(schema, version, given, i);
    LookupValue(schema, CommandLine, cmdGiven, i);
    var fileGiven := FileGiven(fs, p.configPath);
    if p.configPath.Some? {
      assert Lookup(schema, File, fileGiven) == Success(fv);
      LookupValue(schema, File, fileGiven, i);
    } else {
      assert fv == map[];
    }
    if !Supplied(schema[i], CommandLine, given) && !Supplied(schema[i], File, fileGiven) {
      SeedSurvivesTransform(schema, i);
    }
  }

  lemma CommandLineKeyIsNotControl(schema: Schema, version: Option<string>, given: map<string, Value>, i: nat)
    requires WellFormed(schema) && i < |schema|
    ensures Supplied(schema[i], CommandLine, given) <==> Supplied(schema[i], CommandLine, given - ControlNames(version))
    ensures Supplied(schema[i], CommandLine, given) ==>
              (given - ControlNames(version))[Key(schema[i], CommandLine).value] == given[Key(schema[i], CommandLine).value]
  {
  }

  /** A successful lookup holds exactly the supplied options, with the supplied values. */
  lemma LookupValue(schema: Schema, side: Side, given: map<string, Value>, i: nat)
    requires Lookup(schema, side, given).Success? && i < |schema|
    ensures i in Lookup(schema, side, given).value <==> Supplied(schema[i], side, given)
    ensures Supplied(schema[i], side, given) ==>
              Lookup(schema, side, given).value[i] == given[Key(schema[i], side).value]
  {
  }

  /**
   * The validators see the merged, converted values: the parse fails exactly
   * when one rejects its value, and then it reports the first such option
   * in declaration order, with its value rendered as text.
   */
  lemma ValidationReportsFirstRejection(schema: Schema, version: Option<string>, argv: Argv, fs: FileSystem)
    requires ReadCommandLine(schema, version, argv).Success?
    requires FileValues(schema, fs, ReadCommandLine(schema, version, argv).value.configPath).Success?
    ensures var p := ReadCommandLine(schema, version, argv).value;
            var users := Users(schema, Backends(schema, FileValues(schema, fs, p.configPath).value, p.values));
            var a := Parse(schema, version, argv, fs);
            && (a.result.Success? <==> forall i :: 0 <= i < |schema| ==> schema[i].check(users[i]))
            && (a.result.Success? ==> a.result.value == users)
            && (a.result.Failure? ==>
                  exists j :: 0 <= j < |schema| && !schema[j].check(users[j])
                           && (forall k :: 0 <= k < j ==> schema[k].check(users[k]))
                           && a.result.error == Raised(OptionCheckFailed(schema[j].name, ToText(users[j]))))
  {
    var p := ReadCommandLine(schema, version, argv).value;
    var users := Users(schema, Backends(schema, FileValues(schema, fs, p.configPath).value, p.values));
    var first := FirstFailing(schema, users, 0);
    if first.Some? {
      var j := first.value;
      assert !schema[j].check(users[j]);
    }
  }

  /**
   * `parse_file(path)` reads every value from that file: no action fires,
   * nothing is shown, and each option takes the file's value or its default.
   */
  lemma ParseFileReadsOnlyTheFile(schema: Schema, version: Option<string>, path: string, fs: FileSystem)
    requires WellFormed(schema)
    ensures ReadCommandLine(schema, version, FileArgv(path)) == Success(Parsed(false, false, false, Some(path), map[]))
    ensures var a := Parse(schema, version, FileArgv(path), fs);
            && a.early == [] && !a.showConfig
            && (a.result.Success? ==>
                  forall i :: 0 <= i < |schema| ==>
                    a.result.value[i] == if Supplied(schema[i], File, FileGiven(fs, Some(path)))
                                         then ToUser(schema[i].shape, FileGiven(fs, Some(path))[Key(schema[i], File).value])
                                         else Seed(schema[i]))
  {
    FileArgvParse(schema, version, path);
    var given := FileArgv(path).given;
    var a := Parse(schema, version, FileArgv(path), fs);
    if a.result.Success? {
      forall i | 0 <= i < |schema|
        ensures a.result.value[i] == if Supplied(schema[i], File, FileGiven(fs, Some(path)))
                                     then ToUser(schema[i].shape, FileGiven(fs, Some(path))[Key(schema[i], File).value])
                                     else Seed(schema[i])
      {
        assert !Supplied(schema[i], CommandLine, given);
        Precedence(schema, version, given, fs, i);
      }
    }
  }

  lemma FileArgvParse(schema: Schema, version: Option<string>, path: string)
    ensures ReadCommandLine(schema, version, FileArgv(path)) == Success(Parsed(false, false, false, Some(path), map[]))
  {
    var given := FileArgv(path).given;
    assert given - ControlNames(version) == map[];
    EmptyLookup(schema, CommandLine);
  }

  /** An option declared without a validator accepts every value. */
  lemma UncheckedOptionAcceptsAll(name: string, shape: Shape, default: Value, cmdName: Option<CmdName>,
                                  cfgName: Option<string>, description: string, v: Value)
    ensures UncheckedOption(name, shape, default, cmdName, cfgName, description).check(v)
  {
  }

  /** An easy option is looked up under its tag on the command line and in the file. */
  lemma EasyOptionKeys(tag: string, shape: Shape, default: Value, description: string)
    ensures var d := EasyOption(tag, shape, default, description);
            Key(d, CommandLine) == Some(tag) && Key(d, File) == Some(tag) && d.name == tag
  {
  }
}
