/**
 * The option list of test/raconfig.cpp (text, number, flag, a command-line
 * only int, a file only int, and a checked vector of powers of two) and the
 * outcomes its test cases expect, derived from the engine's definitions.
 */
module Scenarios {
  import opened Wrappers
  import opened Values
  import opened Range
  import opened Engine
  import opened EngineLaws
  import opened Demo

  const TestSchema: Schema := [
    UncheckedOption("text", Plain(TextKind), One(Text("default text")),
               Some(CmdName("text", None)), Some("common.text"), "Some text"),
    UncheckedOption("number", Plain(IntKind(UShort)), One(Int(80)),
               Some(CmdName("number", None)), Some("common.number"), "Unsigned short number"),
    UncheckedOption("flag", Plain(BoolKind), One(Bool(false)),
               Some(CmdName("flag", Some('f'))), Some("common.flag"), "Boolean flag"),
    UncheckedOption("cmd_only_int", Plain(IntKind(Bounds(-2147483648, 2147483647))), One(Int(100)),
               Some(CmdName("cmd-only-int", None)), None, "Can be set via command line only"),
    UncheckedOption("cfg_only_int", Plain(IntKind(Bounds(-2147483648, 2147483647))), One(Int(500)),
               None, Some("cfg_only_int"), "Can be set via config file only"),
    OptionDecl("power2", Vector(UInt), Many([]), Power2,
               Some(CmdName("power2", None)), Some("power2.item"), "Power of 2 numbers")]

  const TestVersion: Option<string> := Some("version test")

  lemma TestWellFormed()
    ensures WellFormed(TestSchema)
  {
    TestNamesDistinct();
    TestKeysDistinct();
    TestDefaultsConform();
  }

  lemma TestNamesDistinct()
    ensures forall i, j :: 0 <= i < j < |TestSchema| ==> TestSchema[i].name != TestSchema[j].name
  {
  }

  lemma TestKeysDistinct()
    ensures DistinctKeys(TestSchema, CommandLine) && DistinctKeys(TestSchema, File)
    ensures forall i :: 0 <= i < |TestSchema| && Key(TestSchema[i], CommandLine).Some? ==>
              Key(TestSchema[i], CommandLine).value !in {HelpFlag, VersionFlag, ShowConfigFlag, ConfigFlag}
  {
    CommandLineKeys();
    IniKeys();
  }

  lemma TestDefaultsConform()
    ensures forall i :: 0 <= i < |TestSchema| ==> Conforms(TestSchema[i].shape, TestSchema[i].default)
  {
  }

  /** The defaults of the test options, as committed. */
  function TestDefaults(): seq<Value>
  {
    [One(Text("default text")), One(Int(80)), One(Bool(false)), One(Int(100)), One(Int(500)), Many([])]
  }

  lemma TestSeeds()
    ensures Seeds(TestSchema) == TestDefaults()
  {
  }

  lemma TestDefaultsPass()
    ensures FirstFailing(TestSchema, TestDefaults(), 0) == None
  {
    assert Power2(Many([]));
  }

  /** `test_defaults`: no arguments commit every default. */
  lemma DefaultsScenario(fs: FileSystem)
    ensures Parse(TestSchema, TestVersion, Tokens(map[]), fs).result == Success(TestDefaults())
  {
    TestWellFormed();
    TestSeeds();
    TestDefaultsPass();
    DefaultsWithoutArguments(TestSchema, TestVersion, fs);
  }

  /** `test_cfg_only_option_in_cmd_line`: a file-only name is unknown on the command line. */
  lemma FileOnlyOnCommandLineScenario(fs: FileSystem)
    ensures Parse(TestSchema, TestVersion, Tokens(map["cfg_only_int" := One(Int(10))]), fs).result.Failure?
  {
    var given := map["cfg_only_int" := One(Int(10))];
    CommandLineKeys();
    assert !Registered(TestSchema, CommandLine, "cfg_only_int");
    assert "cfg_only_int" in given - ControlNames(TestVersion);
    FileOnlyOptionRefusedOnCommandLine(TestSchema, TestVersion, given, fs, 4);
  }

  /** `test_cmd_only_option_in_cfg_file`: a command-line-only name is unknown in the file. */
  lemma CommandLineOnlyInFileScenario(path: string, fs: FileSystem)
    requires path in fs && fs[path] == Entries(map["cmd-only-int" := One(Int(12345))])
    ensures Parse(TestSchema, TestVersion, Tokens(map[ConfigFlag := One(Text(path))]), fs).result ==
              Failure(StdException(UnrecognisedOption))
  {
    assert Tokens(map[ConfigFlag := One(Text(path))]) == FileArgv(path);
    FileArgvParse(TestSchema, TestVersion, path);
    CommandLineOnlyNameUnknownInFile();
    UnregisteredFileNameFails(TestSchema, TestVersion, FileArgv(path), fs, "cmd-only-int");
  }

  lemma CommandLineOnlyNameUnknownInFile()
    ensures !Registered(TestSchema, File, "cmd-only-int")
  {
    IniKeys();
  }

  /** `test_no_cfg_file`: a configuration file that cannot be read fails the parse. */
  lemma NoFileScenario(path: string, fs: FileSystem)
    requires path !in fs
    ensures Parse(TestSchema, TestVersion, Tokens(map[ConfigFlag := One(Text(path))]), fs).result ==
              Failure(StdException(CannotReadFile))
  {
    FileArgvParse(TestSchema, TestVersion, path);
  }

  lemma SeventeenIsRejected()
    ensures !Power2(Many([16, 17]))
  {
    assert BitAnd(1, 1) == 1 && BitAnd(2, 2) == 2 && BitAnd(4, 4) == 4 && BitAnd(8, 8) == 8;
    assert BitAnd(17, 16) == 16;
    assert !PowerOfTwoTest(Many([16, 17]).elems[1]);
  }

  lemma SixteenSeventeenText()
    ensures ToText(Many([16, 17])) == "{16, 17}"
  {
    assert IntToString(16) == "16" && IntToString(17) == "17";
    assert Renders([16, 17]) == ["16", "17"];
  }

  lemma CheckFailedCommandLine()
    ensures ReadCommandLine(TestSchema, TestVersion, Tokens(map["power2" := Many([16, 17])])) ==
              Success(Parsed(false, false, false, None, map[5 := Many([16, 17])]))
  {
    var given := map["power2" := Many([16, 17])];
    assert given - ControlNames(TestVersion) == given;
    assert Registered(TestSchema, CommandLine, "power2") by {
      assert Key(TestSchema[5], CommandLine) == Some("power2");
    }
    assert forall i :: 0 <= i < 5 ==> !Supplied(TestSchema[i], CommandLine, given);
    assert Supplied(TestSchema[5], CommandLine, given);
    var m := map i: nat | i < |TestSchema| && Supplied(TestSchema[i], CommandLine, given) ::
               given[Key(TestSchema[i], CommandLine).value];
    assert m == map[5 := Many([16, 17])];
  }

  lemma CheckFailedUsers()
    ensures Users(TestSchema, Backends(TestSchema, map[], map[5 := Many([16, 17])])) ==
              TestDefaults()[5 := Many([16, 17])]
  {
    TestSeeds();
  }

  lemma CheckFailedFirst()
    ensures FirstFailing(TestSchema, TestDefaults()[5 := Many([16, 17])], 0) == Some(5)
  {
    var users := TestDefaults()[5 := Many([16, 17])];
    SeventeenIsRejected();
    assert !TestSchema[5].check(users[5]);
    assert FirstFailing(TestSchema, users, 5) == Some(5);
    assert FirstFailing(TestSchema, users, 3) == Some(5);
  }

  /** `test_option_check_failed`: `--power2=16 --power2=17` names the option and renders its value. */
  lemma OptionCheckFailedScenario(fs: FileSystem)
    ensures Parse(TestSchema, TestVersion, Tokens(map["power2" := Many([16, 17])]), fs).result ==
              Failure(Raised(OptionCheckFailed("power2", "{16, 17}")))
  {
    CheckFailedCommandLine();
    CheckFailedUsers();
    CheckFailedFirst();
    SixteenSeventeenText();
  }

  lemma ShowConfigCommandLine()
    ensures ReadCommandLine(TestSchema, TestVersion,
                            Tokens(map[ShowConfigFlag := One(Bool(true)), "power2" := Many([4, 8])])) ==
              Success(Parsed(false, false, true, None, map[5 := Many([4, 8])]))
  {
    var given := map[ShowConfigFlag := One(Bool(true)), "power2" := Many([4, 8])];
    var rest := map["power2" := Many([4, 8])];
    assert given - ControlNames(TestVersion) == rest;
    assert Registered(TestSchema, CommandLine, "power2") by {
      assert Key(TestSchema[5], CommandLine) == Some("power2");
    }
    assert forall i :: 0 <= i < 5 ==> !Supplied(TestSchema[i], CommandLine, rest);
    assert Supplied(TestSchema[5], CommandLine, rest);
    var m := map i: nat | i < |TestSchema| && Supplied(TestSchema[i], CommandLine, rest) ::
               rest[Key(TestSchema[i], CommandLine).value];
    assert m == map[5 := Many([4, 8])];
  }

  lemma ShowConfigUsers()
    ensures Users(TestSchema, Backends(TestSchema, map[], map[5 := Many([4, 8])])) ==
              TestDefaults()[5 := Many([4, 8])]
  {
    TestSeeds();
  }

  lemma ShowConfigChecksPass()
    ensures FirstFailing(TestSchema, TestDefaults()[5 := Many([4, 8])], 0) == None
  {
    var users := TestDefaults()[5 := Many([4, 8])];
    assert BitAnd(1, 0) == 0 && BitAnd(2, 1) == 0 && BitAnd(4, 3) == 0 && BitAnd(8, 7) == 0;
    assert Power2(users[5]);
    assert FirstFailing(TestSchema, users, 5) == None;
    assert FirstFailing(TestSchema, users, 3) == None;
  }

  lemma ShowConfigText()
    ensures ShowConfigEvents(TestSchema, TestDefaults()[5 := Many([4, 8])]) ==
              [ShowConfigBegin,
               ShowValue("text", "default text"),
               ShowValue("number", "80"),
               ShowValue("flag", "0"),
               ShowValue("cmd_only_int", "100"),
               ShowValue("cfg_only_int", "500"),
               ShowList("power2", ["4", "8"]),
               ShowConfigEnd]
  {
    assert IntToString(80) == "80" && IntToString(100) == "100" && IntToString(500) == "500";
    assert Renders([4, 8]) == ["4", "8"];
  }

  /**
   * `test_show_config`: `--show-config --power2=4 --power2=8` commits the
   * defaults with the new vector and reports every option in declaration order.
   */
  lemma ShowConfigScenario(fs: FileSystem)
    ensures var a := Parse(TestSchema, TestVersion,
                           Tokens(map[ShowConfigFlag := One(Bool(true)), "power2" := Many([4, 8])]), fs);
            && a.early == [] && a.showConfig
            && a.result == Success(TestDefaults()[5 := Many([4, 8])])
            && ShowConfigEvents(TestSchema, a.result.value) ==
                 [ShowConfigBegin,
                  ShowValue("text", "default text"),
                  ShowValue("number", "80"),
                  ShowValue("flag", "0"),
                  ShowValue("cmd_only_int", "100"),
                  ShowValue("cfg_only_int", "500"),
                  ShowList("power2", ["4", "8"]),
                  ShowConfigEnd]
  {
    ShowConfigCommandLine();
    ShowConfigUsers();
    ShowConfigChecksPass();
    ShowConfigText();
  }

  /** The `test.ini` written by `cfg_file_fixture`, as the INI parser reads it. */
  function TestIni(): map<string, Value>
  {
    map["cfg_only_int" := One(Int(12345)),
        "common.text" := One(Text("text from file")),
        "common.number" := One(Int(8080)),
        "common.flag" := One(Bool(true)),
        "power2.item" := Many([64, 128, 256])]
  }

  function OverridingArgs(path: string): map<string, Value>
  {
    map[ConfigFlag := One(Text(path)), "number" := One(Int(1)), "flag" := One(Bool(false))]
  }

  lemma OverridingCommandLine(path: string)
    ensures ReadCommandLine(TestSchema, TestVersion, Tokens(OverridingArgs(path))) ==
              Success(Parsed(false, false, false, Some(path), map[1 := One(Int(1)), 2 := One(Bool(false))]))
  {
    var given := OverridingArgs(path);
    OverridingRest(path);
    OverridingLookup();
    assert ConfigFlag in given && IsPath(given[ConfigFlag]);
    assert HelpFlag !in given && VersionFlag !in given && ShowConfigFlag !in given;
  }

  lemma OverridingRest(path: string)
    ensures OverridingArgs(path) - ControlNames(TestVersion) ==
              map["number" := One(Int(1)), "flag" := One(Bool(false))]
  {
    var d := OverridingArgs(path) - ControlNames(TestVersion);
    assert ControlNames(TestVersion) == {HelpFlag, ShowConfigFlag, ConfigFlag, VersionFlag};
    assert d.Keys == {"number", "flag"};
  }

  lemma OverridingLookup()
    ensures Lookup(TestSchema, CommandLine, map["number" := One(Int(1)), "flag" := One(Bool(false))]) ==
              Success(map[1 := One(Int(1)), 2 := One(Bool(false))])
  {
    var rest := map["number" := One(Int(1)), "flag" := One(Bool(false))];
    var s := TestSchema;
    CommandLineKeys();
    assert Registered(s, CommandLine, "number") && Registered(s, CommandLine, "flag");
    LookupIs(s, CommandLine, rest, map[1 := One(Int(1)), 2 := One(Bool(false))]);
  }

  function IniValues(): map<nat, Value>
  {
    map[0 := One(Text("text from file")), 1 := One(Int(8080)), 2 := One(Bool(true)),
        4 := One(Int(12345)), 5 := Many([64, 128, 256])]
  }

  lemma CommandLineKeys()
    ensures Key(TestSchema[0], CommandLine) == Some("text")
    ensures Key(TestSchema[1], CommandLine) == Some("number")
    ensures Key(TestSchema[2], CommandLine) == Some("flag")
    ensures Key(TestSchema[3], CommandLine) == Some("cmd-only-int")
    ensures Key(TestSchema[4], CommandLine) == None
    ensures Key(TestSchema[5], CommandLine) == Some("power2")
  {
  }

  lemma IniKeys()
    ensures Key(TestSchema[0], File) == Some("common.text")
    ensures Key(TestSchema[1], File) == Some("common.number")
    ensures Key(TestSchema[2], File) == Some("common.flag")
    ensures Key(TestSchema[3], File) == None
    ensures Key(TestSchema[4], File) == Some("cfg_only_int")
    ensures Key(TestSchema[5], File) == Some("power2.item")
  {
  }

  lemma IniRegistered()
    ensures forall k :: k in TestIni() ==> Registered(TestSchema, File, k)
  {
    IniKeys();
    var s := TestSchema;
    assert Registered(s, File, "common.text") && Registered(s, File, "common.number");
    assert Registered(s, File, "common.flag") && Registered(s, File, "cfg_only_int");
    assert Registered(s, File, "power2.item");
  }

  lemma IniSupplied()
    ensures forall i :: 0 <= i < |TestSchema| ==> (i in IniValues() <==> Supplied(TestSchema[i], File, TestIni()))
    ensures forall i :: i in IniValues() ==>
              && i < |TestSchema| && Supplied(TestSchema[i], File, TestIni())
              && IniValues()[i] == TestIni()[Key(TestSchema[i], File).value]
  {
    IniKeys();
  }

  lemma IniConforms()
    ensures forall i :: i in IniValues() ==> i < |TestSchema| && Conforms(TestSchema[i].shape, IniValues()[i])
  {
    assert forall x :: x in [64, 128, 256] ==> InBounds(UInt, x);
  }

  lemma IniRead()
    ensures Lookup(TestSchema, File, TestIni()) == Success(IniValues())
  {
    IniRegistered();
    IniSupplied();
    IniConforms();
    LookupIs(TestSchema, File, TestIni(), IniValues());
  }

  function OverriddenValues(): seq<Value>
  {
    [One(Text("text from file")), One(Int(1)), One(Bool(false)), One(Int(100)), One(Int(12345)),
     Many([64, 128, 256])]
  }

  lemma OverridingUsers()
    ensures Users(TestSchema, Backends(TestSchema, IniValues(), map[1 := One(Int(1)), 2 := One(Bool(false))])) ==
              OverriddenValues()
  {
    TestSeeds();
  }

  lemma OverridingChecksPass()
    ensures FirstFailing(TestSchema, OverriddenValues(), 0) == None
  {
    var users := OverriddenValues();
    IniSetPasses();
    assert users[5] == Many([64, 128, 256]);
    assert FirstFailing(TestSchema, users, 5) == None;
    assert FirstFailing(TestSchema, users, 3) == None;
  }

  lemma IniSetPasses()
    ensures Power2(Many([64, 128, 256]))
  {
    assert IsPowerOfTwo(64) && IsPowerOfTwo(128) && IsPowerOfTwo(256);
    PowerOfTwoTestCorrect(64);
    PowerOfTwoTestCorrect(128);
    PowerOfTwoTestCorrect(256);
  }

  /**
   * `test_cmd_line_cfg_file`: `--config=test.ini --number=1 --flag=off`
   * takes text, cfg_only_int and power2 from the file, number and flag from
   * the command line, and cmd_only_int from its default.
   */
  lemma CommandLineOverridesFileScenario(path: string, fs: FileSystem)
    requires path in fs && fs[path] == Entries(TestIni())
    ensures var a := Parse(TestSchema, TestVersion, Tokens(OverridingArgs(path)), fs);
            a.early == [] && !a.showConfig && a.result == Success(OverriddenValues())
  {
    OverridingCommandLine(path);
    IniRead();
    OverridingUsers();
    OverridingChecksPass();
  }

  /** The containers suite's `is_odd`: every element is odd. */
  function IsOdd(v: Value): bool
  {
    v.Many? && forall i :: 0 <= i < |v.elems| ==> v.elems[i] % 2 != 0
  }

  /** `def_vector_3`: a checked vector of ints defaulting to {7, 8, 9}, with no names. */
  const DefVector3: OptionDecl :=
    OptionDecl("def_vector_3", Vector(Bounds(-2147483648, 2147483647)), Many([7, 8, 9]), IsOdd,
               None, None, "Default vector 3")

  /**
   * `def_vector_3` can be set from nowhere and its default fails `is_odd`,
   * so no parse of a configuration that declares it can commit.
   */
  lemma DefVector3FailsEveryParse(schema: Schema, version: Option<string>, argv: Argv, fs: FileSystem, i: nat)
    requires WellFormed(schema) && i < |schema| && schema[i] == DefVector3
    ensures Parse(schema, version, argv, fs).result.Failure?
  {
    assert Seed(DefVector3) == Many([7, 8, 9]);
    assert !IsOdd(Many([7, 8, 9])) by {
      assert Many([7, 8, 9]).elems[1] % 2 == 0;
    }
    UnnamedRejectedDefaultFailsEveryParse(schema, version, argv, fs, i);
  }
}
