/**
 * The demo program's configuration (demo/config.hpp): five options, one of
 * them a descending `std::set<unsigned>` whose validator accepts only
 * powers of two, written with the bit trick `x > 0 && (x & (x - 1)) == 0`.
 */
module Demo {
  import opened Wrappers
  import opened Colors
  import opened Values
  import opened Containers
  import opened Range
  import opened Engine
  import opened EngineLaws

  /** `a & b` on non-negative integers, one bit at a time from the lowest. */
  function BitAnd(a: nat, b: nat): nat
  {
    if a == 0 || b == 0 then 0
    else 2 * BitAnd(a / 2, b / 2) + (if a % 2 == 1 && b % 2 == 1 then 1 else 0)
  }

  /** The reference definition: 1, 2, 4, 8, ... */
  predicate IsPowerOfTwo(x: nat)
  {
    x == 1 || (x > 1 && x % 2 == 0 && IsPowerOfTwo(x / 2))
  }

  /** The element test of the `power2` validator, on an `unsigned` value. */
  predicate PowerOfTwoTest(x: int)
  {
    x > 0 && BitAnd(x, x - 1) == 0
  }

  lemma {:induction false} BitAndSelf(a: nat)
    ensures BitAnd(a, a) == a
  {
    if a != 0 {
      BitAndSelf(a / 2);
    }
  }

  /** The bit trick recognises exactly the powers of two. */
  lemma {:induction false} PowerOfTwoTestCorrect(x: nat)
    ensures PowerOfTwoTest(x) <==> IsPowerOfTwo(x)
    decreases x
  {
    if x <= 1 {
    } else if x % 2 == 0 {
      var y := x / 2;
      assert (x - 1) / 2 == y - 1 && (x - 1) % 2 == 1;
      assert BitAnd(x, x - 1) == 2 * BitAnd(y, y - 1);
      PowerOfTwoTestCorrect(y);
    } else {
      var y := x / 2;
      assert (x - 1) / 2 == y && (x - 1) % 2 == 0;
      assert BitAnd(x, x - 1) == 2 * BitAnd(y, y);
      BitAndSelf(y);
    }
  }

  /** The unit tests' loop rejects `x == 0 || (x & (x - 1)) != 0`: exactly the non-powers of two. */
  lemma TestLoopRejectsNonPowers(x: nat)
    ensures (x == 0 || BitAnd(x, x - 1) != 0) <==> !IsPowerOfTwo(x)
  {
    PowerOfTwoTestCorrect(x);
  }

  /** The `power2` validator: `std::all_of` the elements pass the bit trick. */
  function Power2(v: Value): bool
  {
    v.Many? && forall i :: 0 <= i < |v.elems| ==> PowerOfTwoTest(v.elems[i])
  }

  /** The validator accepts a set exactly when every element is a power of two. */
  lemma Power2AcceptsPowersOfTwo(v: Value)
    requires v.Many? && forall x :: x in v.elems ==> x >= 0
    ensures Power2(v) <==> forall x: nat :: x in v.elems ==> IsPowerOfTwo(x)
  {
    if Power2(v) {
      forall x: nat | x in v.elems
        ensures IsPowerOfTwo(x)
      {
        var i :| 0 <= i < |v.elems| && v.elems[i] == x;
        PowerOfTwoTestCorrect(x);
      }
    } else {
      var i :| 0 <= i < |v.elems| && !PowerOfTwoTest(v.elems[i]);
      assert v.elems[i] in v.elems;
      var x: nat := v.elems[i];
      PowerOfTwoTestCorrect(x);
      assert x in v.elems && !IsPowerOfTwo(x);
    }
  }

  const UShort: Bounds := Bounds(0, 65535)
  const UInt: Bounds := Bounds(0, 4294967295)

  const TextOption: OptionDecl :=
    UncheckedOption("text", Plain(TextKind), One(Text("default text")),
               Some(CmdName("text", Some('t'))), Some("common.text"), "Some text")
  const NumberOption: OptionDecl :=
    UncheckedOption("number", Plain(IntKind(UShort)), One(Int(80)),
               Some(CmdName("number", Some('n'))), Some("common.number"), "Unsigned short number")
  const FlagOption: OptionDecl :=
    UncheckedOption("flag", Plain(BoolKind), One(Bool(false)),
               Some(CmdName("flag", Some('f'))), Some("common.flag"), "Boolean flag")
  const Power2Option: OptionDecl :=
    OptionDecl("power2", OrderedSet(UInt, Greater), Many([32, 64, 128]), Power2,
               Some(CmdName("power2", None)), Some("power2.item"), "Power of 2 numbers")
  const ColorOption: OptionDecl :=
    UncheckedOption("color", Plain(ColorKind), One(Hue(Red)),
               Some(CmdName("color", None)), Some("common.color"), "RGB color (red|green|blue)")

  /** `raconfig::config<actions, text, number, flag, power2, color>`. */
  const DemoSchema: Schema := [TextOption, NumberOption, FlagOption, Power2Option, ColorOption]

  /** The demo's schema is one the engine accepts. */
  lemma DemoWellFormed()
    ensures WellFormed(DemoSchema)
  {
    DemoNamesDistinct();
    DemoKeysDistinct();
    DemoDefaultsConform();
  }

  lemma DemoNamesDistinct()
    ensures forall i, j :: 0 <= i < j < |DemoSchema| ==> DemoSchema[i].name != DemoSchema[j].name
  {
  }

  lemma DemoKeys()
    ensures Key(DemoSchema[0], CommandLine) == Some("text") && Key(DemoSchema[0], File) == Some("common.text")
    ensures Key(DemoSchema[1], CommandLine) == Some("number") && Key(DemoSchema[1], File) == Some("common.number")
    ensures Key(DemoSchema[2], CommandLine) == Some("flag") && Key(DemoSchema[2], File) == Some("common.flag")
    ensures Key(DemoSchema[3], CommandLine) == Some("power2") && Key(DemoSchema[3], File) == Some("power2.item")
    ensures Key(DemoSchema[4], CommandLine) == Some("color") && Key(DemoSchema[4], File) == Some("common.color")
  {
  }

  lemma DemoKeysDistinct()
    ensures DistinctKeys(DemoSchema, CommandLine) && DistinctKeys(DemoSchema, File)
    ensures forall i :: 0 <= i < |DemoSchema| && Key(DemoSchema[i], CommandLine).Some? ==>
              Key(DemoSchema[i], CommandLine).value !in {HelpFlag, VersionFlag, ShowConfigFlag, ConfigFlag}
  {
    DemoKeys();
  }

  lemma DemoDefaultsConform()
    ensures forall i :: 0 <= i < |DemoSchema| ==> Conforms(DemoSchema[i].shape, DemoSchema[i].default)
  {
    assert forall x :: x in [32, 64, 128] ==> InBounds(UInt, x);
  }

  /** The defaults the demo starts from; the set's default is held largest first. */
  lemma DemoSeeds()
    ensures Seeds(DemoSchema) ==
              [One(Text("default text")), One(Int(80)), One(Bool(false)), Many([128, 64, 32]), One(Hue(Red))]
  {
    assert BuildOrdered(Greater, true, [32]) == [32];
    assert [32, 64][..1] == [32];
    assert BuildOrdered(Greater, true, [32, 64]) == [64, 32];
    assert [32, 64, 128][..2] == [32, 64];
    assert BuildOrdered(Greater, true, [32, 64, 128]) == [128, 64, 32];
  }

  /** Every default passes its validator, so a bare `demo` run commits the defaults. */
  lemma DemoDefaultsCommit(fs: FileSystem, version: Option<string>)
    ensures var a := Parse(DemoSchema, version, Tokens(map[]), fs);
            a.result == Success(Seeds(DemoSchema)) && a.early == [] && !a.showConfig
  {
    DemoWellFormed();
    DemoChecksPass();
    DefaultsWithoutArguments(DemoSchema, version, fs);
  }

  lemma DemoChecksPass()
    ensures FirstFailing(DemoSchema, Seeds(DemoSchema), 0) == None
  {
    DemoSeeds();
    DemoSeedsPass();
  }

  lemma DemoSeedsPass()
    ensures FirstFailing(DemoSchema,
                         [One(Text("default text")), One(Int(80)), One(Bool(false)), Many([128, 64, 32]), One(Hue(Red))],
                         0) == None
  {
    var seeds := [One(Text("default text")), One(Int(80)), One(Bool(false)), Many([128, 64, 32]), One(Hue(Red))];
    DemoDefaultSetPasses();
    assert DemoSchema[3].check == Power2;
    assert FirstFailing(DemoSchema, seeds, 4) == None;
    assert FirstFailing(DemoSchema, seeds, 3) == None;
    assert FirstFailing(DemoSchema, seeds, 2) == None;
    assert FirstFailing(DemoSchema, seeds, 1) == None;
  }

  lemma DemoDefaultSetPasses()
    ensures Power2(Many([128, 64, 32]))
  {
    assert IsPowerOfTwo(32) && IsPowerOfTwo(64) && IsPowerOfTwo(128);
    PowerOfTwoTestCorrect(32);
    PowerOfTwoTestCorrect(64);
    PowerOfTwoTestCorrect(128);
  }

  /** What `--show-config` reports for the defaults, in declaration order. */
  lemma DemoDefaultsShown()
    ensures ShowConfigEvents(DemoSchema, Seeds(DemoSchema)) ==
              [ShowConfigBegin,
               ShowValue("text", "default text"),
               ShowValue("number", "80"),
               ShowValue("flag", "0"),
               ShowList("power2", ["128", "64", "32"]),
               ShowValue("color", "RED"),
               ShowConfigEnd]
  {
    DemoSeeds();
    assert IntToString(80) == "80" && IntToString(128) == "128";
    assert IntToString(64) == "64" && IntToString(32) == "32";
    assert Renders([128, 64, 32]) == ["128", "64", "32"];
  }

  /** A set holding a number that is not a power of two is rejected (`--power2=12`). */
  lemma DemoRejectsNonPowerOfTwo()
    ensures !Power2(Many([12, 4]))
    ensures Power2(Many([8, 4]))
    ensures Power2(Many([]))
  {
    assert BitAnd(1, 1) == 1 && BitAnd(3, 2) == 2 && BitAnd(6, 5) == 4;
    assert BitAnd(12, 11) == 8;
    assert !PowerOfTwoTest(Many([12, 4]).elems[0]);
    assert BitAnd(8, 7) == 0 && BitAnd(4, 3) == 0;
  }
}
