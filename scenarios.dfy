/** The repository's test scenarios, stated as lemmas about `Validation`. */
module Scenarios {
  import opened Wrappers
  import opened Text
  import opened Primitives
  import opened Annotation
  import opened Coercion
  import opened ConfigurationValidator
  import opened ValidatorProperties

  /** `[Property(t, DefaultValue = defaultValue)]` on a property called `name`. */
  function Defaulted(name: string, t: PropertyType, defaultValue: string): PropertyInfo {
    PropertyInfo(name, Some(WithDefaultValue(NewPropertyAttribute(Ordinal(t)), Some(defaultValue))))
  }

  /** ParentConfig, which ChildConfig inherits, as a table: property j is called ParentName(j),
      has type ParentType(j) and the default ParentRaw(j). */
  function ParentName(j: nat): string
    requires j < 11
  {
    if j == 0 then "BoolValue"
    else if j == 1 then "ByteValue"
    else if j == 2 then "SByteValue"
    else if j == 3 then "ShortValue"
    else if j == 4 then "UShortValue"
    else if j == 5 then "IntValue"
    else if j == 6 then "UIntValue"
    else if j == 7 then "LongValue"
    else if j == 8 then "ULongValue"
    else if j == 9 then "DoubleValue"
    else "StringValue"
  }

  /** Recovers j from ParentName(j): the first two letters of the names tell them apart. */
  function ParentIndex(name: string): int {
    if |name| < 2 then -1
    else if name[0] == 'B' && name[1] == 'o' then 0
    else if name[0] == 'B' && name[1] == 'y' then 1
    else if name[0] == 'S' && name[1] == 'B' then 2
    else if name[0] == 'S' && name[1] == 'h' then 3
    else if name[0] == 'U' && name[1] == 'S' then 4
    else if name[0] == 'I' && name[1] == 'n' then 5
    else if name[0] == 'U' && name[1] == 'I' then 6
    else if name[0] == 'L' && name[1] == 'o' then 7
    else if name[0] == 'U' && name[1] == 'L' then 8
    else if name[0] == 'D' && name[1] == 'o' then 9
    else if name[0] == 'S' && name[1] == 't' then 10
    else -1
  }

  lemma ParentNamesDistinct()
    ensures forall j, j' :: 0 <= j < j' < 11 ==> ParentName(j) != ParentName(j')
  {
    forall j | 0 <= j < 11
      ensures ParentIndex(ParentName(j)) == j
    {
    }
  }

  function ParentType(j: nat): PropertyType
    requires j < 11
  {
    if j == 0 then BOOL
    else if j == 1 then BYTE
    else if j == 2 then SBYTE
    else if j == 3 then SHORT
    else if j == 4 then USHORT
    else if j == 5 then INT
    else if j == 6 then UINT
    else if j == 7 then LONG
    else if j == 8 then ULONG
    else if j == 9 then DOUBLE
    else STRING
  }

  function ParentRaw(j: nat): string
    requires j < 11
  {
    if j == 0 then "true"
    else if j == 1 then "0"
    else if j == 2 then "-1"
    else if j == 3 then "-1"
    else if j == 4 then "1"
    else if j == 5 then "-1"
    else if j == 6 then "1"
    else if j == 7 then "-1"
    else if j == 8 then "1"
    else if j == 9 then "0.0"
    else "Hello, World!"
  }

  function ParentField(j: nat): PropertyInfo
    requires j < 11
  {
    Defaulted(ParentName(j), ParentType(j), ParentRaw(j))
  }

  const ParentConfig: seq<PropertyInfo> := seq(11, j requires 0 <= j < 11 => ParentField(j))

  /** A defaulted property with no parent that is absent on entry receives its parsed default. */
  lemma DefaultedAbsent(d: Registry, name: string, t: PropertyType, raw: string, parseDouble: string -> Option<Double>)
    requires name in d && !d[name]
    ensures Decide(d, name, Defaulted(name, t, raw).attribute.value, parseDouble) ==
      match Coerce(t, raw, parseDouble)
      case Ok(v) => Assign(v)
      case Err(f) => Abort(InvalidDefault(f, raw))
  {
    OrdinalRoundTrip(t);
  }

  lemma ParseTrue(parseDouble: string -> Option<Double>)
    ensures Coerce(BOOL, "true", parseDouble) == Ok(BoolValue(true))
  {
    var s := "true";
    assert !IsWhiteSpaceOrNull(s[0]) && !IsWhiteSpaceOrNull(s[|s| - 1]);
    assert Trim(s, IsWhiteSpaceOrNull) == s;
    assert EqualsIgnoreCase(s, "True");
  }

  /** An instance whose properties all carry a default, no parent and no required flag, and
      hold nothing on entry, ends up with every default parsed and written. */
  lemma AllDefaultsApplied(props: seq<PropertyInfo>, sv: SelfValidation, parseDouble: string -> Option<Double>)
    requires TagsKnownFrom(props, 0) && FreshNamesFrom(props, 0, map[])
    requires forall j :: 0 <= j < |props| ==>
      && props[j].attribute.Some?
      && var attr := props[j].attribute.value;
         !attr.required && attr.parent.None? && attr.defaultValue.Some? && ParsedDefault(attr, parseDouble).Ok?
    ensures var run := Validation(props, seq(|props|, _ => None), sv, parseDouble);
            && run.outcome == HookResult(sv)
            && forall j :: 0 <= j < |props| ==> run.values[j] == Some(ParsedDefault(props[j].attribute.value, parseDouble).value)
  {
    var values: seq<Option<Value>> := seq(|props|, _ => None);
    RegistryBuilt(props, values);
    var d := BuildRegistry(props, values).value;
    ValidationCharacterized(props, values, sv, parseDouble, d);
    assert FirstAbort(Decisions(props, d, parseDouble), 0) == |props|;
  }

  /** The values DefaultValidateTest expects, in the order of ParentConfig. */
  function ParentDefault(j: nat): Value
    requires j < 11
  {
    [BoolValue(true), ByteValue(0), SByteValue(-1), Int16Value(-1), UInt16Value(1), Int32Value(-1),
     UInt32Value(1), Int64Value(-1), UInt64Value(1), DoubleValue(0), StringValue("Hello, World!")][j]
  }

  /** The default of every property of ParentConfig parses to the value DefaultValidateTest expects. */
  lemma ParentRawParses(j: nat, parseDouble: string -> Option<Double>)
    requires j < 11 && parseDouble("0.0") == Some(0)
    ensures Coerce(ParentType(j), ParentRaw(j), parseDouble) == Ok(ParentDefault(j))
  {
    if j == 0 {
      assert ParentType(j) == BOOL && ParentRaw(j) == "true" && ParentDefault(j) == BoolValue(true);
      ParseTrue(parseDouble);
    } else if j == 9 {
      assert ParentType(j) == DOUBLE && ParentRaw(j) == "0.0" && ParentDefault(j) == DoubleValue(0);
    } else if j == 10 {
      assert ParentType(j) == STRING && ParentDefault(j) == StringValue(ParentRaw(j));
    } else {
      ParentIntegerRawParses(j, parseDouble);
    }
  }

  /** An integer-typed default that spells n, in range, coerces to n at that type. */
  lemma IntegerRawParses(t: PropertyType, raw: string, n: int, v: Value, parseDouble: string -> Option<Double>)
    requires IsIntegerType(t) && ParseIntegerLiteral(raw) == Some(n) && InRange(t, n) && v == IntegerValue(t, n)
    ensures Coerce(t, raw, parseDouble) == Ok(v)
  {
  }

  /** The integer defaults of ParentConfig are the canonical spellings of 0, 1 and -1. */
  lemma SmallFormats()
    ensures FormatInteger(0) == "0" && FormatInteger(1) == "1" && FormatInteger(-1) == "-1"
  {
    assert DecimalDigits(0) == "0" && DecimalDigits(1) == "1";
  }

  /** The integer value property j of ParentConfig defaults to, 1 <= j < 9. */
  function ParentInteger(j: nat): int
    requires 1 <= j < 9
  {
    if j == 1 then 0 else if j == 4 || j == 6 || j == 8 then 1 else -1
  }

  lemma ParentIntegerField(j: nat)
    requires 1 <= j < 9
    ensures IsIntegerType(ParentType(j)) && InRange(ParentType(j), ParentInteger(j))
    ensures ParentRaw(j) == FormatInteger(ParentInteger(j))
    ensures ParentDefault(j) == IntegerValue(ParentType(j), ParentInteger(j))
  {
    SmallFormats();
  }

  lemma ParentIntegerRawParses(j: nat, parseDouble: string -> Option<Double>)
    requires 1 <= j < 9
    ensures Coerce(ParentType(j), ParentRaw(j), parseDouble) == Ok(ParentDefault(j))
  {
    ParentIntegerField(j);
    ParseFormatInteger(ParentInteger(j));
    IntegerRawParses(ParentType(j), ParentRaw(j), ParentInteger(j), ParentDefault(j), parseDouble);
  }

  /** Each property of ParentConfig is optional, parentless and defaulted, and its default parses. */
  lemma ParentFieldParses(j: nat, parseDouble: string -> Option<Double>)
    requires j < 11 && parseDouble("0.0") == Some(0)
    ensures ParentField(j).attribute.Some?
    ensures var attr := ParentField(j).attribute.value;
            !attr.required && attr.parent.None? && attr.defaultValue.Some? && attr.Type().Some? &&
            ParsedDefault(attr, parseDouble) == Ok(ParentDefault(j))
  {
    OrdinalRoundTrip(ParentType(j));
    ParentRawParses(j, parseDouble);
  }

  /** ParentConfig meets the premises of AllDefaultsApplied. */
  lemma ParentConfigWellFormed(parseDouble: string -> Option<Double>)
    requires parseDouble("0.0") == Some(0)
    ensures TagsKnownFrom(ParentConfig, 0) && FreshNamesFrom(ParentConfig, 0, map[])
    ensures forall j :: 0 <= j < |ParentConfig| ==>
      && ParentConfig[j].attribute.Some?
      && var attr := ParentConfig[j].attribute.value;
         !attr.required && attr.parent.None? && attr.defaultValue.Some? && ParsedDefault(attr, parseDouble) == Ok(ParentDefault(j))
  {
    ParentNamesDistinct();
    forall j | 0 <= j < 11
      ensures ParentField(j).attribute.Some?
      ensures var attr := ParentField(j).attribute.value;
              !attr.required && attr.parent.None? && attr.defaultValue.Some? && attr.Type().Some? &&
              ParsedDefault(attr, parseDouble) == Ok(ParentDefault(j))
    {
      ParentFieldParses(j, parseDouble);
    }
  }

  /** DefaultValidateTest: every property of a fresh ChildConfig receives its parsed default. */
  lemma DefaultValidateTest(parseDouble: string -> Option<Double>)
    requires parseDouble("0.0") == Some(0)
    ensures var run := Validation(ParentConfig, seq(11, _ => None), NotImplemented, parseDouble);
            && run.outcome == Pass
            && |run.values| == 11
            && forall j :: 0 <= j < 11 ==> run.values[j] == Some(ParentDefault(j))
  {
    ParentConfigWellFormed(parseDouble);
    AllDefaultsApplied(ParentConfig, NotImplemented, parseDouble);
  }

  /** `[Property(t, required, Parent = parent, DefaultValue = defaultValue)]` on a property called `name`. */
  function Prop(name: string, t: PropertyType, required: bool, parent: Option<string>, defaultValue: Option<string>): PropertyInfo {
    PropertyInfo(name, Some(WithDefaultValue(WithParent(NewPropertyAttribute(Ordinal(t), required), parent), defaultValue)))
  }

  /** UnknownTypeValidateTest: `[Property((PropertyType)11)]` fails pass 1 with that tag, and the
      property stays null. */
  lemma UnknownTypeValidateTest(sv: SelfValidation, parseDouble: string -> Option<Double>)
    ensures var run := Validation([PropertyInfo("StringValue", Some(NewPropertyAttribute(11)))], [None], sv, parseDouble);
            run.outcome == Fail(UnknownType(11)) && run.values == [None] && !run.hookCalled
  {
  }

  /** ParentPropertyTest, first half: a parent naming no annotated property fails the call. */
  lemma ParentPropertyNotFoundTest(sv: SelfValidation, parseDouble: string -> Option<Double>)
    ensures var run := Validation([Prop("IntValue", INT, true, Some("Value"), None)], [None], sv, parseDouble);
            run.outcome == Fail(ParentNotFound("Value")) && run.values == [None] && !run.hookCalled
  {
    var props := [Prop("IntValue", INT, true, Some("Value"), None)];
    OrdinalRoundTrip(INT);
    assert !IsNullOrWhiteSpace(Some("Value")) by {
      assert !IsWhiteSpace("Value"[0]);
    }
    var d := map["IntValue" := false];
    assert BuildRegistry(props, [None]) == Ok(d);
    assert "Value" !in d;
  }

  /** ValidatableConfigValidateTest: an instance with no annotated properties whose Validate()
      throws fails with that very exception, after the hook has run once. */
  lemma ValidatableConfigValidateTest(exception: string, parseDouble: string -> Option<Double>)
    ensures var run := Validation([], [], Implemented(Throws(exception)), parseDouble);
            run.outcome == Fail(HookError(exception)) && run.values == [] && run.hookCalled
  {
  }

  /** An optional BoolValue defaulting to "true", and a required IntValue whose parent it is. */
  const SnapshotConfig: seq<PropertyInfo> := [
    Prop("BoolValue", BOOL, false, None, Some("true")),
    Prop("IntValue", INT, true, Some("BoolValue"), None)
  ]

  lemma SnapshotRegistry(values: seq<Option<Value>>)
    requires |values| == 2
    ensures BuildRegistry(SnapshotConfig, values) == Ok(map["BoolValue" := values[0].Some?, "IntValue" := values[1].Some?])
  {
    OrdinalRoundTrip(BOOL);
    OrdinalRoundTrip(INT);
    assert "BoolValue" != "IntValue";
  }

  lemma SnapshotFirstRun(parseDouble: string -> Option<Double>)
    ensures var run := Validation(SnapshotConfig, [None, None], NotImplemented, parseDouble);
            run.outcome == Pass && run.values == [Some(BoolValue(true)), None]
  {
    var d := map["BoolValue" := false, "IntValue" := false];
    SnapshotRegistry([None, None]);
    var acts := Decisions(SnapshotConfig, d, parseDouble);
    OrdinalRoundTrip(BOOL);
    ParseTrue(parseDouble);
    assert acts[0] == Assign(BoolValue(true));
    assert !IsNullOrWhiteSpace(Some("BoolValue")) by {
      assert !IsWhiteSpace("BoolValue"[0]);
    }
    assert !ParentAllows(d, SnapshotConfig[1].attribute.value);
    assert acts[1] == Skip;
    assert FirstAbort(acts, 0) == 2;
    ValidationCharacterized(SnapshotConfig, [None, None], NotImplemented, parseDouble, d);
    var run := Validation(SnapshotConfig, [None, None], NotImplemented, parseDouble);
    assert run.values[0] == Some(BoolValue(true)) && run.values[1] == None;
  }

  lemma SnapshotSecondRun(parseDouble: string -> Option<Double>)
    ensures Validation(SnapshotConfig, [Some(BoolValue(true)), None], NotImplemented, parseDouble).outcome ==
            Fail(MissingRequired("IntValue"))
  {
    var d := map["BoolValue" := true, "IntValue" := false];
    SnapshotRegistry([Some(BoolValue(true)), None]);
    var acts := Decisions(SnapshotConfig, d, parseDouble);
    assert acts[0] == Skip;
    assert ParentAllows(d, SnapshotConfig[1].attribute.value);
    assert acts[1] == Abort(MissingRequired("IntValue"));
    FirstAbortAt(acts, 1);
    ValidationCharacterized(SnapshotConfig, [Some(BoolValue(true)), None], NotImplemented, parseDouble, d);
  }

  /** Pass 2 reads presence from the pass-1 snapshot: BoolValue was absent on entry, so the
      requirement on IntValue is waived although BoolValue is filled in the same call; the call
      succeeds. A second call on the result sees BoolValue present and fails on IntValue, so
      Validate is not idempotent. */
  lemma SnapshotScenario(parseDouble: string -> Option<Double>)
    ensures var run := Validation(SnapshotConfig, [None, None], NotImplemented, parseDouble);
            && run.outcome == Pass && run.values == [Some(BoolValue(true)), None]
            && Validation(SnapshotConfig, run.values, NotImplemented, parseDouble).outcome == Fail(MissingRequired("IntValue"))
  {
    SnapshotFirstRun(parseDouble);
    SnapshotSecondRun(parseDouble);
  }

  /** RequiredPropertyConfig, in declaration order. */
  const RequiredConfig: seq<PropertyInfo> := [
    Prop("StringValue3", STRING, false, None, Some("Hello")),
    Prop("StringValue2", STRING, true, None, None),
    Prop("StringValue", STRING, true, None, Some("Hello")),
    Prop("StringValue4", STRING, true, Some("BoolValue2"), Some("Hello")),
    Prop("BoolValue2", BOOL, true, None, None),
    Prop("BoolValue", BOOL, true, None, None)
  ]

  /** StringValue3, StringValue2 and BoolValue2 set, the others null. */
  const RequiredValues: seq<Option<Value>> :=
    [Some(StringValue("Hello")), Some(StringValue("Hello")), None, None, Some(BoolValue(true)), None]

  lemma RequiredRegistry()
    ensures BuildRegistry(RequiredConfig, RequiredValues).Ok?
    ensures var d := BuildRegistry(RequiredConfig, RequiredValues).value;
            && Covers(RequiredConfig, d)
            && "StringValue3" in d && d["StringValue3"] && "StringValue2" in d && d["StringValue2"]
            && "StringValue" in d && !d["StringValue"]
  {
    OrdinalRoundTrip(BOOL);
    OrdinalRoundTrip(STRING);
    var d := map["StringValue3" := true, "StringValue2" := true, "StringValue" := false,
                 "StringValue4" := false, "BoolValue2" := true, "BoolValue" := false];
    assert BuildRegistry(RequiredConfig, RequiredValues) == Ok(d);
  }

  lemma RequiredDecisions(d: Registry, parseDouble: string -> Option<Double>)
    requires Covers(RequiredConfig, d)
    requires "StringValue3" in d && d["StringValue3"] && "StringValue2" in d && d["StringValue2"]
    requires "StringValue" in d && !d["StringValue"]
    ensures var acts := Decisions(RequiredConfig, d, parseDouble);
            acts[0] == Skip && acts[1] == Skip && acts[2] == Abort(MissingRequired("StringValue"))
  {
  }

  /** Pass 2 stops at StringValue, the third property, having written nothing. */
  lemma RequiredFirstAbort(d: Registry, parseDouble: string -> Option<Double>)
    requires Covers(RequiredConfig, d)
    requires "StringValue3" in d && d["StringValue3"] && "StringValue2" in d && d["StringValue2"]
    requires "StringValue" in d && !d["StringValue"]
    ensures var acts := Decisions(RequiredConfig, d, parseDouble);
            && FirstAbort(acts, 0) == 2 && acts[2] == Abort(MissingRequired("StringValue"))
            && forall j :: 0 <= j < 2 ==> !acts[j].Assign?
  {
    RequiredDecisions(d, parseDouble);
    FirstAbortAt(Decisions(RequiredConfig, d, parseDouble), 2);
  }

  /** RequiredPropertyTest: StringValue is required, has no parent and is null, so the call fails
      on it, although it has a DefaultValue; nothing has been written and the hook is not called. */
  lemma RequiredPropertyTest(sv: SelfValidation, parseDouble: string -> Option<Double>)
    ensures var run := Validation(RequiredConfig, RequiredValues, sv, parseDouble);
            run.outcome == Fail(MissingRequired("StringValue")) && run.values == RequiredValues && !run.hookCalled
  {
    RequiredRegistry();
    var d := BuildRegistry(RequiredConfig, RequiredValues).value;
    RequiredFirstAbort(d, parseDouble);
    ValidationCharacterized(RequiredConfig, RequiredValues, sv, parseDouble, d);
    NothingWrittenBeforeAbort(RequiredConfig, RequiredValues, sv, parseDouble, d);
  }

  /** ParentPropertyConfig is four pairs: a flag BoolValue<k> followed by IntValue<k>, whose
      parent is that flag, where the suffix <k> runs 4, 3, 2 and then is empty. */
  function ChainSuffix(k: nat): string
    requires k < 4
  {
    if k == 0 then "4" else if k == 1 then "3" else if k == 2 then "2" else ""
  }

  function ChainName(j: nat): string
    requires j < 8
  {
    (if j % 2 == 0 then "BoolValue" else "IntValue") + ChainSuffix(j / 2)
  }

  /** The first two IntValue properties carry DefaultValue "1"; the last two are required. */
  function ChainField(j: nat): PropertyInfo
    requires j < 8
  {
    if j % 2 == 0 then Prop(ChainName(j), BOOL, false, None, None)
    else Prop(ChainName(j), INT, j / 2 >= 2, Some(ChainName(j - 1)), if j / 2 < 2 then Some("1") else None)
  }

  const ParentPropertyConfig: seq<PropertyInfo> := seq(8, j requires 0 <= j < 8 => ChainField(j))

  /** The test sets BoolValue4 and BoolValue to true and leaves the rest null. */
  function ChainValue(j: nat): Option<Value> {
    if j == 0 || j == 6 then Some(BoolValue(true)) else None
  }

  const ParentPropertyValues: seq<Option<Value>> := seq(8, j requires 0 <= j < 8 => ChainValue(j))

  /** Recovers the position from a name: the kind from the first letter, the pair from the last. */
  function ChainIndex(name: string): int {
    if name == [] then -1
    else
      var kind := if name[0] == 'B' then 0 else 1;
      var last := name[|name| - 1];
      var pair := if last == '4' then 0 else if last == '3' then 1 else if last == '2' then 2 else 3;
      2 * pair + kind
  }

  lemma ChainNamesDistinct()
    ensures forall j, j' :: 0 <= j < j' < 8 ==> ChainName(j) != ChainName(j')
  {
    forall j | 0 <= j < 8
      ensures ChainIndex(ChainName(j)) == j
    {
    }
  }

  /** Every position of ParentPropertyConfig is annotated with a known tag under its chain name. */
  lemma ChainShape()
    ensures |ParentPropertyConfig| == 8 && |ParentPropertyValues| == 8
    ensures forall j :: 0 <= j < 8 ==>
      && ParentPropertyConfig[j] == ChainField(j) && ParentPropertyValues[j] == ChainValue(j)
      && ChainField(j).name == ChainName(j) && ChainField(j).attribute.Some?
      && ChainField(j).attribute.value.Type().Some?
  {
    OrdinalRoundTrip(BOOL);
    OrdinalRoundTrip(INT);
  }

  lemma ChainWellFormed()
    ensures TagsKnownFrom(ParentPropertyConfig, 0) && FreshNamesFrom(ParentPropertyConfig, 0, map[])
  {
    ChainShape();
    ChainNamesDistinct();
  }

  /** Pass 1 succeeds on ParentPropertyConfig and records which properties the test set. */
  lemma ChainRegistry()
    ensures BuildRegistry(ParentPropertyConfig, ParentPropertyValues).Ok?
    ensures var d := BuildRegistry(ParentPropertyConfig, ParentPropertyValues).value;
            && Covers(ParentPropertyConfig, d)
            && forall j :: 0 <= j < 8 ==> ChainName(j) in d && d[ChainName(j)] == ChainValue(j).Some?
  {
    ChainShape();
    ChainWellFormed();
    RegistryBuilt(ParentPropertyConfig, ParentPropertyValues);
  }

  /** What pass 2 decides at each position of ParentPropertyConfig. */
  function ChainAction(j: nat): Action {
    if j == 1 then Assign(Int32Value(1))
    else if j == 7 then Abort(MissingRequired("IntValue"))
    else Skip
  }

  /** A name that starts with a letter is set: neither null nor white space. */
  lemma NameSet(name: string)
    requires |name| > 0 && 'A' <= name[0] <= 'Z'
    ensures !IsNullOrWhiteSpace(Some(name))
  {
    assert !IsWhiteSpace(name[0]);
  }

  /** A null property whose parent is set by name follows its parent: required, it is missing
      exactly when the parent is present; defaulted, it is filled only when the parent is present. */
  lemma FollowsParent(d: Registry, name: string, attr: PropertyAttribute, parseDouble: string -> Option<Double>)
    requires name in d && !d[name] && attr.Type().Some?
    requires !IsNullOrWhiteSpace(attr.parent) && attr.parent.value in d
    ensures attr.required ==>
      Decide(d, name, attr, parseDouble) == if d[attr.parent.value] then Abort(MissingRequired(name)) else Skip
    ensures !attr.required && !d[attr.parent.value] ==> Decide(d, name, attr, parseDouble) == Skip
    ensures !attr.required && d[attr.parent.value] && attr.defaultValue.Some? && ParsedDefault(attr, parseDouble).Ok? ==>
      Decide(d, name, attr, parseDouble) == Assign(ParsedDefault(attr, parseDouble).value)
  {
  }

  /** IntValue4 receives its default 1: its flag BoolValue4 is set. */
  lemma ChainDefaultParses(parseDouble: string -> Option<Double>)
    ensures ChainField(1).attribute.value.Type() == Some(INT)
    ensures ParsedDefault(ChainField(1).attribute.value, parseDouble) == Ok(Int32Value(1))
  {
    OrdinalRoundTrip(INT);
    SmallFormats();
    ParseFormatInteger(1);
    IntegerRawParses(INT, "1", 1, Int32Value(1), parseDouble);
  }

  /** An IntValue property decides from its own flag. */
  lemma ChainIntDecision(d: Registry, j: nat, parseDouble: string -> Option<Double>)
    requires j < 8 && j % 2 == 1
    requires ChainName(j) in d && !d[ChainName(j)]
    requires ChainName(j - 1) in d && d[ChainName(j - 1)] == ChainValue(j - 1).Some?
    ensures Decide(d, ChainName(j), ChainField(j).attribute.value, parseDouble) == ChainAction(j)
  {
    OrdinalRoundTrip(INT);
    var attr := ChainField(j).attribute.value;
    assert attr.parent == Some(ChainName(j - 1)) && attr.required == (j >= 5);
    if j == 1 {
      ChainDefaultParses(parseDouble);
    }
    NameSet(ChainName(j - 1));
    FollowsParent(d, ChainName(j), attr, parseDouble);
  }

  lemma ChainDecision(d: Registry, j: nat, parseDouble: string -> Option<Double>)
    requires j < 8 && Covers(ParentPropertyConfig, d)
    requires forall i :: 0 <= i < 8 ==> ChainName(i) in d && d[ChainName(i)] == ChainValue(i).Some?
    ensures ActionAt(ParentPropertyConfig, d, parseDouble, j) == ChainAction(j)
  {
    ChainShape();
    if j % 2 == 1 {
      ChainIntDecision(d, j, parseDouble);
    }
  }

  /** Pass 2 on ParentPropertyConfig stops at IntValue, the last property, having decided only
      IntValue4's default before it. */
  lemma ChainFirstAbort(d: Registry, parseDouble: string -> Option<Double>)
    requires Covers(ParentPropertyConfig, d)
    requires forall i :: 0 <= i < 8 ==> ChainName(i) in d && d[ChainName(i)] == ChainValue(i).Some?
    ensures var acts := Decisions(ParentPropertyConfig, d, parseDouble);
            && FirstAbort(acts, 0) == 7 && acts[7] == Abort(MissingRequired("IntValue"))
            && forall j :: 0 <= j < 8 ==> acts[j] == ChainAction(j)
  {
    var acts := Decisions(ParentPropertyConfig, d, parseDouble);
    forall j | 0 <= j < 8
      ensures acts[j] == ChainAction(j)
    {
      ChainDecision(d, j, parseDouble);
    }
    FirstAbortAt(acts, 7);
  }

  /** The instance after pass 2 stopped at IntValue: only IntValue4 has changed. */
  lemma ChainValuesAfter(vs: seq<Option<Value>>)
    requires |vs| == 8
    requires forall j :: 0 <= j < 8 ==> vs[j] == if j < 7 then Applied(ChainAction(j), ChainValue(j)) else ChainValue(j)
    ensures vs == ParentPropertyValues[1 := Some(Int32Value(1))]
  {
    ChainShape();
  }

  /** ParentPropertyTest, second half: IntValue is required and its parent BoolValue is set, so
      the call fails on IntValue. IntValue2's requirement is waived because BoolValue2 is null,
      IntValue3 gets no default because BoolValue3 is null, and IntValue4, whose parent is set,
      has already received its default 1, which stays written: the call is not transactional. */
  lemma ParentPropertyTest(sv: SelfValidation, parseDouble: string -> Option<Double>)
    ensures var run := Validation(ParentPropertyConfig, ParentPropertyValues, sv, parseDouble);
            && run.outcome == Fail(MissingRequired("IntValue")) && !run.hookCalled
            && run.values == ParentPropertyValues[1 := Some(Int32Value(1))]
  {
    ChainRegistry();
    var d := BuildRegistry(ParentPropertyConfig, ParentPropertyValues).value;
    ChainFirstAbort(d, parseDouble);
    ValidationCharacterized(ParentPropertyConfig, ParentPropertyValues, sv, parseDouble, d);
    ChainShape();
    ChainValuesAfter(Validation(ParentPropertyConfig, ParentPropertyValues, sv, parseDouble).values);
  }
}
