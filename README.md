# System.Configuration-Extensions: the validator, modelled in Dafny

`ConfigurationValidator.Validate<T>` checks a configuration object against the `[Property]`
annotations on its properties and fills in defaults. This project models it, together with
the presence probe `IProperty` and the annotation `PropertyAttribute` / `PropertyType` it reads.
It then proves what the validator promises.

The call does four things, in order:

1. **Null check.** A null instance throws `ArgumentNullException`.
2. **Pass 1.** Each annotated property gets a presence snapshot, read through `IProperty.Of`,
   in a dictionary keyed by the property name. A type tag outside the eleven named members
   throws here.
3. **Pass 2.** The properties are walked again in the same order. For each annotated one:
   - its `Parent` is resolved;
   - then either the required rule applies, or the default rule does. The default rule parses
     `DefaultValue` for the declared type and writes the result into the instance at once.

   The first failure ends the call.
4. **Hook.** If the instance implements `IValidatableConfiguration`, its `Validate()` runs.

Modules, one per file:

- `Wrappers` (`wrappers.dfy`): `Option` and `Result`.
- `Primitives` (`primitives.dfy`): the CLR integer widths as subset types of `int`. `Double` is
  an uninterpreted 64-bit pattern.
- `Text` (`text.dfy`): the base-library string operations the validator depends on:
  `Char.IsWhiteSpace`, `string.IsNullOrWhiteSpace`, the trims, ordinal ignore-case comparison
  and decimal digits.
- `Annotation` (`annotation.dfy`): `PropertyType`, its underlying values, and the
  `PropertyAttribute` record with its constructor and its two setters.
- `Coercion` (`coercion.dfy`): the typed `Value` a property holds, and the per-type `Parse`
  table of the `switch`.
- `ConfigurationValidator` (`validator.dfy`). The pure side:
  - `IsValuePresent` and `Of`;
  - pass 1 as the function `RegistryFrom`;
  - the pass-2 decision for one property as `Decide`;
  - the whole call as `Validation`.

  The imperative side:
  - a `Config` class, whose `values` field is the instance's properties in enumeration order;
  - `CollectPresence`, the pass-1 loop;
  - `ApplyDefaults`, the pass-2 loop, which writes through `Config.SetValue`;
  - `Validate`.

  Each method is proved against the functions.
- `ValidatorProperties` (`properties.dfy`): the properties of the call, proved about `Validation`.
- `Scenarios` (`scenarios.dfy`): the repository's unit tests, and one two-call scenario, as lemmas.

Reflection is replaced by data. The runtime type is a sequence of `PropertyInfo` (a name and
an optional attribute) in enumeration order. The instance holds one `Option<Value>` per
property, with `None` standing for null.

## Model

| member | source | states |
|---|---|---|
| Annotation.Ordinal | System.Configuration.Extensions/System/Configuration/Annotation/PropertyAttribute.cs:36-82 | the eleven named tags have underlying values 0 to 10 |
| Annotation.FromOrdinal | System.Configuration.Extensions/System/Configuration/Annotation/PropertyAttribute.cs:36-82 | an underlying value names a tag exactly when it lies in 0..10, and then it names the tag with that value; `(PropertyType)11` names none |
| Annotation.OrdinalRoundTrip | System.Configuration.Extensions/System/Configuration/Annotation/PropertyAttribute.cs:36-82 | every named tag is recovered from its underlying value |
| Annotation.NewPropertyAttribute | System.Configuration.Extensions/System/Configuration/Annotation/PropertyAttribute.cs:9-19 | the constructor fixes `Type` and `Required`, with `Required` false unless passed; `Parent` and `DefaultValue` start out null |
| Annotation.WithParent | System.Configuration.Extensions/System/Configuration/Annotation/PropertyAttribute.cs:25 | setting `Parent` changes it and no other property |
| Annotation.WithDefaultValue | System.Configuration.Extensions/System/Configuration/Annotation/PropertyAttribute.cs:30 | setting `DefaultValue` changes it and no other property |
| Annotation.RequiredOnlyFromConstructor | System.Configuration.Extensions/System/Configuration/Annotation/PropertyAttribute.cs:9-30 | an attribute built without `required` is not required, however its setters are applied |
| Coercion.IntegerValue | System.Configuration.Extensions/System/Configuration/ConfigurationValidator.cs:72-94 | an in-range integer becomes a value of the requested integer type holding that integer |
| Coercion.ParseInteger | System.Configuration.Extensions/System/Configuration/ConfigurationValidator.cs:72-94 | `byte.Parse` … `ulong.Parse` succeed exactly when the text is an integer literal in the type's range, and then return that number at that type; an out-of-range literal is `Overflow` |
| Coercion.ParseBoolean | System.Configuration.Extensions/System/Configuration/ConfigurationValidator.cs:69-71 | `bool.Parse` accepts a text exactly when, trimmed of white space and null characters, it equals "True" or "False" ignoring case, and then returns that truth value; anything else is `Malformed` |
| Coercion.Coerce | System.Configuration.Extensions/System/Configuration/ConfigurationValidator.cs:67-102 | the per-type parse table: a parsed default always has the declared type; STRING is the raw text verbatim and never fails; BOOL uses `bool.Parse`, DOUBLE the given double parser, and the eight integer types their own `Parse` |
| Coercion.ParseFormatInteger | System.Configuration.Extensions/System/Configuration/ConfigurationValidator.cs:72-94 | the integer grammar reads back every integer from its invariant-culture spelling |
| Coercion.CoerceIntegerRoundTrip | System.Configuration.Extensions/System/Configuration/ConfigurationValidator.cs:72-94 | for each integer type, the spelling of an in-range integer parses back to it |
| Coercion.CoerceIntegerOverflow | System.Configuration.Extensions/System/Configuration/ConfigurationValidator.cs:72-94 | an integer outside the type's range is rejected with `Overflow`, never wrapped |
| Coercion.CoerceBooleanRoundTrip | System.Configuration.Extensions/System/Configuration/ConfigurationValidator.cs:69-71 | `bool.Parse` accepts what `bool.ToString` produces and returns the same truth value |
| ConfigurationValidator.IsValuePresent | System.Configuration.Extensions/System/Configuration/ConfigurationValidator.cs:111-168 | presence is `HasValue` for bool and the numbers and non-null for string, so an empty string is present |
| ConfigurationValidator.Of | System.Configuration.Extensions/System/Configuration/ConfigurationValidator.cs:170-187 | the probe fails exactly on a tag that names no member, with that tag; otherwise it reports presence |
| ConfigurationValidator.RegistryFrom | System.Configuration.Extensions/System/Configuration/ConfigurationValidator.cs:25-31 | pass 1 can fail only with an unknown tag or a repeated name |
| ConfigurationValidator.RegistryFromOk | System.Configuration.Extensions/System/Configuration/ConfigurationValidator.cs:25-31 | a successful pass 1 has one entry per annotated property, which holds that property's presence on entry, and the annotated names are distinct |
| ConfigurationValidator.BuildRegistry | System.Configuration.Extensions/System/Configuration/ConfigurationValidator.cs:25-31 | pass 1 starts from the empty dictionary, and a successful one has an entry for every annotated property; its full meaning is `ValidatorProperties.RegistryBuilt` |
| ConfigurationValidator.Decide | System.Configuration.Extensions/System/Configuration/ConfigurationValidator.cs:36-102 | pass 2 for one property. A parent that is set but names no annotated property aborts with `ParentNotFound`, and nothing else does. A required property whose parent is not in that `ParentNotFound` case aborts with `MissingRequired` exactly when it is absent and it has no parent or its parent is present; otherwise it is skipped. A non-required property is skipped when the default rule does not apply (no `DefaultValue`, present, or parent absent). A default is assigned exactly when the default rule applies and the text parses; it aborts with `InvalidDefault`, carrying the parse failure and the raw text, exactly when it does not parse. No other error arises |
| ConfigurationValidator.ActionAt | System.Configuration.Extensions/System/Configuration/ConfigurationValidator.cs:34-35 | a property without `[Property]` is skipped; only an annotated property can abort, and never with a duplicate-name error of any name |
| ConfigurationValidator.Decisions | System.Configuration.Extensions/System/Configuration/ConfigurationValidator.cs:32-104 | one pass-2 decision per position, each the decision of `ActionAt` on the pass-1 registry |
| ConfigurationValidator.DefaultsFrom | System.Configuration.Extensions/System/Configuration/ConfigurationValidator.cs:32-104 | pass 2 from a position on: it ends without failure exactly when no later decision aborts, and it never changes an earlier position; its full meaning is `ValidatorProperties.DefaultsFromCharacterized` |
| ConfigurationValidator.HookResult | System.Configuration.Extensions/System/Configuration/ConfigurationValidator.cs:106-107 | the hook makes the call fail exactly when it is implemented and throws, and then with that very exception; otherwise the call passes |
| ConfigurationValidator.Validation | System.Configuration.Extensions/System/Configuration/ConfigurationValidator.cs:22-107 | the call on a non-null instance: the instance keeps its length, and a called hook decides the outcome |
| ConfigurationValidator.Config.constructor | System.Configuration.Extensions/System/Configuration/ConfigurationValidator.cs:18-23 | an instance of a runtime type with the given values and hook, before any call |
| ConfigurationValidator.Config.SetValue | System.Configuration.Extensions/System/Configuration/ConfigurationValidator.cs:70-100 | `PropertyInfo.SetValue` writes one property with a value of its declared type and leaves every other one as it was |
| ConfigurationValidator.Config.SelfValidate | System.Configuration.Extensions/System/Configuration/ConfigurationValidator.cs:106-107 | the hook runs once and returns or throws as the instance's own code does |
| ConfigurationValidator.CollectPresence | System.Configuration.Extensions/System/Configuration/ConfigurationValidator.cs:25-31 | the pass-1 loop computes the registry of `RegistryFrom`, or its error |
| ConfigurationValidator.ApplyDefaults | System.Configuration.Extensions/System/Configuration/ConfigurationValidator.cs:32-104 | the pass-2 loop leaves the instance and returns the error exactly as the decisions of `Decide`, carried out in order, prescribe |
| ConfigurationValidator.Validate | System.Configuration.Extensions/System/Configuration/ConfigurationValidator.cs:18-108 | a null instance fails with `NullInstance`; otherwise the outcome, the new values and the number of hook calls are those of `Validation` on the values on entry |
| ValidatorProperties.FirstAbort | System.Configuration.Extensions/System/Configuration/ConfigurationValidator.cs:32-104 | the first position at which pass 2 aborts, or the end: no decision before it aborts, and the one at it does |
| ValidatorProperties.DefaultsFromCharacterized | System.Configuration.Extensions/System/Configuration/ConfigurationValidator.cs:32-104 | pass 2 fails with the first abort's error; every default decided before that abort is written; every later property is unchanged |
| ValidatorProperties.ValidationCharacterized | System.Configuration.Extensions/System/Configuration/ConfigurationValidator.cs:25-107 | the whole call in closed form: the outcome is the first abort's error, or else the hook's result; the hook runs exactly when nothing aborts; the values are the defaults decided before the first abort |
| ValidatorProperties.NothingWrittenBeforeAbort | System.Configuration.Extensions/System/Configuration/ConfigurationValidator.cs:32-104 | when no default is decided before the first abort, the call leaves every property as it was |
| ValidatorProperties.RegistryFromSucceedsIff | System.Configuration.Extensions/System/Configuration/ConfigurationValidator.cs:25-31 | pass 1 succeeds exactly when every annotated tag is known and no annotated name repeats; a duplicate error implies a repeated name |
| ValidatorProperties.RegistryBuilt | System.Configuration.Extensions/System/Configuration/ConfigurationValidator.cs:25-31 | the same, from the empty dictionary; the registry's keys are the annotated names, each mapped to presence on entry |
| ValidatorProperties.UnknownTypeWritesNothing | System.Configuration.Extensions/System/Configuration/ConfigurationValidator.cs:26-31 | an unknown tag fails the call with nothing written and no hook call; with distinct names the error is some unknown tag, and when every earlier annotated tag is known it is this property's tag |
| ValidatorProperties.FirstUnknownTag | System.Configuration.Extensions/System/Configuration/ConfigurationValidator.cs:26-31 | when no annotated name repeats and every annotated tag before position j is known, pass 1 fails with the unknown tag at j: the first one in enumeration order |
| ValidatorProperties.BlankParentIsNoParent | System.Configuration.Extensions/System/Configuration/ConfigurationValidator.cs:38-43 | a null, empty or white-space `Parent` decides exactly as no parent |
| ValidatorProperties.ParentNotFoundFails | System.Configuration.Extensions/System/Configuration/ConfigurationValidator.cs:39-43 | a `Parent` naming no annotated property fails the call whatever the property's own flag or value; the hook is not called; neither that property nor any later one is written |
| ValidatorProperties.RequiredNeverDefaulted | System.Configuration.Extensions/System/Configuration/ConfigurationValidator.cs:44-57 | a required property is never written, whatever its `DefaultValue` |
| ValidatorProperties.PresentNeverOverwritten | System.Configuration.Extensions/System/Configuration/ConfigurationValidator.cs:60-61 | a property holding a value on entry holds the same value afterwards |
| ValidatorProperties.UnannotatedUntouched | System.Configuration.Extensions/System/Configuration/ConfigurationValidator.cs:28-35 | a property without `[Property]` is never written |
| ValidatorProperties.FullyPopulatedUnchanged | System.Configuration.Extensions/System/Configuration/ConfigurationValidator.cs:58-66 | an instance whose annotated properties all hold values is left unchanged, on a first and on a second call |
| ValidatorProperties.RegistryIgnoresUnannotated | System.Configuration.Extensions/System/Configuration/ConfigurationValidator.cs:26-31 | pass 1 gives the same result on instances that agree on the annotated properties |
| ValidatorProperties.UnannotatedNeverRead | System.Configuration.Extensions/System/Configuration/ConfigurationValidator.cs:26-35 | for the same hook behaviour, instances that differ only in unannotated properties get the same outcome, the same hook call and the same annotated values |
| ValidatorProperties.DefaultsFromSnapshot | System.Configuration.Extensions/System/Configuration/ConfigurationValidator.cs:37-66 | when pass 2 completes, a property ends up holding its parsed default exactly when the default rule holds on the pass-1 snapshot, and otherwise keeps its value; defaults written earlier in pass 2 are never consulted |
| ValidatorProperties.FailFastNonTransactional | System.Configuration.Extensions/System/Configuration/ConfigurationValidator.cs:32-107 | the first aborting property's error is the outcome and the hook is not called; defaults decided before it stay written; that property and every later one keep their values, so a default that fails to parse is never written |
| ValidatorProperties.HookOnlyAfterPass2 | System.Configuration.Extensions/System/Configuration/ConfigurationValidator.cs:106-107 | the hook runs exactly when it is implemented and both passes complete; its exception becomes the outcome unchanged, and a hook that returns makes the call pass |
| Scenarios.DefaultedAbsent | System.Configuration.Extensions/System/Configuration/ConfigurationValidator.cs:58-102 | an absent, defaulted property without parent gets its parsed default, or `InvalidDefault` when the text does not parse |
| Scenarios.AllDefaultsApplied | System.Configuration.Extensions/System/Configuration/ConfigurationValidator.cs:58-102 | an instance of optional, defaulted, parentless properties that are all null gets every default and ends with the hook's result |
| Scenarios.FollowsParent | System.Configuration.Extensions/System/Configuration/ConfigurationValidator.cs:44-66 | a null property whose parent is set (neither null nor white space) and resolved follows it: when required, it is missing exactly when the parent is present; when optional, it is skipped when the parent is absent and, when the parent is present, gets its default if it has one that parses |
| Scenarios.DefaultValidateTest | System.Configuration.ExtensionsTests/System/Configuration/ConfigurationValidatorTests.cs:34-104 | a fresh ChildConfig (whose properties are ParentConfig's) passes, and each of its eleven properties holds the expected default (true, 0, -1, -1, 1, -1, 1, -1, 1, 0.0, "Hello, World!") |
| Scenarios.UnknownTypeValidateTest | System.Configuration.ExtensionsTests/System/Configuration/ConfigurationValidatorTests.cs:18-31 | `[Property((PropertyType)11)]` fails with that tag; the property stays null and the hook is not called |
| Scenarios.ParentPropertyNotFoundTest | System.Configuration.ExtensionsTests/System/Configuration/ConfigurationValidatorTests.cs:113-137 | `Parent = "Value"`, with no such property, fails with `ParentNotFound("Value")` |
| Scenarios.ParentPropertyTest | System.Configuration.ExtensionsTests/System/Configuration/ConfigurationValidatorTests.cs:121-164 | with BoolValue and BoolValue4 set, the call fails on the required IntValue, and IntValue4 has already received its default 1; no other property is written and the hook is not called |
| Scenarios.RequiredPropertyTest | System.Configuration.ExtensionsTests/System/Configuration/ConfigurationValidatorTests.cs:166-198 | the call fails on StringValue, which is required and null although it has a default; nothing is written and the hook is not called |
| Scenarios.ValidatableConfigValidateTest | System.Configuration.ExtensionsTests/System/Configuration/ConfigurationValidatorTests.cs:200-216 | a hook that throws is called once, and its exception is the outcome |
| Scenarios.SnapshotFirstRun | System.Configuration.Extensions/System/Configuration/ConfigurationValidator.cs:25-66 | a required IntValue whose parent BoolValue is null is waived, although pass 2 has just defaulted BoolValue to true: the call passes |
| Scenarios.SnapshotSecondRun | System.Configuration.Extensions/System/Configuration/ConfigurationValidator.cs:44-57 | once BoolValue holds true, the same required IntValue fails |
| Scenarios.SnapshotScenario | System.Configuration.Extensions/System/Configuration/ConfigurationValidator.cs:25-66 | because pass 2 reads the pass-1 snapshot, validating the result of a successful call again can fail: the call is not idempotent |

A null instance (NullValidateTest, ConfigurationValidatorTests.cs:9-15) is covered by the
first `ensures` of `ConfigurationValidator.Validate`. No property is read before that check.

## Left out

- Reflection (`GetProperties`, `GetCustomAttribute`, `GetValue`, `SetValue`). The runtime type
  is a given sequence of (name, attribute) in enumeration order. The order of inherited
  properties (ChildConfig) is therefore an input and is not derived.
- Accessors: every annotated property is assumed to have a public getter and a setter, neither
  of which throws. A get-only property whose default applies makes `SetValue`
  (ConfigurationValidator.cs:70-100) throw `ArgumentException` in pass 2, after earlier defaults
  were written; a throwing accessor surfaces as `TargetInvocationException`, from `GetValue` in
  pass 1 or from `SetValue` in pass 2. Neither is modelled: the model writes every applicable default.
- ConfigurationValidator.Config.constructor: it requires each stored non-null value to match
  its property's declared tag (`WellTyped`); the CLR types of properties are not part of the
  model. In .NET, a mismatch behaves in three ways, and none of them is modelled:
  - a non-null value of another CLR type makes the unboxing cast in `IProperty.Of` throw
    (ConfigurationValidator.cs:174-183);
  - under STRING, `as string` (line 184) reads a non-string value as absent, and never throws;
  - a null property of another CLR type reads as absent; if a default then applies,
    `SetValue` (lines 70-100) throws `ArgumentException` in pass 2, possibly after earlier
    defaults were written. The model writes the default instead.
- Duplicate names are kept in the model: they are the `ArgumentException` of `d.Add`
  (`DuplicateProperty`), not a precondition.
- `double.Parse` is floating point. It is a parameter `parseDouble: string -> Option<Double>`,
  and Double values are opaque 64-bit patterns. DefaultValidateTest assumes it reads "0.0" as 0.
- The integer `Parse` grammar is the one of `NumberStyles.Integer` under the invariant culture:
  white space U+0009..U+000D and U+0020, an optional sign, ASCII digits. Coercion.ParseInteger
  is weaker than .NET on two points, both accepted by .NET and not by the model:
  current-culture signs, and a trailing run of `'\0'` characters.
- Coercion.ParseBoolean compares ignoring case for ASCII letters only. Non-ASCII case folding is
  not modelled, but "True" and "False" are ASCII, so this is exact for every input whose
  trimmed form is ASCII.
- Exception types and messages become the constructors of `Error`. Message text is not kept.
- The hook runs user code. Its effect is given as a `SelfValidation` value: not implemented,
  returns, or throws a given exception. The hook cannot change the instance's properties.
- Concurrency: the call is sequential, and another thread changing the instance during the
  call is not modelled.
- `ParentNotFound` carries the parent's name, as the message at ConfigurationValidator.cs:42
  does, rather than the name of the property that declared it.
- `AttributeUsage(AllowMultiple = false)` (PropertyAttribute.cs:8) is built into the data: each
  `PropertyInfo` has at most one attribute.
- Value-type configurations. `Config` is a reference. For a struct `T`, `SetValue`
  (ConfigurationValidator.cs:70-100) writes into a boxed copy, so the caller sees no default,
  and the hook (line 106) runs on another box holding the original values. Only reference-type
  configurations are modelled.
