/**
 * ConfigurationValidator.Validate and the presence probe IProperty.
 *
 * The host's reflection is replaced by data: the instance's runtime type is a
 * sequence of PropertyInfo in enumeration order, and the instance holds one
 * slot per property. Pass 1 builds the registry from property name to
 * presence; pass 2 applies the required and default rules, reading presence
 * only from that registry and writing defaults into the instance; then the
 * optional self-validation hook runs.
 */
module ConfigurationValidator {
  import opened Wrappers
  import opened Text
  import opened Annotation
  import opened Coercion
  import opened Primitives

  /** One property of the runtime type with its PropertyAttribute, if it has one
      (AllowMultiple = false: at most one attribute per property). */
  datatype PropertyInfo = PropertyInfo(name: string, attribute: Option<PropertyAttribute>)

  /** The exceptions Validate can end with. */
  datatype Error =
    | NullInstance                                    // ArgumentNullException
    | UnknownType(tag: int32)                         // "unknown type", from IProperty.Of
    | DuplicateProperty(name: string)                 // ArgumentException from Dictionary.Add
    | ParentNotFound(parent: string)                  // "parent config property ... not found"
    | MissingRequired(name: string)                   // "config field ... must be provided"
    | InvalidDefault(failure: ParseFailure, raw: string)  // FormatException or OverflowException
    | HookError(exception: string)                    // whatever the hook throws, unchanged

  /** Validate returns normally (Pass) or throws (Fail). */
  datatype Outcome = Pass | Fail(error: Error)

  /** What a call of IValidatableConfiguration.Validate() does: return, or throw. */
  datatype HookOutcome = Returns | Throws(exception: string)

  /** Whether the instance implements IValidatableConfiguration, and what its Validate() does. */
  datatype SelfValidation = NotImplemented | Implemented(outcome: HookOutcome)

  /** The dictionary `d` of pass 1: property name to the presence its probe reports. */
  type Registry = map<string, bool>

  /** IsValuePresent of the eleven IProperty classes: `HasValue` for bool and the numbers,
      `is not null` for string (so the empty string is present). */
  function IsValuePresent(t: PropertyType, v: Option<Value>): (present: bool)
    ensures present <==> v.Some?
  {
    // The two arms are the two source definitions; on an `Option` slot, `HasValue` and
    // `is not null` both mean the slot is engaged, so they coincide.
    match t
    case STRING => v.Some?
    case _ => v.Some?
  }

  /** IProperty.Of: the probe for the attribute's type; a tag that names no PropertyType throws. */
  function Of(attr: PropertyAttribute, v: Option<Value>): (r: Result<bool, Error>)
    ensures r.Err? <==> attr.Type().None?
    ensures r.Err? ==> r.error == UnknownType(attr.typeTag)
    ensures r.Ok? ==> r.value == v.Some?
  {
    match attr.Type()
    case None => Err(UnknownType(attr.typeTag))
    case Some(t) => Ok(IsValuePresent(t, v))
  }

  /** The stored values agree with the declared types: the reflection casts cannot fail. */
  ghost predicate WellTyped(props: seq<PropertyInfo>, values: seq<Option<Value>>)
    requires |values| == |props|
  {
    forall i :: 0 <= i < |props| && props[i].attribute.Some? && props[i].attribute.value.Type().Some? && values[i].Some? ==>
      TypeOf(values[i].value) == props[i].attribute.value.Type().value
  }

  // ----- pass 1 -----------------------------------------------------------

  /** Pass 1 from property `i` on, with registry `d` built so far. */
  function RegistryFrom(props: seq<PropertyInfo>, values: seq<Option<Value>>, i: nat, d: Registry): (r: Result<Registry, Error>)
    requires |values| == |props| && i <= |props|
    ensures r.Err? ==> (r.error.UnknownType? && FromOrdinal(r.error.tag).None?) || r.error.DuplicateProperty?
    decreases |props| - i
  {
    if i == |props| then Ok(d)
    else
      match props[i].attribute
      case None => RegistryFrom(props, values, i + 1, d)
      case Some(attr) =>
        match Of(attr, values[i])
        case Err(e) => Err(e)
        case Ok(present) =>
          if props[i].name in d then Err(DuplicateProperty(props[i].name))
          else RegistryFrom(props, values, i + 1, d[props[i].name := present])
  }

  /** The registry pass 1 builds for an instance, starting from the empty dictionary. */
  function BuildRegistry(props: seq<PropertyInfo>, values: seq<Option<Value>>): (r: Result<Registry, Error>)
    requires |values| == |props|
    ensures r.Ok? ==> Covers(props, r.value)
  {
    var r := RegistryFrom(props, values, 0, map[]);
    if r.Ok? then
      RegistryFromOk(props, values, 0, map[], r.value);
      r
    else r
  }

  /** The names of the annotated properties from position `i` on. */
  function AnnotatedNamesFrom(props: seq<PropertyInfo>, i: nat): set<string> {
    set j | i <= j < |props| && props[j].attribute.Some? :: props[j].name
  }

  /** Every annotated property has an entry. */
  ghost predicate Covers(props: seq<PropertyInfo>, d: Registry) {
    forall j :: 0 <= j < |props| && props[j].attribute.Some? ==> props[j].name in d
  }

  /** What a successful pass 1 from `i` on produces: one entry per annotated property holding
      its presence, added to the entries of `d`; no known tag is missing and no name repeats. */
  lemma {:induction false} RegistryFromOk(props: seq<PropertyInfo>, values: seq<Option<Value>>, i: nat, d: Registry, r: Registry)
    requires |values| == |props| && i <= |props|
    requires RegistryFrom(props, values, i, d) == Ok(r)
    ensures r.Keys == d.Keys + AnnotatedNamesFrom(props, i)
    ensures forall k :: k in d ==> r[k] == d[k]
    ensures forall j :: i <= j < |props| && props[j].attribute.Some? ==>
      props[j].name !in d && r[props[j].name] == values[j].Some? && props[j].attribute.value.Type().Some?
    ensures forall j, j' :: i <= j < j' < |props| && props[j].attribute.Some? && props[j'].attribute.Some? ==>
      props[j].name != props[j'].name
    decreases |props| - i
  {
    if i < |props| {
      var rest := AnnotatedNamesFrom(props, i + 1);
      match props[i].attribute
      case None =>
        RegistryFromOk(props, values, i + 1, d, r);
        assert AnnotatedNamesFrom(props, i) == rest;
      case Some(attr) =>
        assert Of(attr, values[i]) == Ok(values[i].Some?) && props[i].name !in d;
        var d' := d[props[i].name := values[i].Some?];
        assert d'.Keys == d.Keys + {props[i].name};
        RegistryFromOk(props, values, i + 1, d', r);
        assert AnnotatedNamesFrom(props, i) == {props[i].name} + rest;
    }
  }

  // ----- pass 2 -----------------------------------------------------------

  /** The `Parent` is set and names no annotated property. */
  predicate ParentMissing(d: Registry, attr: PropertyAttribute) {
    !IsNullOrWhiteSpace(attr.parent) && attr.parent.value !in d
  }

  /** There is no parent, or the parent is present. */
  predicate ParentAllows(d: Registry, attr: PropertyAttribute) {
    IsNullOrWhiteSpace(attr.parent) || (attr.parent.value in d && d[attr.parent.value])
  }

  /** The conditions under which the default rule fills the field. */
  predicate DefaultApplies(d: Registry, name: string, attr: PropertyAttribute)
    requires name in d
  {
    !attr.required && attr.defaultValue.Some? && !d[name] && ParentAllows(d, attr)
  }

  /** The raw default parsed for the declared type. */
  function ParsedDefault(attr: PropertyAttribute, parseDouble: string -> Option<Double>): Result<Value, ParseFailure>
    requires attr.defaultValue.Some? && attr.Type().Some?
  {
    Coerce(attr.Type().value, attr.defaultValue.value, parseDouble)
  }

  /** What pass 2 does with one annotated property. */
  datatype Action = Skip | Assign(value: Value) | Abort(error: Error)

  /** The decision of pass 2 for the property `name` carrying `attr`, taken from the registry alone. */
  function Decide(d: Registry, name: string, attr: PropertyAttribute, parseDouble: string -> Option<Double>): (a: Action)
    requires name in d
    ensures ParentMissing(d, attr) ==> a == Abort(ParentNotFound(attr.parent.value))
    ensures a == Abort(MissingRequired(name)) <==> attr.required && !d[name] && ParentAllows(d, attr)
    ensures attr.required ==> a.Skip? || a == Abort(MissingRequired(name)) || ParentMissing(d, attr)
    ensures a.Assign? <==> DefaultApplies(d, name, attr) && attr.Type().Some? && ParsedDefault(attr, parseDouble).Ok?
    ensures a.Assign? ==> ParsedDefault(attr, parseDouble) == Ok(a.value)
    ensures a.Abort? && a.error.InvalidDefault? <==>
      DefaultApplies(d, name, attr) && attr.Type().Some? && ParsedDefault(attr, parseDouble).Err?
    ensures a.Abort? && a.error.ParentNotFound? ==> ParentMissing(d, attr)
    ensures !ParentMissing(d, attr) && !attr.required && !DefaultApplies(d, name, attr) ==> a == Skip
    ensures a.Abort? ==> a.error.ParentNotFound? || a.error.MissingRequired? || a.error.InvalidDefault?
    ensures a.Abort? && a.error.InvalidDefault? ==>
      a.error == InvalidDefault(ParsedDefault(attr, parseDouble).error, attr.defaultValue.value)
  {
    if ParentMissing(d, attr) then Abort(ParentNotFound(attr.parent.value))
    else
      var parent: Option<bool> := if IsNullOrWhiteSpace(attr.parent) then None else Some(d[attr.parent.value]);
      if attr.required then
        if !d[name] && (parent.None? || parent.value) then Abort(MissingRequired(name)) else Skip
      else if attr.defaultValue.None? || d[name] || (parent.Some? && !parent.value) then Skip
      else
        match attr.Type()
        case None => Skip  // no case of the switch matches; pass 1 has already rejected such a tag
        case Some(t) =>
          match Coerce(t, attr.defaultValue.value, parseDouble)
          case Err(f) => Abort(InvalidDefault(f, attr.defaultValue.value))
          case Ok(v) => Assign(v)
  }

  /** The decision for position `j`: unannotated properties are skipped. */
  function ActionAt(props: seq<PropertyInfo>, d: Registry, parseDouble: string -> Option<Double>, j: nat): (a: Action)
    requires j < |props| && Covers(props, d)
    ensures props[j].attribute.None? ==> a == Skip
    ensures a.Abort? ==> props[j].attribute.Some? && !a.error.DuplicateProperty?
  {
    match props[j].attribute
    case None => Skip
    case Some(attr) => Decide(d, props[j].name, attr, parseDouble)
  }

  /** The decisions of pass 2 for every position, all taken from the registry. */
  function Decisions(props: seq<PropertyInfo>, d: Registry, parseDouble: string -> Option<Double>): (acts: seq<Action>)
    requires Covers(props, d)
    ensures |acts| == |props|
    ensures forall j :: 0 <= j < |props| ==> acts[j] == ActionAt(props, d, parseDouble, j)
  {
    seq(|props|, j requires 0 <= j < |props| => ActionAt(props, d, parseDouble, j))
  }

  /** The instance after pass 2, and the error that stopped it, if any. */
  datatype Pass2State = Pass2State(values: seq<Option<Value>>, failure: Option<Error>)

  /** Pass 2 from position `i` on, carrying out the decisions `acts`: the first Abort stops it,
      leaving the values as they are. */
  function DefaultsFrom(acts: seq<Action>, i: nat, values: seq<Option<Value>>): (s: Pass2State)
    requires |values| == |acts| && i <= |acts|
    ensures |s.values| == |values|
    ensures s.failure.None? <==> forall j :: i <= j < |acts| ==> !acts[j].Abort?
    ensures forall j :: 0 <= j < i ==> s.values[j] == values[j]
    decreases |acts| - i
  {
    if i == |acts| then Pass2State(values, None)
    else
      match acts[i]
      case Abort(e) => Pass2State(values, Some(e))
      case Assign(v) => DefaultsFrom(acts, i + 1, values[i := Some(v)])
      case Skip => DefaultsFrom(acts, i + 1, values)
  }

  // ----- the whole call ---------------------------------------------------

  /** What the hook makes of a call that reached it. */
  function HookResult(sv: SelfValidation): (r: Outcome)
    ensures r.Fail? <==> sv.Implemented? && sv.outcome.Throws?
    ensures r.Fail? ==> r.error == HookError(sv.outcome.exception)
  {
    match sv
    case Implemented(Throws(x)) => Fail(HookError(x))
    case _ => Pass
  }

  /** The result of a call, the instance's values afterwards, and whether the hook ran. */
  datatype Run = Run(outcome: Outcome, values: seq<Option<Value>>, hookCalled: bool)

  /** Validate on a non-null instance, as a function of the instance's type and values. */
  function Validation(props: seq<PropertyInfo>, values: seq<Option<Value>>, sv: SelfValidation,
                      parseDouble: string -> Option<Double>): (run: Run)
    requires |values| == |props|
    ensures |run.values| == |props|
    ensures run.hookCalled ==> sv.Implemented? && run.outcome == HookResult(sv)
  {
    match BuildRegistry(props, values)
    case Err(e) => Run(Fail(e), values, false)
    case Ok(d) =>
      RegistryFromOk(props, values, 0, map[], d);
      var s := DefaultsFrom(Decisions(props, d, parseDouble), 0, values);
      if s.failure.Some? then Run(Fail(s.failure.value), s.values, false)
      else Run(HookResult(sv), s.values, sv.Implemented?)
  }

  /** A configuration instance: the properties of its runtime type, the value each one holds,
      and whether it implements IValidatableConfiguration. */
  class Config {
    const properties: seq<PropertyInfo>
    var values: seq<Option<Value>>
    const selfValidation: SelfValidation
    /** How many times the hook has been called on this instance. */
    ghost var hookCalls: nat

    ghost predicate Valid()
      reads this
    {
      |values| == |properties| && WellTyped(properties, values)
    }

    constructor (properties: seq<PropertyInfo>, values: seq<Option<Value>>, selfValidation: SelfValidation)
      requires |values| == |properties| && WellTyped(properties, values)
      ensures Valid()
      ensures this.properties == properties && this.values == values && this.selfValidation == selfValidation
      ensures hookCalls == 0
    {
      this.properties := properties;
      this.values := values;
      this.selfValidation := selfValidation;
      hookCalls := 0;
    }

    /** PropertyInfo.SetValue on the property at position `i`, with a value of its declared type. */
    method SetValue(i: nat, v: Value)
      requires Valid() && i < |properties|
      requires properties[i].attribute.Some? && properties[i].attribute.value.Type() == Some(TypeOf(v))
      modifies this`values
      ensures Valid() && values == old(values)[i := Some(v)]
    {
      values := values[i := Some(v)];
    }

    /** IValidatableConfiguration.Validate(), whose behaviour is user code and is given. */
    method SelfValidate() returns (o: HookOutcome)
      requires selfValidation.Implemented?
      modifies this`hookCalls
      ensures hookCalls == old(hookCalls) + 1 && o == selfValidation.outcome
    {
      hookCalls := hookCalls + 1;
      o := selfValidation.outcome;
    }
  }

  /** Pass 1 of Validate: one presence snapshot per annotated property, failing on the first
      unknown type tag or repeated name. Nothing is changed. */
  method CollectPresence(config: Config) returns (r: Result<Registry, Error>)
    requires config.Valid()
    ensures r == BuildRegistry(config.properties, config.values)
  {
    var props := config.properties;
    var d: Registry := map[];
    for i := 0 to |props|
      invariant RegistryFrom(props, config.values, i, d) == BuildRegistry(props, config.values)
    {
      var info := props[i];
      if info.attribute.Some? {
        var probe := Of(info.attribute.value, config.values[i]);
        if probe.Err? {
          return Err(probe.error);
        }
        if info.name in d {
          return Err(DuplicateProperty(info.name));
        }
        d := d[info.name := probe.value];
      }
    }
    return Ok(d);
  }

  /** Pass 2 of Validate: the required and default rules, reading presence from the registry
      `d` only and writing each parsed default as soon as it is decided. */
  method ApplyDefaults(config: Config, d: Registry, parseDouble: string -> Option<Double>) returns (failure: Option<Error>)
    requires config.Valid() && Covers(config.properties, d)
    modifies config`values
    ensures config.Valid()
    ensures var s := DefaultsFrom(Decisions(config.properties, d, parseDouble), 0, old(config.values));
            config.values == s.values && failure == s.failure
  {
    var props := config.properties;
    ghost var acts := Decisions(props, d, parseDouble);
    ghost var initial := config.values;
    for i := 0 to |props|
      invariant config.Valid()
      invariant DefaultsFrom(acts, i, config.values) == DefaultsFrom(acts, 0, initial)
    {
      var info := props[i];
      if info.attribute.None? {
        continue;
      }
      var attr := info.attribute.value;
      assert acts[i] == Decide(d, info.name, attr, parseDouble);
      var present := d[info.name];
      var parent: Option<bool> := None;
      if !IsNullOrWhiteSpace(attr.parent) {
        if attr.parent.value !in d {
          return Some(ParentNotFound(attr.parent.value));
        }
        parent := Some(d[attr.parent.value]);
      }
      if attr.required {
        if !present {
          if parent.None? {
            return Some(MissingRequired(info.name));
          } else if parent.value {
            return Some(MissingRequired(info.name));
          }
        }
        continue;
      }
      if attr.defaultValue.None? {
        continue;
      }
      if present {
        continue;
      }
      if parent.Some? && !parent.value {
        continue;
      }
      match attr.Type()
      case None =>
      case Some(t) =>
        var parsed := Coerce(t, attr.defaultValue.value, parseDouble);
        if parsed.Err? {
          return Some(InvalidDefault(parsed.error, attr.defaultValue.value));
        }
        config.SetValue(i, parsed.value);
    }
    return None;
  }

  /**
   * ConfigurationValidator.Validate. A null instance is rejected before anything is read;
   * otherwise the outcome, the instance's new values and the hook calls are those of
   * `Validation` on the instance's values on entry.
   */
  method Validate(config: Config?, parseDouble: string -> Option<Double>) returns (r: Outcome)
    requires config != null ==> config.Valid()
    modifies config
    ensures config == null ==> r == Fail(NullInstance)
    ensures config != null ==> config.Valid()
    ensures config != null ==>
      var run := Validation(config.properties, old(config.values), config.selfValidation, parseDouble);
      r == run.outcome && config.values == run.values &&
      config.hookCalls == old(config.hookCalls) + (if run.hookCalled then 1 else 0)
  {
    if config == null {
      return Fail(NullInstance);
    }
    var registry := CollectPresence(config);
    if registry.Err? {
      return Fail(registry.error);
    }
    var d := registry.value;
    RegistryFromOk(config.properties, config.values, 0, map[], d);
    var failure := ApplyDefaults(config, d, parseDouble);
    if failure.Some? {
      return Fail(failure.value);
    }

    // The self-validation hook, after pass 2 has completed.
    match config.selfValidation
    case NotImplemented =>
      r := Pass;
    case Implemented(_) =>
      var o := config.SelfValidate();
      r := if o.Throws? then Fail(HookError(o.exception)) else Pass;
  }
}
