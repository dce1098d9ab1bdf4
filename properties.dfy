/** What Validate promises, proved about its specification `Validation`. */
module ValidatorProperties {
  import opened Wrappers
  import opened Text
  import opened Annotation
  import opened Coercion
  import opened Primitives
  import opened ConfigurationValidator

  /** The value a slot holds after a decision: the default when one is assigned, else what it held. */
  function Applied(a: Action, current: Option<Value>): Option<Value> {
    if a.Assign? then Some(a.value) else current
  }

  /** The position of the first decision from `i` on that aborts pass 2, or |acts| if none does. */
  function FirstAbort(acts: seq<Action>, i: nat): (k: nat)
    requires i <= |acts|
    ensures i <= k <= |acts|
    ensures forall j :: i <= j < k ==> !acts[j].Abort?
    ensures k < |acts| ==> acts[k].Abort?
    decreases |acts| - i
  {
    if i == |acts| || acts[i].Abort? then i
    else FirstAbort(acts, i + 1)
  }

  /** The first abort is the aborting decision that no earlier decision precedes. */
  lemma FirstAbortAt(acts: seq<Action>, k: nat)
    requires k < |acts| && acts[k].Abort? && forall j :: 0 <= j < k ==> !acts[j].Abort?
    ensures FirstAbort(acts, 0) == k
  {
  }

  /** Pass 2 from `i` on stops at the first aborting decision, with that decision's error; every
      decision before it has been applied, and nothing from it on has been touched. */
  lemma {:induction false} DefaultsFromCharacterized(acts: seq<Action>, i: nat, values: seq<Option<Value>>)
    requires |values| == |acts| && i <= |acts|
    ensures var k := FirstAbort(acts, i);
            var s := DefaultsFrom(acts, i, values);
            && s.failure == (if k < |acts| then Some(acts[k].error) else None)
            && forall j :: 0 <= j < |acts| ==>
                 s.values[j] == if i <= j < k then Applied(acts[j], values[j]) else values[j]
    decreases |acts| - i
  {
    if i < |acts| && !acts[i].Abort? {
      var next := if acts[i].Assign? then values[i := Some(acts[i].value)] else values;
      DefaultsFromCharacterized(acts, i + 1, next);
    }
  }

  /** A whole call on an instance whose registry is `d`: the first aborting field decides the
      outcome; otherwise the hook does. */
  lemma ValidationCharacterized(props: seq<PropertyInfo>, values: seq<Option<Value>>, sv: SelfValidation,
                                parseDouble: string -> Option<Double>, d: Registry)
    requires |values| == |props| && BuildRegistry(props, values) == Ok(d)
    ensures Covers(props, d)
    ensures forall j :: 0 <= j < |props| && props[j].attribute.Some? ==> d[props[j].name] == values[j].Some?
    ensures var k := FirstAbort(Decisions(props, d, parseDouble), 0);
            var run := Validation(props, values, sv, parseDouble);
            && run.outcome == (if k < |props| then Fail(ActionAt(props, d, parseDouble, k).error) else HookResult(sv))
            && run.hookCalled == (k == |props| && sv.Implemented?)
            && forall j :: 0 <= j < |props| ==>
                 run.values[j] == if j < k then Applied(ActionAt(props, d, parseDouble, j), values[j]) else values[j]
  {
    RegistryFromOk(props, values, 0, map[], d);
    DefaultsFromCharacterized(Decisions(props, d, parseDouble), 0, values);
  }

  /** When no default is assigned before the first abort, the run leaves every field as it was. */
  lemma NothingWrittenBeforeAbort(props: seq<PropertyInfo>, values: seq<Option<Value>>, sv: SelfValidation,
                                  parseDouble: string -> Option<Double>, d: Registry)
    requires |values| == |props| && BuildRegistry(props, values) == Ok(d)
    requires Covers(props, d)
    requires var acts := Decisions(props, d, parseDouble);
             forall j :: 0 <= j < FirstAbort(acts, 0) ==> !acts[j].Assign?
    ensures Validation(props, values, sv, parseDouble).values == values
  {
    ValidationCharacterized(props, values, sv, parseDouble, d);
    var run := Validation(props, values, sv, parseDouble);
    assert forall j :: 0 <= j < |props| ==> run.values[j] == values[j];
  }

  // ----- pass 1 -----------------------------------------------------------

  /** Every annotated property from `i` on has a known type. */
  ghost predicate TagsKnownFrom(props: seq<PropertyInfo>, i: nat) {
    forall j :: i <= j < |props| && props[j].attribute.Some? ==> props[j].attribute.value.Type().Some?
  }

  /** No two annotated properties from `i` on share a name, and none is already in `d`. */
  ghost predicate FreshNamesFrom(props: seq<PropertyInfo>, i: nat, d: Registry) {
    && (forall j :: i <= j < |props| && props[j].attribute.Some? ==> props[j].name !in d)
    && (forall j, j' :: i <= j < j' < |props| && props[j].attribute.Some? && props[j'].attribute.Some? ==>
          props[j].name != props[j'].name)
  }

  /** Pass 1 from `i` on succeeds exactly when every tag is known and no name repeats; when it
      fails on a duplicate, some name does repeat. */
  lemma {:induction false} RegistryFromSucceedsIff(props: seq<PropertyInfo>, values: seq<Option<Value>>, i: nat, d: Registry)
    requires |values| == |props| && i <= |props|
    ensures RegistryFrom(props, values, i, d).Ok? <==> TagsKnownFrom(props, i) && FreshNamesFrom(props, i, d)
    ensures RegistryFrom(props, values, i, d).Err? && RegistryFrom(props, values, i, d).error.DuplicateProperty? ==>
      !FreshNamesFrom(props, i, d)
    decreases |props| - i
  {
    if i < |props| {
      match props[i].attribute
      case None =>
        RegistryFromSucceedsIff(props, values, i + 1, d);
      case Some(attr) =>
        if attr.Type().Some? && props[i].name !in d {
          var d' := d[props[i].name := values[i].Some?];
          RegistryFromSucceedsIff(props, values, i + 1, d');
          if FreshNamesFrom(props, i, d) {
            assert FreshNamesFrom(props, i + 1, d');
          }
          if FreshNamesFrom(props, i + 1, d') {
            assert FreshNamesFrom(props, i, d);
          }
        }
    }
  }

  /** Pass 1 succeeds exactly when every annotated property has one of the eleven types and
      no two annotated properties share a name; its registry then has one entry per annotated
      property, holding that property's presence on entry. */
  lemma RegistryBuilt(props: seq<PropertyInfo>, values: seq<Option<Value>>)
    requires |values| == |props|
    ensures BuildRegistry(props, values).Ok? <==> TagsKnownFrom(props, 0) && FreshNamesFrom(props, 0, map[])
    ensures BuildRegistry(props, values).Ok? ==>
      var d := BuildRegistry(props, values).value;
      && d.Keys == AnnotatedNamesFrom(props, 0)
      && forall j :: 0 <= j < |props| && props[j].attribute.Some? ==> d[props[j].name] == values[j].Some?
  {
    RegistryFromSucceedsIff(props, values, 0, map[]);
    if BuildRegistry(props, values).Ok? {
      RegistryFromOk(props, values, 0, map[], BuildRegistry(props, values).value);
    }
  }

  /** Pass 1 reports the first unknown tag: when every annotated tag before position `j` is known
      and no name repeats, pass 1 fails with the tag at `j`. */
  lemma {:induction false} FirstUnknownTag(props: seq<PropertyInfo>, values: seq<Option<Value>>, i: nat, d: Registry, j: nat)
    requires |values| == |props| && i <= j < |props|
    requires props[j].attribute.Some? && props[j].attribute.value.Type().None?
    requires forall k :: i <= k < j && props[k].attribute.Some? ==> props[k].attribute.value.Type().Some?
    requires FreshNamesFrom(props, i, d)
    ensures RegistryFrom(props, values, i, d) == Err(UnknownType(props[j].attribute.value.typeTag))
    decreases j - i
  {
    if i < j {
      if props[i].attribute.Some? {
        var d' := d[props[i].name := values[i].Some?];
        FirstUnknownTag(props, values, i + 1, d', j);
      } else {
        FirstUnknownTag(props, values, i + 1, d, j);
      }
    }
  }

  /** A tag outside the eleven fails the call during pass 1: nothing is written and the hook is not
      called; when the names are distinct, the error is UnknownType of an unnamed tag. */
  lemma UnknownTypeWritesNothing(props: seq<PropertyInfo>, values: seq<Option<Value>>, sv: SelfValidation,
                                 parseDouble: string -> Option<Double>, j: nat)
    requires |values| == |props| && j < |props|
    requires props[j].attribute.Some? && props[j].attribute.value.Type().None?
    ensures var run := Validation(props, values, sv, parseDouble);
            && run.outcome.Fail? && run.values == values && !run.hookCalled
            && (FreshNamesFrom(props, 0, map[]) ==>
                  run.outcome.error.UnknownType? && FromOrdinal(run.outcome.error.tag).None?)
            && (FreshNamesFrom(props, 0, map[]) &&
                (forall k :: 0 <= k < j && props[k].attribute.Some? ==> props[k].attribute.value.Type().Some?) ==>
                  run.outcome == Fail(UnknownType(props[j].attribute.value.typeTag)))
  {
    RegistryFromSucceedsIff(props, values, 0, map[]);
    if FreshNamesFrom(props, 0, map[]) &&
       forall k :: 0 <= k < j && props[k].attribute.Some? ==> props[k].attribute.value.Type().Some? {
      FirstUnknownTag(props, values, 0, map[], j);
    }
  }

  // ----- pass 2, field by field ---------------------------------------------

  /** A blank parent (null, empty or white space) is the same as no parent. */
  lemma BlankParentIsNoParent(d: Registry, name: string, attr: PropertyAttribute, parseDouble: string -> Option<Double>)
    requires name in d && IsNullOrWhiteSpace(attr.parent)
    ensures Decide(d, name, attr, parseDouble) == Decide(d, name, WithParent(attr, None), parseDouble)
  {
  }

  /** A parent that names no annotated property fails the call, whatever the field's own
      required flag or value; the hook is not called, and neither that field nor any later one
      is written. */
  lemma ParentNotFoundFails(props: seq<PropertyInfo>, values: seq<Option<Value>>, sv: SelfValidation,
                            parseDouble: string -> Option<Double>, j: nat)
    requires |values| == |props| && j < |props|
    requires props[j].attribute.Some?
    requires var attr := props[j].attribute.value;
      !IsNullOrWhiteSpace(attr.parent) && attr.parent.value !in AnnotatedNamesFrom(props, 0)
    ensures var run := Validation(props, values, sv, parseDouble);
            && run.outcome.Fail? && !run.hookCalled
            && forall j' :: j <= j' < |props| ==> run.values[j'] == values[j']
  {
    if BuildRegistry(props, values).Ok? {
      var d := BuildRegistry(props, values).value;
      RegistryBuilt(props, values);
      ValidationCharacterized(props, values, sv, parseDouble, d);
      assert ActionAt(props, d, parseDouble, j).Abort?;
    }
  }

  /** A required field never receives a default, whatever its DefaultValue. */
  lemma RequiredNeverDefaulted(props: seq<PropertyInfo>, values: seq<Option<Value>>, sv: SelfValidation,
                               parseDouble: string -> Option<Double>, j: nat)
    requires |values| == |props| && j < |props|
    requires props[j].attribute.Some? && props[j].attribute.value.required
    ensures Validation(props, values, sv, parseDouble).values[j] == values[j]
  {
    if BuildRegistry(props, values).Ok? {
      ValidationCharacterized(props, values, sv, parseDouble, BuildRegistry(props, values).value);
    }
  }

  /** A field that holds a value on entry is never overwritten. */
  lemma PresentNeverOverwritten(props: seq<PropertyInfo>, values: seq<Option<Value>>, sv: SelfValidation,
                                parseDouble: string -> Option<Double>, j: nat)
    requires |values| == |props| && j < |props| && values[j].Some?
    ensures Validation(props, values, sv, parseDouble).values[j] == values[j]
  {
    if BuildRegistry(props, values).Ok? {
      ValidationCharacterized(props, values, sv, parseDouble, BuildRegistry(props, values).value);
    }
  }

  /** A property without a PropertyAttribute is never written. */
  lemma UnannotatedUntouched(props: seq<PropertyInfo>, values: seq<Option<Value>>, sv: SelfValidation,
                             parseDouble: string -> Option<Double>, j: nat)
    requires |values| == |props| && j < |props| && props[j].attribute.None?
    ensures Validation(props, values, sv, parseDouble).values[j] == values[j]
  {
    if BuildRegistry(props, values).Ok? {
      ValidationCharacterized(props, values, sv, parseDouble, BuildRegistry(props, values).value);
    }
  }

  /** An instance whose annotated properties all hold values leaves the call unchanged, so
      validating it a second time yields the same values again. */
  lemma FullyPopulatedUnchanged(props: seq<PropertyInfo>, values: seq<Option<Value>>, sv: SelfValidation,
                                parseDouble: string -> Option<Double>)
    requires |values| == |props|
    requires forall j :: 0 <= j < |props| && props[j].attribute.Some? ==> values[j].Some?
    ensures var run := Validation(props, values, sv, parseDouble);
            run.values == values && Validation(props, run.values, sv, parseDouble).values == values
  {
    var run := Validation(props, values, sv, parseDouble);
    forall j | 0 <= j < |props| ensures run.values[j] == values[j] {
      if props[j].attribute.Some? {
        PresentNeverOverwritten(props, values, sv, parseDouble, j);
      } else {
        UnannotatedUntouched(props, values, sv, parseDouble, j);
      }
    }
  }

  /** The call reads no unannotated property: instances that differ only there get the same
      outcome, the same hook call and the same annotated values. */
  lemma {:induction false} RegistryIgnoresUnannotated(props: seq<PropertyInfo>, v1: seq<Option<Value>>, v2: seq<Option<Value>>,
                                                      i: nat, d: Registry)
    requires |v1| == |props| && |v2| == |props| && i <= |props|
    requires forall j :: 0 <= j < |props| && props[j].attribute.Some? ==> v1[j] == v2[j]
    ensures RegistryFrom(props, v1, i, d) == RegistryFrom(props, v2, i, d)
    decreases |props| - i
  {
    if i < |props| {
      if props[i].attribute.None? {
        RegistryIgnoresUnannotated(props, v1, v2, i + 1, d);
      } else {
        RegistryIgnoresUnannotated(props, v1, v2, i + 1, d[props[i].name := v1[i].Some?]);
      }
    }
  }

  lemma UnannotatedNeverRead(props: seq<PropertyInfo>, v1: seq<Option<Value>>, v2: seq<Option<Value>>,
                             sv: SelfValidation, parseDouble: string -> Option<Double>)
    requires |v1| == |props| && |v2| == |props|
    requires forall j :: 0 <= j < |props| && props[j].attribute.Some? ==> v1[j] == v2[j]
    ensures var r1 := Validation(props, v1, sv, parseDouble);
            var r2 := Validation(props, v2, sv, parseDouble);
            && r1.outcome == r2.outcome && r1.hookCalled == r2.hookCalled
            && forall j :: 0 <= j < |props| && props[j].attribute.Some? ==> r1.values[j] == r2.values[j]
  {
    RegistryIgnoresUnannotated(props, v1, v2, 0, map[]);
    if BuildRegistry(props, v1).Ok? {
      var d := BuildRegistry(props, v1).value;
      ValidationCharacterized(props, v1, sv, parseDouble, d);
      ValidationCharacterized(props, v2, sv, parseDouble, d);
    }
  }

  /** When pass 2 completes, each annotated field ends up holding its parsed default exactly when
      the default rule applies on the pass-1 snapshot — it is not required, has a DefaultValue,
      was absent on entry, and has no parent or a parent present on entry — and otherwise keeps
      its value. Presence written earlier in pass 2 is never consulted. */
  lemma DefaultsFromSnapshot(props: seq<PropertyInfo>, values: seq<Option<Value>>, sv: SelfValidation,
                             parseDouble: string -> Option<Double>, d: Registry, j: nat)
    requires |values| == |props| && BuildRegistry(props, values) == Ok(d) && j < |props|
    requires Covers(props, d) && FirstAbort(Decisions(props, d, parseDouble), 0) == |props|
    requires props[j].attribute.Some?
    ensures var attr := props[j].attribute.value;
            var run := Validation(props, values, sv, parseDouble);
            && d[props[j].name] == values[j].Some?
            && (DefaultApplies(d, props[j].name, attr) ==>
                  attr.Type().Some? && ParsedDefault(attr, parseDouble).Ok? &&
                  run.values[j] == Some(ParsedDefault(attr, parseDouble).value))
            && (!DefaultApplies(d, props[j].name, attr) ==> run.values[j] == values[j])
  {
    ValidationCharacterized(props, values, sv, parseDouble, d);
    RegistryBuilt(props, values);
  }

  /** Fail-fast and non-transactional: the first failing field's error is the outcome, the
      hook is not called, the defaults written before it stay in place, and that field and
      all later ones keep their values (a default that fails to parse is never written). */
  lemma FailFastNonTransactional(props: seq<PropertyInfo>, values: seq<Option<Value>>, sv: SelfValidation,
                                 parseDouble: string -> Option<Double>, d: Registry, k: nat)
    requires |values| == |props| && BuildRegistry(props, values) == Ok(d) && k < |props|
    requires Covers(props, d)
    requires ActionAt(props, d, parseDouble, k).Abort?
    requires forall j :: 0 <= j < k ==> !ActionAt(props, d, parseDouble, j).Abort?
    ensures var run := Validation(props, values, sv, parseDouble);
            && run.outcome == Fail(ActionAt(props, d, parseDouble, k).error)
            && !run.hookCalled
            && (forall j :: 0 <= j < k ==> run.values[j] == Applied(ActionAt(props, d, parseDouble, j), values[j]))
            && (forall j :: k <= j < |props| ==> run.values[j] == values[j])
  {
    FirstAbortAt(Decisions(props, d, parseDouble), k);
    ValidationCharacterized(props, values, sv, parseDouble, d);
  }

  /** The hook is called exactly when it is implemented and both passes complete; its exception
      is the outcome, unchanged. */
  lemma HookOnlyAfterPass2(props: seq<PropertyInfo>, values: seq<Option<Value>>, sv: SelfValidation,
                           parseDouble: string -> Option<Double>)
    requires |values| == |props|
    ensures var run := Validation(props, values, sv, parseDouble);
            && (run.hookCalled <==>
                  sv.Implemented? && BuildRegistry(props, values).Ok? &&
                  Covers(props, BuildRegistry(props, values).value) &&
                  forall j :: 0 <= j < |props| ==> !ActionAt(props, BuildRegistry(props, values).value, parseDouble, j).Abort?)
            && (run.hookCalled && sv.outcome.Throws? ==> run.outcome == Fail(HookError(sv.outcome.exception)))
            && (run.hookCalled && sv.outcome.Returns? ==> run.outcome == Pass)
  {
    RegistryBuilt(props, values);
    if BuildRegistry(props, values).Ok? {
      var d := BuildRegistry(props, values).value;
      ValidationCharacterized(props, values, sv, parseDouble, d);
    }
  }
}
