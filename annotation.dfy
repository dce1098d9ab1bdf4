/**
 * The descriptor attached to a validated property: PropertyAttribute and the
 * PropertyType enumeration it carries.
 */
module Annotation {
  import opened Wrappers
  import opened Primitives

  /** The eleven named members of the PropertyType enumeration, in declaration order. */
  datatype PropertyType = BOOL | BYTE | SBYTE | SHORT | USHORT | INT | UINT | LONG | ULONG | DOUBLE | STRING

  /** The underlying integer of each named member: BOOL is 0, and so on up to STRING, which is 10. */
  function Ordinal(t: PropertyType): (n: int32)
    ensures 0 <= n <= 10
  {
    match t
    case BOOL => 0
    case BYTE => 1
    case SBYTE => 2
    case SHORT => 3
    case USHORT => 4
    case INT => 5
    case UINT => 6
    case LONG => 7
    case ULONG => 8
    case DOUBLE => 9
    case STRING => 10
  }

  /** The named member an underlying value stands for, if any. A C# enum may hold any int,
      so a cast such as `(PropertyType)11` yields a value that names no member. */
  function FromOrdinal(n: int32): (t: Option<PropertyType>)
    ensures t.Some? <==> 0 <= n <= 10
    ensures t.Some? ==> Ordinal(t.value) == n
  {
    if n == 0 then Some(BOOL)
    else if n == 1 then Some(BYTE)
    else if n == 2 then Some(SBYTE)
    else if n == 3 then Some(SHORT)
    else if n == 4 then Some(USHORT)
    else if n == 5 then Some(INT)
    else if n == 6 then Some(UINT)
    else if n == 7 then Some(LONG)
    else if n == 8 then Some(ULONG)
    else if n == 9 then Some(DOUBLE)
    else if n == 10 then Some(STRING)
    else None
  }

  lemma OrdinalRoundTrip(t: PropertyType)
    ensures FromOrdinal(Ordinal(t)) == Some(t)
  {
  }

  /**
   * A PropertyAttribute. `typeTag` is the raw enum value of `Type`; `parent` and
   * `defaultValue` are the two settable properties, `None` standing for null.
   */
  datatype PropertyAttribute = PropertyAttribute(
    typeTag: int32,
    required: bool,
    parent: Option<string>,
    defaultValue: Option<string>)
  {
    /** The `Type` property, when it names one of the eleven members. */
    function Type(): Option<PropertyType> {
      FromOrdinal(typeTag)
    }
  }

  /** The primary constructor `PropertyAttribute(type, required = false)`: the two settable
      properties start out null, meaning "no parent" and "no default". */
  function NewPropertyAttribute(typeTag: int32, required: bool := false): (a: PropertyAttribute)
    ensures a.typeTag == typeTag && a.required == required
    ensures a.parent.None? && a.defaultValue.None?
  {
    PropertyAttribute(typeTag, required, None, None)
  }

  /** The `Parent` setter: changes the parent name and nothing else. */
  function WithParent(a: PropertyAttribute, parent: Option<string>): (b: PropertyAttribute)
    ensures b.typeTag == a.typeTag && b.required == a.required && b.defaultValue == a.defaultValue
    ensures b.parent == parent
  {
    a.(parent := parent)
  }

  /** The `DefaultValue` setter: changes the raw default and nothing else. */
  function WithDefaultValue(a: PropertyAttribute, defaultValue: Option<string>): (b: PropertyAttribute)
    ensures b.typeTag == a.typeTag && b.required == a.required && b.parent == a.parent
    ensures b.defaultValue == defaultValue
  {
    a.(defaultValue := defaultValue)
  }

  /** `Required` is false unless the constructor is told otherwise, and no setter changes it. */
  lemma RequiredOnlyFromConstructor(typeTag: int32, parent: Option<string>, defaultValue: Option<string>)
    ensures !WithDefaultValue(WithParent(NewPropertyAttribute(typeTag), parent), defaultValue).required
  {
  }
}
