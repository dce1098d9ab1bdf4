/**
 * Typed values and the table that turns a raw default string into a value of
 * the declared PropertyType (the `switch` over the type in ConfigurationValidator.Validate).
 */
module Coercion {
  import opened Wrappers
  import opened Primitives
  import opened Text
  import opened Annotation

  /** A value held by a validated property: one variant per PropertyType. */
  datatype Value =
    | BoolValue(b: bool)
    | ByteValue(u8: uint8)
    | SByteValue(i8: int8)
    | Int16Value(i16: int16)
    | UInt16Value(u16: uint16)
    | Int32Value(i32: int32)
    | UInt32Value(u32: uint32)
    | Int64Value(i64: int64)
    | UInt64Value(u64: uint64)
    | DoubleValue(bits: Double)
    | StringValue(s: string)

  /** The PropertyType a value belongs to. */
  function TypeOf(v: Value): PropertyType {
    match v
    case BoolValue(_) => BOOL
    case ByteValue(_) => BYTE
    case SByteValue(_) => SBYTE
    case Int16Value(_) => SHORT
    case UInt16Value(_) => USHORT
    case Int32Value(_) => INT
    case UInt32Value(_) => UINT
    case Int64Value(_) => LONG
    case UInt64Value(_) => ULONG
    case DoubleValue(_) => DOUBLE
    case StringValue(_) => STRING
  }

  /** Why a Parse call throws: FormatException (Malformed) or OverflowException (Overflow). */
  datatype ParseFailure = Malformed | Overflow

  predicate IsIntegerType(t: PropertyType) {
    t in {BYTE, SBYTE, SHORT, USHORT, INT, UINT, LONG, ULONG}
  }

  function MinValue(t: PropertyType): int
    requires IsIntegerType(t)
  {
    match t
    case BYTE => 0
    case SBYTE => -0x80
    case SHORT => -0x8000
    case USHORT => 0
    case INT => -0x8000_0000
    case UINT => 0
    case LONG => -0x8000_0000_0000_0000
    case ULONG => 0
  }

  function MaxValue(t: PropertyType): int
    requires IsIntegerType(t)
  {
    match t
    case BYTE => 0xFF
    case SBYTE => 0x7F
    case SHORT => 0x7FFF
    case USHORT => 0xFFFF
    case INT => 0x7FFF_FFFF
    case UINT => 0xFFFF_FFFF
    case LONG => 0x7FFF_FFFF_FFFF_FFFF
    case ULONG => 0xFFFF_FFFF_FFFF_FFFF
  }

  predicate InRange(t: PropertyType, n: int)
    requires IsIntegerType(t)
  {
    MinValue(t) <= n <= MaxValue(t)
  }

  /** The value of integer type `t` holding `n`. */
  function IntegerValue(t: PropertyType, n: int): (v: Value)
    requires IsIntegerType(t) && InRange(t, n)
    ensures TypeOf(v) == t && IntegerOf(v) == n
  {
    match t
    case BYTE => ByteValue(n)
    case SBYTE => SByteValue(n)
    case SHORT => Int16Value(n)
    case USHORT => UInt16Value(n)
    case INT => Int32Value(n)
    case UINT => UInt32Value(n)
    case LONG => Int64Value(n)
    case ULONG => UInt64Value(n)
  }

  /** The number an integer value holds. */
  function IntegerOf(v: Value): int
    requires IsIntegerType(TypeOf(v))
  {
    match v
    case ByteValue(n) => n
    case SByteValue(n) => n
    case Int16Value(n) => n
    case UInt16Value(n) => n
    case Int32Value(n) => n
    case UInt32Value(n) => n
    case Int64Value(n) => n
    case UInt64Value(n) => n
  }

  /** The white space NumberStyles.Integer lets surround a number. */
  predicate IsNumberWhite(c: char) {
    (0x09 <= c as int <= 0x0D) || c == ' '
  }

  /** The grammar of an integer literal under NumberStyles.Integer and the invariant culture:
      optional white space, an optional sign, one or more decimal digits, optional white space. */
  function ParseIntegerLiteral(s: string): Option<int> {
    var t := Trim(s, IsNumberWhite);
    if |t| > 0 && t[0] == '-' && IsDecimalDigits(t[1..]) then Some(-(DecimalValue(t[1..]) as int))
    else if |t| > 0 && t[0] == '+' && IsDecimalDigits(t[1..]) then Some(DecimalValue(t[1..]))
    else if IsDecimalDigits(t) then Some(DecimalValue(t))
    else None
  }

  /** The invariant-culture spelling of an integer (Int64.ToString). */
  function FormatInteger(n: int): string {
    if n < 0 then "-" + DecimalDigits(-n) else DecimalDigits(n)
  }

  /** Byte.Parse, SByte.Parse, ..., UInt64.Parse: the literal's value, or Overflow when the
      type's range does not hold it. */
  function ParseInteger(t: PropertyType, s: string): (r: Result<Value, ParseFailure>)
    requires IsIntegerType(t)
    ensures r.Ok? <==> ParseIntegerLiteral(s).Some? && InRange(t, ParseIntegerLiteral(s).value)
    ensures r.Ok? ==> TypeOf(r.value) == t && IntegerOf(r.value) == ParseIntegerLiteral(s).value
    ensures r == Err(Overflow) <==> ParseIntegerLiteral(s).Some? && !InRange(t, ParseIntegerLiteral(s).value)
  {
    match ParseIntegerLiteral(s)
    case None => Err(Malformed)
    case Some(n) => if InRange(t, n) then Ok(IntegerValue(t, n)) else Err(Overflow)
  }

  /** The characters Boolean.Parse trims before comparing. */
  predicate IsWhiteSpaceOrNull(c: char) {
    IsWhiteSpace(c) || c == '\0'
  }

  /** Boolean.Parse: "True" or "False" in any letter case, surrounded by any white space or null characters. */
  function ParseBoolean(s: string): (r: Result<bool, ParseFailure>)
    ensures r.Ok? ==> EqualsIgnoreCase(Trim(s, IsWhiteSpaceOrNull), if r.value then "True" else "False")
    ensures r.Err? ==> r.error == Malformed
    ensures EqualsIgnoreCase(Trim(s, IsWhiteSpaceOrNull), "True") ==> r == Ok(true)
    ensures EqualsIgnoreCase(Trim(s, IsWhiteSpaceOrNull), "False") ==> r == Ok(false)
  {
    var t := Trim(s, IsWhiteSpaceOrNull);
    if EqualsIgnoreCase(t, "True") then Ok(true)
    else if EqualsIgnoreCase(t, "False") then Ok(false)
    else Err(Malformed)
  }

  /** Boolean.ToString. */
  function FormatBoolean(b: bool): string {
    if b then "True" else "False"
  }

  /**
   * The per-type Parse call applied to a default string. DOUBLE is delegated to
   * `parseDouble`, which stands for Double.Parse (floating point is not modelled);
   * STRING assigns the raw string verbatim and never fails.
   */
  function Coerce(t: PropertyType, raw: string, parseDouble: string -> Option<Double>): (r: Result<Value, ParseFailure>)
    ensures r.Ok? ==> TypeOf(r.value) == t
    ensures t == STRING ==> r == Ok(StringValue(raw))
    ensures t == BOOL ==> r == (match ParseBoolean(raw) case Ok(b) => Ok(BoolValue(b)) case Err(f) => Err(f))
    ensures t == DOUBLE ==> r == (match parseDouble(raw) case Some(x) => Ok(DoubleValue(x)) case None => Err(Malformed))
    ensures IsIntegerType(t) ==> r == ParseInteger(t, raw)
  {
    match t
    case BOOL => (match ParseBoolean(raw) case Ok(b) => Ok(BoolValue(b)) case Err(f) => Err(f))
    case BYTE => ParseInteger(BYTE, raw)
    case SBYTE => ParseInteger(SBYTE, raw)
    case SHORT => ParseInteger(SHORT, raw)
    case USHORT => ParseInteger(USHORT, raw)
    case INT => ParseInteger(INT, raw)
    case UINT => ParseInteger(UINT, raw)
    case LONG => ParseInteger(LONG, raw)
    case ULONG => ParseInteger(ULONG, raw)
    case DOUBLE => (match parseDouble(raw) case Some(x) => Ok(DoubleValue(x)) case None => Err(Malformed))
    case STRING => Ok(StringValue(raw))
  }

  /** Parsing the spelling of an integer gives the integer back. */
  lemma ParseFormatInteger(n: int)
    ensures ParseIntegerLiteral(FormatInteger(n)) == Some(n)
  {
    var digits := DecimalDigits(if n < 0 then -n else n);
    assert !IsNumberWhite(digits[0]) && !IsNumberWhite(digits[|digits| - 1]);
    if n < 0 {
      var s := "-" + digits;
      assert s[0] == '-' && s[|s| - 1] == digits[|digits| - 1];
      assert Trim(s, IsNumberWhite) == s;
      assert s[1..] == digits;
    } else {
      assert Trim(digits, IsNumberWhite) == digits;
      assert digits[0] != '-' && digits[0] != '+';
    }
  }


  /** Every in-range integer survives a trip through its spelling, for each of the eight integer types. */
  lemma CoerceIntegerRoundTrip(t: PropertyType, n: int, parseDouble: string -> Option<Double>)
    requires IsIntegerType(t) && InRange(t, n)
    ensures Coerce(t, FormatInteger(n), parseDouble) == Ok(IntegerValue(t, n))
  {
    ParseFormatInteger(n);
  }

  /** An integer outside the type's range is rejected with Overflow, not wrapped around. */
  lemma CoerceIntegerOverflow(t: PropertyType, n: int, parseDouble: string -> Option<Double>)
    requires IsIntegerType(t) && !InRange(t, n)
    ensures Coerce(t, FormatInteger(n), parseDouble) == Err(Overflow)
  {
    ParseFormatInteger(n);
  }

  /** Boolean.Parse accepts what Boolean.ToString produces. */
  lemma CoerceBooleanRoundTrip(b: bool, parseDouble: string -> Option<Double>)
    ensures Coerce(BOOL, FormatBoolean(b), parseDouble) == Ok(BoolValue(b))
  {
    var s := FormatBoolean(b);
    assert !IsWhiteSpaceOrNull(s[0]) && !IsWhiteSpaceOrNull(s[|s| - 1]);
    assert Trim(s, IsWhiteSpaceOrNull) == s;
    if !b {
      assert !EqualsIgnoreCase(s, "True");
    }
  }
}
