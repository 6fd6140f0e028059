/**
 * SimplePropertyValueProvider: turning a raw value into the value of a simple
 * entity property, by the property's Java type
 * (property/binding/impl/SimplePropertyValueProvider.java).
 */
module Coercion {
  import opened Wrappers
  import opened RawData
  import opened Metadata

  const IntegerMin: int := -0x8000_0000
  const IntegerMax: int := 0x7fff_ffff
  const LongMin: int := -0x8000_0000_0000_0000
  const LongMax: int := 0x7fff_ffff_ffff_ffff

  predicate IsDigit(c: char) { '0' <= c <= '9' }

  predicate AllDigits(s: string) { forall i :: 0 <= i < |s| ==> IsDigit(s[i]) }

  /** The number a string of decimal digits denotes. */
  function DigitsValue(s: string): nat
    requires AllDigits(s)
  {
    if |s| == 0 then 0 else DigitsValue(s[..|s| - 1]) * 10 + (s[|s| - 1] - '0') as int
  }

  /**
   * The syntax `Integer.parseInt` and `Long.parseLong` accept with radix 10:
   * an optional `+` or `-`, then at least one decimal digit. The range check
   * is left to ParseInteger and ParseLong.
   */
  function ParseDecimal(s: string): (r: Option<int>)
    ensures r.Some? ==> |s| > 0
  {
    if |s| == 0 then None
    else if s[0] == '-' || s[0] == '+' then
      if |s| == 1 || !AllDigits(s[1..]) then None
      else if s[0] == '-' then Some(-(DigitsValue(s[1..]) as int))
      else Some(DigitsValue(s[1..]))
    else if AllDigits(s) then Some(DigitsValue(s))
    else None
  }

  /** `Integer.parseInt`: None stands for the NumberFormatException. */
  function ParseInteger(s: string): (r: Option<int>)
    ensures r.Some? ==> IntegerMin <= r.value <= IntegerMax && ParseDecimal(s) == r
  {
    match ParseDecimal(s)
    case Some(n) => if IntegerMin <= n <= IntegerMax then Some(n) else None
    case None => None
  }

  /** `Long.parseLong`: None stands for the NumberFormatException. */
  function ParseLong(s: string): (r: Option<int>)
    ensures r.Some? ==> LongMin <= r.value <= LongMax && ParseDecimal(s) == r
  {
    match ParseDecimal(s)
    case Some(n) => if LongMin <= n <= LongMax then Some(n) else None
    case None => None
  }

  /** The decimal form of a natural number, without leading zeros. */
  function NaturalString(n: nat): (s: string)
    ensures |s| > 0 && AllDigits(s)
  {
    if n < 10 then [('0' as int + n) as char]
    else NaturalString(n / 10) + [('0' as int + n % 10) as char]
  }

  /** `Integer.toString` / `Long.toString`. */
  function DecimalString(n: int): string
  {
    if n < 0 then "-" + NaturalString(-n) else NaturalString(n)
  }

  lemma {:induction false} NaturalStringValue(n: nat)
    ensures DigitsValue(NaturalString(n)) == n
  {
    if n >= 10 {
      var s := NaturalString(n);
      NaturalStringValue(n / 10);
      assert s[..|s| - 1] == NaturalString(n / 10);
    }
  }

  /** The decimal form of any number parses back to that number. */
  lemma DecimalRoundTrip(n: int)
    ensures ParseDecimal(DecimalString(n)) == Some(n)
  {
    var m: nat := if n < 0 then -n else n;
    NaturalStringValue(m);
    var d := NaturalString(m);
    if n < 0 {
      assert DecimalString(n)[1..] == d;
    } else {
      assert IsDigit(d[0]);
    }
  }

  /** `getIntegerValue`: a string is parsed, an Integer passes through, everything else is null. */
  function IntegerValueOf(raw: Value): (r: Value)
    ensures r.Null? || r.IntegerValue?
    ensures raw.Str? ==> (r.IntegerValue? <==> ParseInteger(raw.s).Some?)
    ensures raw.Str? && ParseInteger(raw.s).Some? ==> r == IntegerValue(ParseInteger(raw.s).value)
    ensures raw.IntegerValue? ==> r == raw
    ensures !raw.Str? && !raw.IntegerValue? ==> r == Null
  {
    match raw
    case Str(s) => (match ParseInteger(s) case Some(n) => IntegerValue(n) case None => Null)
    case IntegerValue(_) => raw
    case _ => Null
  }

  /** `getLongValue`, the same for Long. */
  function LongValueOf(raw: Value): (r: Value)
    ensures r.Null? || r.LongValue?
    ensures raw.Str? ==> (r.LongValue? <==> ParseLong(raw.s).Some?)
    ensures raw.Str? && ParseLong(raw.s).Some? ==> r == LongValue(ParseLong(raw.s).value)
    ensures raw.LongValue? ==> r == raw
    ensures !raw.Str? && !raw.LongValue? ==> r == Null
  {
    match raw
    case Str(s) => (match ParseLong(s) case Some(n) => LongValue(n) case None => Null)
    case LongValue(_) => raw
    case _ => Null
  }

  /** `Character.toUpperCase` on the ASCII letters. */
  function UpperChar(c: char): char
  {
    if 'a' <= c <= 'z' then (c as int - 32) as char else c
  }

  /** `String.toUpperCase`, on ASCII letters. */
  function ToUpperCase(s: string): (r: string)
    ensures |r| == |s|
    ensures forall i :: 0 <= i < |s| ==> r[i] == UpperChar(s[i])
  {
    if |s| == 0 then "" else [UpperChar(s[0])] + ToUpperCase(s[1..])
  }

  /** `String.equalsIgnoreCase`, on ASCII letters. */
  predicate SameIgnoringCase(a: string, b: string)
  {
    ToUpperCase(a) == ToUpperCase(b)
  }

  /** `StringUtils.equalsIgnoreCase(literal, raw)` for a non-null raw string: a null literal matches nothing. */
  predicate LiteralMatches(literal: Option<string>, raw: string)
  {
    literal.Some? && SameIgnoringCase(literal.value, raw)
  }

  /** `StringUtils.isNotEmpty`. */
  predicate IsNotEmpty(s: Option<string>)
  {
    s.Some? && |s.value| > 0
  }

  /** The boolean literals and date format an import configuration supplies. */
  datatype Formats = Formats(
    booleanTrueValue: Option<string>,
    booleanFalseValue: Option<string>,
    dateFormat: Option<string>)

  /**
   * `getBooleanValue`. When either custom literal is non-empty, only the
   * literals are recognised (the true literal first); otherwise the string is
   * read by `Boolean.parseBoolean`, which is true exactly for "true" in any case
   * and false for every other string. A Boolean passes through.
   */
  function BooleanValueOf(formats: Formats, raw: Value): (r: Value)
    ensures r.Null? || r.BooleanValue?
    ensures raw.BooleanValue? ==> r == raw
    ensures !raw.Str? && !raw.BooleanValue? ==> r == Null
    ensures raw.Str? && !IsNotEmpty(formats.booleanTrueValue) && !IsNotEmpty(formats.booleanFalseValue) ==>
      r == BooleanValue(SameIgnoringCase("true", raw.s))
    ensures raw.Str? && (IsNotEmpty(formats.booleanTrueValue) || IsNotEmpty(formats.booleanFalseValue)) ==>
      r == (if LiteralMatches(formats.booleanTrueValue, raw.s) then BooleanValue(true)
            else if LiteralMatches(formats.booleanFalseValue, raw.s) then BooleanValue(false)
            else Null)
  {
    match raw
    case Str(s) =>
      if IsNotEmpty(formats.booleanTrueValue) || IsNotEmpty(formats.booleanFalseValue) then
        if LiteralMatches(formats.booleanTrueValue, s) then BooleanValue(true)
        else if LiteralMatches(formats.booleanFalseValue, s) then BooleanValue(false)
        else Null
      else BooleanValue(SameIgnoringCase("true", s))
    case BooleanValue(_) => raw
    case _ => Null
  }

  /**
   * `getEnumValue`: a string is upper-cased and looked up by exact constant
   * name (`Enum.valueOf`); an unknown name and any non-string give null.
   */
  function EnumValueOf(raw: Value, constants: seq<string>): (r: Value)
    ensures r.Null? || (r.EnumValue? && r.constant in constants)
    ensures r.EnumValue? ==> raw.Str? && r.constant == ToUpperCase(raw.s)
  {
    match raw
    case Str(s) => if ToUpperCase(s) in constants then EnumValue(ToUpperCase(s)) else Null
    case _ => Null
  }

  /**
   * The coercion chosen by the property's Java type, in the source's order of
   * tests; null when the raw value cannot be read as that type. Double, Date,
   * LocalDate and BigDecimal parsing is `external` (see README).
   */
  function Coerce(raw: Value, javaType: JavaType, formats: Formats,
                  external: (JavaType, Value, Option<string>) -> Value): Value
  {
    match javaType
    case IntegerType => IntegerValueOf(raw)
    case LongType => LongValueOf(raw)
    case DoubleType => external(javaType, raw, formats.dateFormat)
    case DateType => external(javaType, raw, formats.dateFormat)
    case LocalDateType => external(javaType, raw, formats.dateFormat)
    case BooleanType => BooleanValueOf(formats, raw)
    case BigDecimalType => external(javaType, raw, formats.dateFormat)
    case EnumType(constants) => EnumValueOf(raw, constants)
    case _ => if raw.Str? then raw else Null
  }

  /**
   * `getValue`: the coerced value, or the mapping's default value when the
   * coercion gives null.
   */
  function GetValue(raw: Value, javaType: JavaType, defaultValue: Value, formats: Formats,
                    external: (JavaType, Value, Option<string>) -> Value): (r: Value)
    ensures r == Coerce(raw, javaType, formats, external) || r == defaultValue
    ensures r == Null ==> defaultValue == Null
    ensures Coerce(raw, javaType, formats, external) != Null ==> r == Coerce(raw, javaType, formats, external)
  {
    var v := Coerce(raw, javaType, formats, external);
    if v == Null then defaultValue else v
  }

  /** An Integer property receives the decimal's value exactly when it is within Integer's range. */
  lemma IntegerPropertyFromDecimal(n: int, defaultValue: Value, formats: Formats,
                                  external: (JavaType, Value, Option<string>) -> Value)
    ensures GetValue(Str(DecimalString(n)), IntegerType, defaultValue, formats, external) ==
      if IntegerMin <= n <= IntegerMax then IntegerValue(n) else defaultValue
  {
    DecimalRoundTrip(n);
  }

  /** A Long property receives the decimal's value exactly when it is within Long's range. */
  lemma LongPropertyFromDecimal(n: int, defaultValue: Value, formats: Formats,
                               external: (JavaType, Value, Option<string>) -> Value)
    ensures GetValue(Str(DecimalString(n)), LongType, defaultValue, formats, external) ==
      if LongMin <= n <= LongMax then LongValue(n) else defaultValue
  {
    DecimalRoundTrip(n);
  }

  /** One past Integer's maximum is rejected for an Integer property yet accepted for a Long one. */
  lemma IntegerOverflowIsNotLongOverflow(defaultValue: Value, formats: Formats,
                                        external: (JavaType, Value, Option<string>) -> Value)
    ensures GetValue(Str(DecimalString(IntegerMax + 1)), IntegerType, defaultValue, formats, external) == defaultValue
    ensures GetValue(Str(DecimalString(IntegerMax + 1)), LongType, defaultValue, formats, external) == LongValue(IntegerMax + 1)
  {
    IntegerPropertyFromDecimal(IntegerMax + 1, defaultValue, formats, external);
    LongPropertyFromDecimal(IntegerMax + 1, defaultValue, formats, external);
  }

  /** Without custom literals a Boolean property never falls back to its default for a string. */
  lemma BooleanWithoutLiterals(s: string, defaultValue: Value, formats: Formats,
                               external: (JavaType, Value, Option<string>) -> Value)
    requires !IsNotEmpty(formats.booleanTrueValue) && !IsNotEmpty(formats.booleanFalseValue)
    ensures GetValue(Str(s), BooleanType, defaultValue, formats, external) ==
      BooleanValue(ToUpperCase(s) == "TRUE")
  {
  }

  /**
   * With custom literals, a string matching the true literal is true (even
   * when it matches the false literal as well), one matching only the false
   * literal is false, and any other string takes the default value.
   */
  lemma BooleanWithLiterals(s: string, defaultValue: Value, formats: Formats,
                            external: (JavaType, Value, Option<string>) -> Value)
    requires IsNotEmpty(formats.booleanTrueValue) || IsNotEmpty(formats.booleanFalseValue)
    ensures var r := GetValue(Str(s), BooleanType, defaultValue, formats, external);
      (LiteralMatches(formats.booleanTrueValue, s) ==> r == BooleanValue(true)) &&
      (!LiteralMatches(formats.booleanTrueValue, s) && LiteralMatches(formats.booleanFalseValue, s) ==> r == BooleanValue(false)) &&
      (!LiteralMatches(formats.booleanTrueValue, s) && !LiteralMatches(formats.booleanFalseValue, s) ==> r == defaultValue)
  {
  }

  lemma {:induction false} UpperCaseHasNoLowerCase(s: string, i: nat)
    requires i < |ToUpperCase(s)|
    ensures !('a' <= ToUpperCase(s)[i] <= 'z')
  {
  }

  /**
   * Because the raw string is upper-cased before the exact-name lookup, an
   * enum constant whose name has a lower-case letter is never produced.
   */
  lemma LowerCaseEnumConstantUnreachable(raw: Value, constants: seq<string>, c: string, i: nat)
    requires i < |c| && 'a' <= c[i] <= 'z'
    ensures EnumValueOf(raw, constants) != EnumValue(c)
  {
    if raw.Str? && EnumValueOf(raw, constants) == EnumValue(c) {
      UpperCaseHasNoLowerCase(raw.s, i);
    }
  }

  /** An enum property receives the constant named by the upper-cased string, when there is one. */
  lemma EnumPropertyByName(s: string, constants: seq<string>, defaultValue: Value, formats: Formats,
                           external: (JavaType, Value, Option<string>) -> Value)
    ensures GetValue(Str(s), EnumType(constants), defaultValue, formats, external) ==
      if ToUpperCase(s) in constants then EnumValue(ToUpperCase(s)) else defaultValue
  {
  }

  /**
   * For a property of any type the chain does not name, a string passes
   * through unchanged and any other raw value takes the default value.
   */
  lemma OtherTypesTakeStringsOnly(raw: Value, javaType: JavaType, defaultValue: Value, formats: Formats,
                                  external: (JavaType, Value, Option<string>) -> Value)
    requires javaType.StringType? || javaType.ListType? || javaType.SetType? || javaType.EntityType? || javaType.OtherType?
    ensures GetValue(raw, javaType, defaultValue, formats, external) ==
      if raw.Str? then raw else defaultValue
  {
  }
}
