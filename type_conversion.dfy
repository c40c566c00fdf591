/**
 * convertToRequiredType: how a column value read from a result row is converted to the
 * type of the constructor parameter it is passed to.
 */
module TypeConversions {
  import opened Wrappers
  import opened Errors
  import opened Text
  import opened Statements

  const LongMin: int := -0x8000_0000_0000_0000
  const LongMax: int := 0x7FFF_FFFF_FFFF_FFFF
  const IntMin: int := -0x8000_0000
  const IntMax: int := 0x7FFF_FFFF

  /**
   * The parameter type asked for (enum types carry their canonical class name and their constant
   * names). SerializableTarget is a Serializable type given a byte[] value, String included;
   * OtherTarget is any other type, or a Serializable one given a value that is not a byte[].
   */
  datatype TargetType =
    | EnumTarget(canonicalName: string, constants: seq<string>)
    | BooleanTarget
    | LongTarget
    | IntegerTarget
    | BigDecimalTarget
    | UuidTarget
    | DoubleTarget
    | DateTarget
    | SerializableTarget
    | OtherTarget

  /** The targets whose conversion is modelled; the others parse floats, dates, UUIDs or serialized bytes. */
  predicate Modelled(t: TargetType)
  {
    t.EnumTarget? || t.BooleanTarget? || t.LongTarget? || t.IntegerTarget? || t.OtherTarget?
  }

  datatype Converted =
    | NullObject
    | EnumConstant(name: string)
    | BooleanObject(b: bool)
    | LongObject(n: int)
    | IntegerObject(n: int)
    | SameObject(value: Value)

  /** The boolean reading: the text is "true" or "1", in any letter case. */
  predicate Truthy(text: string)
  {
    EqualsIgnoreCase(text, "true") || EqualsIgnoreCase(text, "1")
  }

  /** convertToRequiredType(value, type) on the modelled targets. */
  function Convert(v: Value, t: TargetType): (r: Result<Converted, Error>)
    requires Modelled(t)
    ensures v.Null? ==> r == Ok(NullObject)
    ensures !v.Null? && t == BooleanTarget ==> r == Ok(BooleanObject(Truthy(ToText(v))))
    ensures !v.Null? && t.EnumTarget? ==>
      (r.Ok? <==> v.Str? && v.s in t.constants) && (r.Ok? ==> r.value == EnumConstant(v.s))
    ensures !v.Null? && t.EnumTarget? && v.Str? && v.s !in t.constants ==>
      r == Err(IllegalArgument("No enum constant " + t.canonicalName + "." + v.s))
    ensures !v.Null? && t == LongTarget && r.Ok? ==> r.value.LongObject? && LongMin <= r.value.n <= LongMax
    ensures !v.Null? && t == IntegerTarget && r.Ok? ==> r.value.IntegerObject? && IntMin <= r.value.n <= IntMax
    ensures !v.Null? && t == OtherTarget ==> r == Ok(SameObject(v))
  {
    if v.Null? then Ok(NullObject)
    else
      match t
      case EnumTarget(canonicalName, constants) =>
        if !v.Str? then Err(ClassCast)
        else if v.s in constants then Ok(EnumConstant(v.s))
        else Err(IllegalArgument("No enum constant " + canonicalName + "." + v.s))
      case BooleanTarget => Ok(BooleanObject(Truthy(ToText(v))))
      case LongTarget =>
        var parsed := ParseInteger(ToText(v), LongMin, LongMax);
        if parsed.None? then Err(NumberFormat(ToText(v))) else Ok(LongObject(parsed.value))
      case IntegerTarget =>
        var parsed := ParseInteger(ToText(v), IntMin, IntMax);
        if parsed.None? then Err(NumberFormat(ToText(v))) else Ok(IntegerObject(parsed.value))
      case OtherTarget => Ok(SameObject(v))
  }

  /** A Boolean column value converts to itself. */
  lemma BooleanRoundTrip(b: bool)
    ensures Convert(Bool(b), BooleanTarget) == Ok(BooleanObject(b))
  {
    if !b {
      assert Lower("false") != Lower("true") by {
        assert Lower("false")[0] == 'f';
      }
      assert Lower("false") != Lower("1") by {
        assert |Lower("false")| == 5;
      }
    }
  }

  /** The number 1 and the text "TRUE" both read as true; 0 reads as false. */
  lemma BooleanFromNumbers()
    ensures Convert(Long(1), BooleanTarget) == Ok(BooleanObject(true))
    ensures Convert(Long(0), BooleanTarget) == Ok(BooleanObject(false))
    ensures Convert(Str("TRUE"), BooleanTarget) == Ok(BooleanObject(true))
  {
    assert ToText(Long(1)) == "1" by {
      assert NatToString(1) == "1";
    }
    assert ToText(Long(0)) == "0" by {
      assert NatToString(0) == "0";
    }
    assert Lower("0") != Lower("true") by {
      assert |Lower("0")| == 1;
    }
    assert Lower("0") != Lower("1") by {
      assert Lower("0")[0] == '0';
    }
    assert Lower("TRUE") == Lower("true");
  }

  /** A long column value within range converts to the same long. */
  lemma LongRoundTrip(n: int)
    requires LongMin <= n <= LongMax
    ensures Convert(Long(n), LongTarget) == Ok(LongObject(n))
  {
    ParseIntegerOfIntToString(n, LongMin, LongMax);
  }

  /** A long value that fits in an int converts to the same int; one that does not is a NumberFormatException. */
  lemma IntegerFromLong(n: int)
    ensures IntMin <= n <= IntMax ==> Convert(Long(n), IntegerTarget) == Ok(IntegerObject(n))
    ensures n < IntMin || n > IntMax ==> Convert(Long(n), IntegerTarget) == Err(NumberFormat(IntToString(n)))
  {
    ParseIntegerOfIntToString(n, IntMin, IntMax);
  }

  /** An enum target refuses a value that is not a string with a ClassCastException. */
  lemma EnumNeedsString(v: Value, canonicalName: string, constants: seq<string>)
    requires !v.Null? && !v.Str?
    ensures Convert(v, EnumTarget(canonicalName, constants)) == Err(ClassCast)
  {
  }
}
