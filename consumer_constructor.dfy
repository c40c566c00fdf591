/**
 * ConsumerConstructor: turns the fields of a template class into schema builder calls. The
 * class is given as a list of field descriptions (reflection is not modelled); the consumer
 * walks them in order, each field adding one column and the modifiers its annotation asks
 * for, and stops at the first exception with the calls made so far already applied.
 */
module ConsumerConstructors {
  import opened Wrappers
  import opened Errors
  import opened Text
  import opened Statements
  import opened ColumnDefinitions
  import opened SchemaBuilders
  import TypeConversions

  /** The @Column annotation; an absent string element is "". */
  datatype ColumnAnnotation = ColumnAnnotation(
    value: string,
    colType: string,
    autoIncrement: bool,
    primary: bool,
    foreignKey: bool,
    foreignKeyReference: string,
    nullable: bool)

  /**
   * One declared field: its name, its type as getTypeName prints it ("long",
   * "java.lang.String", …), its annotation if any, and its value in the data object.
   */
  datatype FieldDesc = FieldDesc(name: string, typeName: string, column: Option<ColumnAnnotation>, current: Value)

  /** The column name: the annotation's value when non-empty, else the field name. */
  function ColumnName(f: FieldDesc): (r: string)
    ensures f.column.Some? && f.column.value.value != "" ==> r == f.column.value.value
    ensures (f.column.None? || f.column.value.value == "") ==> r == f.name
  {
    if f.column.Some? && f.column.value.value != "" then f.column.value.value else f.name
  }

  /** The type key: the annotation's type when non-empty, else the simple name of the field's type. */
  function TypeKey(f: FieldDesc): (r: string)
    ensures f.column.Some? && f.column.value.colType != "" ==> r == f.column.value.colType
    ensures (f.column.None? || f.column.value.colType == "") ==> r == AfterLastDot(f.typeName)
  {
    if f.column.Some? && f.column.value.colType != "" then f.column.value.colType else AfterLastDot(f.typeName)
  }

  predicate IsLongType(typeName: string)
  {
    typeName == "long" || typeName == "java.lang.Long"
  }

  predicate IsIntType(typeName: string)
  {
    typeName == "int" || typeName == "java.lang.Integer"
  }

  /** The lower-cased type keys schemaFromType accepts. */
  const SupportedTypes: set<string> :=
    {"string", "longtext", "integer", "int", "long", "bigint", "boolean", "double", "float", "bigdecimal",
     "uuid", "date", "timestamp"}

  predicate IsIntegerKey(key: string)
  {
    key == "integer" || key == "int" || key == "long" || key == "bigint"
  }

  predicate IsDecimalKey(key: string)
  {
    key == "double" || key == "float" || key == "bigdecimal"
  }

  /** A value the cast (Double) accepts. */
  predicate IsDouble(v: Value)
  {
    v.Other? && v.className == "java.lang.Double"
  }

  predicate IsUuid(v: Value)
  {
    v.Other? && v.className == "java.util.UUID"
  }

  /** java.util.Date and the JDK's subclasses of it. */
  const DateClasses: set<string> := {"java.util.Date", "java.sql.Date", "java.sql.Time", "java.sql.Timestamp"}

  /** A value the cast (Date) accepts: null or an instance of java.util.Date or one of its subclasses. */
  predicate IsDateOrNull(v: Value)
  {
    v.Null? || (v.Other? && v.className in DateClasses)
  }

  /**
   * schemaFromType: the builder calls for one column of the given type key, or the exception:
   * an unknown key, a value that does not parse as a long, or a failed cast.
   */
  function SchemaFromType(typeKey: string, name: string, obj: Value): (r: Result<seq<BuilderCall>, Error>)
    ensures Lower(typeKey) !in SupportedTypes ==> r == Err(IllegalArgument("Type " + typeKey + " is not supported"))
    ensures r.Ok? ==> |r.value| > 0 && r.value[0].AddColumnCall? && r.value[0].column.name == name
    ensures r.Ok? ==> r.value[1..] == if Lower(typeKey) == "date" || Lower(typeKey) == "timestamp" then [NullableCall] else []
    ensures r.Ok? && obj.Null? ==> r.value[0].column.obj == Null
    ensures Lower(typeKey) == "date" ==> (r.Ok? <==> IsDateOrNull(obj))
    ensures Lower(typeKey) == "date" && r.Ok? ==> r.value[0].column.obj == obj
    ensures Lower(typeKey) == "date" && r.Err? ==> r.error == ClassCast
  {
    var key := Lower(typeKey);
    if key == "string" then
      if obj.Null? then Ok([AddColumnCall(VarcharColumn(name, 255))])
      else Ok([AddColumnCall(ValueColumn(name, Str(ToText(obj))))])
    else if key == "longtext" then Ok([AddColumnCall(NewTypedColumn(name, "LONGTEXT"))])
    else if IsIntegerKey(key) then
      if obj.Null? then Ok([AddColumnCall(NewTypedColumn(name, "BIGINT"))])
      else
        match ParseInteger(ToText(obj), TypeConversions.LongMin, TypeConversions.LongMax)
        case Some(n) => Ok([AddColumnCall(ValueColumn(name, Long(n)))])
        case None => Err(NumberFormat(ToText(obj)))
    else if key == "boolean" then
      if obj.Null? then Ok([AddColumnCall(NewTypedColumn(name, "BOOLEAN"))])
      else if obj.Bool? then Ok([AddColumnCall(ValueColumn(name, obj))])
      else Err(ClassCast)
    else if IsDecimalKey(key) then
      if obj.Null? then Ok([AddColumnCall(DecimalColumn(name, 65, 30))])
      else if IsDouble(obj) then Ok([AddColumnCall(ValueColumn(name, obj))])
      else Err(ClassCast)
    else if key == "uuid" then
      if obj.Null? then Ok([AddColumnCall(UuidColumn(name))])
      else if IsUuid(obj) then Ok([AddColumnCall(UuidValueColumn(name, obj.text))])
      else Err(ClassCast)
    else if key == "date" then
      if IsDateOrNull(obj) then Ok([AddColumnCall(ValueColumn(name, obj)), NullableCall])
      else Err(ClassCast)
    else if key == "timestamp" then Ok([AddColumnCall(NewTypedColumn(name, "TIMESTAMP")), NullableCall])
    else Err(IllegalArgument("Type " + typeKey + " is not supported"))
  }

  /** The column type each key gives when there is no value to carry; date columns stay untyped. */
  function KeyColumnType(key: string): Option<string>
  {
    if key == "string" || key == "uuid" then Some("VARCHAR")
    else if key == "longtext" then Some("LONGTEXT")
    else if IsIntegerKey(key) then Some("BIGINT")
    else if key == "boolean" then Some("BOOLEAN")
    else if IsDecimalKey(key) then Some("DECIMAL")
    else if key == "timestamp" then Some("TIMESTAMP")
    else None
  }

  /**
   * The type table without data: every supported key gives one column of the tabled type,
   * strings 255 long, uuids 36, decimals DECIMAL(65,30); any other key is refused.
   */
  lemma TypeTableWithoutData(typeKey: string, name: string)
    ensures var r := SchemaFromType(typeKey, name, Null);
      (r.Ok? <==> Lower(typeKey) in SupportedTypes)
      && (r.Ok? ==> r.value[0].column.colType == KeyColumnType(Lower(typeKey)))
      && (r.Ok? && Lower(typeKey) == "string" ==> r.value[0].column.length == 255)
      && (r.Ok? && Lower(typeKey) == "uuid" ==> r.value[0].column.length == 36)
      && (r.Ok? && IsDecimalKey(Lower(typeKey)) ==> r.value[0].column.length == 65 && r.value[0].column.decimal == 30)
  {
  }

  /** With a value, a number field is parsed as a Java long; text that does not parse is a NumberFormatException. */
  lemma NumberFieldWithData(typeKey: string, name: string, obj: Value)
    requires !obj.Null? && IsIntegerKey(Lower(typeKey))
    ensures var r := SchemaFromType(typeKey, name, obj);
      var parsed := ParseInteger(ToText(obj), TypeConversions.LongMin, TypeConversions.LongMax);
      (r.Ok? <==> parsed.Some?)
      && (r.Ok? ==> r.value == [AddColumnCall(ValueColumn(name, Long(parsed.value)))])
      && (r.Err? ==> r.error == NumberFormat(ToText(obj)))
  {
  }

  /** With a value, the boolean, decimal and uuid keys cast it: a value of another class is a ClassCastException. */
  lemma CastFieldWithData(typeKey: string, name: string, obj: Value)
    requires !obj.Null?
    ensures var r := SchemaFromType(typeKey, name, obj);
      (Lower(typeKey) == "boolean" ==> (r.Ok? <==> obj.Bool?) && (r.Err? ==> r.error == ClassCast))
      && (IsDecimalKey(Lower(typeKey)) ==> (r.Ok? <==> IsDouble(obj)) && (r.Err? ==> r.error == ClassCast))
      && (Lower(typeKey) == "uuid" ==> (r.Ok? <==> IsUuid(obj)) && (r.Err? ==> r.error == ClassCast))
  {
  }

  /** The (Date) cast accepts java.sql dates, times and timestamps, and the column carries the value. */
  lemma DateFieldAcceptsSubclasses(name: string, text: string, className: string)
    requires className in {"java.sql.Date", "java.sql.Time", "java.sql.Timestamp"}
    ensures SchemaFromType("date", name, Other(className, text))
      == Ok([AddColumnCall(ValueColumn(name, Other(className, text))), NullableCall])
  {
    assert Lower("date") == "date";
  }

  /** A float or BigDecimal value cannot be cast to Double: such a field fails as soon as data is given. */
  lemma FloatValueRejected(name: string, text: string)
    ensures SchemaFromType("float", name, Other("java.lang.Float", text)) == Err(ClassCast)
    ensures SchemaFromType("bigdecimal", name, Other("java.math.BigDecimal", text)) == Err(ClassCast)
  {
    assert Lower("float") == "float";
    assert Lower("bigdecimal") == "bigdecimal";
  }

  // ---------------------------------------------------------------- one field

  /** What one field does: its calls (those made before an exception included), the exception, the flag after it. */
  datatype FieldResult = FieldResult(calls: seq<BuilderCall>, error: Option<Error>, primaryAlready: bool)

  /** The calls the consumer makes: column adders and modifiers of the last column, never defaultValue. */
  predicate Emitted(call: BuilderCall)
  {
    call.AddColumnCall? || call.AutoIncrementCall? || Modifier(call)
  }

  /** The modifiers an annotation can ask for. */
  predicate Modifier(call: BuilderCall)
  {
    call.PrimaryCall? || call.ForeignKeyCall? || call.NullableCall?
  }

  /** Calls that open with a column and hold only consumer calls. */
  predicate ColumnLed(calls: seq<BuilderCall>)
  {
    (|calls| > 0 ==> calls[0].AddColumnCall? || calls[0].AutoIncrementCall?)
    && forall k :: 0 <= k < |calls| ==> Emitted(calls[k])
  }

  /** Columns added without data carry no value. */
  predicate NoValues(calls: seq<BuilderCall>)
  {
    forall k :: 0 <= k < |calls| ==> calls[k].AddColumnCall? ==> calls[k].column.obj == Null
  }

  /** The column of a field and the flag after it: an auto-increment key for long and int fields, otherwise schemaFromType. */
  function FieldColumn(f: FieldDesc, primaryAlready: bool, hasData: bool): (r: Result<(seq<BuilderCall>, bool), Error>)
    ensures r.Ok? ==> |r.value.0| > 0 && ColumnLed(r.value.0) && (!hasData ==> NoValues(r.value.0))
    ensures r.Ok? && r.value.0[0].AddColumnCall? ==> PrimaryCall !in r.value.0 && r.value.1 == primaryAlready
    ensures r.Ok? && r.value.0[0].AutoIncrementCall? ==> r.value.0 == r.value.0[..1] && r.value.1
  {
    if f.column.Some? && f.column.value.autoIncrement then
      // the annotation's own value names the column, even when it is empty
      if IsLongType(f.typeName) then Ok(([AutoIncrementCall(f.column.value.value, "BIGINT")], true))
      else if IsIntType(f.typeName) then Ok(([AutoIncrementCall(f.column.value.value, "INTEGER")], true))
      else Err(IllegalArgument("Auto increment is only supported for long and int types"))
    else
      match SchemaFromType(TypeKey(f), ColumnName(f), if hasData then f.current else Null)
      case Ok(calls) => Ok((calls, primaryAlready))
      case Err(e) => Err(e)
  }

  /** The modifiers of an annotation that passed its checks, in the order they are applied. */
  function ModifierCalls(a: ColumnAnnotation): (r: seq<BuilderCall>)
    ensures forall k :: 0 <= k < |r| ==> Modifier(r[k])
    ensures PrimaryCall in r <==> a.primary
    ensures ForeignKeyCall(a.foreignKeyReference) in r <==> a.foreignKey
    ensures NullableCall in r <==> a.nullable
  {
    (if a.primary then [PrimaryCall] else []) + (if a.foreignKey then [ForeignKeyCall(a.foreignKeyReference)] else [])
      + (if a.nullable then [NullableCall] else [])
  }

  /**
   * The annotation's part after the column: the calls it appends, the exception it throws
   * (primary with auto-increment, foreign key without reference) and the flag after it.
   */
  function AnnotationCalls(a: ColumnAnnotation, primaryAlready: bool): (r: FieldResult)
    ensures forall k :: 0 <= k < |r.calls| ==> Modifier(r.calls[k])
    ensures a.primary && a.autoIncrement ==>
      r == FieldResult([], Some(IllegalArgument("A column cannot be both primary and auto increment")), primaryAlready)
    ensures !(a.primary && a.autoIncrement) && a.foreignKey && a.foreignKeyReference == "" ==>
      r.error == Some(IllegalArgument("Foreign key reference is empty")) && (PrimaryCall in r.calls <==> a.primary)
    ensures r.error.None? <==> !(a.primary && a.autoIncrement) && !(a.foreignKey && a.foreignKeyReference == "")
    ensures r.error.None? ==> r.calls == ModifierCalls(a)
    ensures r.primaryAlready <==> primaryAlready || (a.primary && !a.autoIncrement)
  {
    if a.primary && a.autoIncrement then
      FieldResult([], Some(IllegalArgument("A column cannot be both primary and auto increment")), primaryAlready)
    else if a.foreignKey && a.foreignKeyReference == "" then
      FieldResult(if a.primary then [PrimaryCall] else [], Some(IllegalArgument("Foreign key reference is empty")), primaryAlready || a.primary)
    else
      FieldResult(ModifierCalls(a), None, primaryAlready || a.primary)
  }

  /** Modifiers after a column keep the calls column-led, and add no value. */
  lemma ModifiersAfterColumn(head: seq<BuilderCall>, tail: seq<BuilderCall>)
    requires |head| > 0 && ColumnLed(head)
    requires forall k :: 0 <= k < |tail| ==> Modifier(tail[k])
    ensures ColumnLed(head + tail)
    ensures NoValues(head) ==> NoValues(head + tail)
  {
  }

  /** The body of the field loop for field i: the column, the annotation's part, and field 0's default primary key. */
  function FieldCalls(f: FieldDesc, i: nat, primaryAlready: bool, hasData: bool): (r: FieldResult)
    ensures ColumnLed(r.calls) && (!hasData ==> NoValues(r.calls))
  {
    match FieldColumn(f, primaryAlready, hasData)
    case Err(e) => FieldResult([], Some(e), primaryAlready)
    case Ok(added) =>
      var note := if f.column.Some? then AnnotationCalls(f.column.value, added.1) else FieldResult([], None, added.1);
      var defaultKey := if note.error.None? && i == 0 && !note.primaryAlready then [PrimaryCall] else [];
      ModifiersAfterColumn(added.0, note.calls + defaultKey);
      FieldResult(added.0 + (note.calls + defaultKey), note.error, note.primaryAlready || defaultKey != [])
  }

  /**
   * Field 0 always ends up a primary key: it is an auto-increment key, annotated primary, or
   * made primary by default; a later field is primary only when annotated so.
   */
  lemma FirstFieldIsPrimary(f: FieldDesc, i: nat, hasData: bool)
    requires FieldCalls(f, i, false, hasData).error.None?
    ensures var calls := FieldCalls(f, i, false, hasData).calls;
      i == 0 ==> calls[0].AutoIncrementCall? || PrimaryCall in calls
    ensures var calls := FieldCalls(f, i, false, hasData).calls;
      i > 0 ==> (PrimaryCall in calls <==> f.column.Some? && f.column.value.primary)
  {
    var added := FieldColumn(f, false, hasData).value;
    if f.column.Some? {
      var note := AnnotationCalls(f.column.value, added.1);
      assert note.calls == ModifierCalls(f.column.value);
    }
  }

  /** An auto-increment field of type long or int: the key column is added before anything else is checked. */
  lemma AutoIncrementField(f: FieldDesc, i: nat, primaryAlready: bool, hasData: bool)
    requires f.column.Some? && f.column.value.autoIncrement
    ensures var r := FieldCalls(f, i, primaryAlready, hasData);
      (IsLongType(f.typeName) ==> r.calls[0] == AutoIncrementCall(f.column.value.value, "BIGINT") && r.primaryAlready)
      && (IsIntType(f.typeName) ==> r.calls[0] == AutoIncrementCall(f.column.value.value, "INTEGER") && r.primaryAlready)
      && (!IsLongType(f.typeName) && !IsIntType(f.typeName) ==>
        r == FieldResult([], Some(IllegalArgument("Auto increment is only supported for long and int types")), primaryAlready))
  {
  }

  /** Primary and auto-increment together throw, after the auto-increment column was added. */
  lemma PrimaryAutoIncrementClash(f: FieldDesc, i: nat, primaryAlready: bool, hasData: bool)
    requires f.column.Some? && f.column.value.autoIncrement && f.column.value.primary
    requires IsLongType(f.typeName) || IsIntType(f.typeName)
    ensures var r := FieldCalls(f, i, primaryAlready, hasData);
      r.error == Some(IllegalArgument("A column cannot be both primary and auto increment"))
      && r.calls == [AutoIncrementCall(f.column.value.value, if IsLongType(f.typeName) then "BIGINT" else "INTEGER")]
  {
    var added := FieldColumn(f, primaryAlready, hasData).value;
    assert added.0 + ([] + []) == added.0;
  }

  /** A foreign key with an empty reference throws, after the column (and a primary mark) was added. */
  lemma EmptyForeignKeyReference(f: FieldDesc, i: nat, primaryAlready: bool, hasData: bool)
    requires f.column.Some? && f.column.value.foreignKey && f.column.value.foreignKeyReference == ""
    requires !(f.column.value.primary && f.column.value.autoIncrement)
    requires FieldColumn(f, primaryAlready, hasData).Ok?
    ensures var r := FieldCalls(f, i, primaryAlready, hasData);
      r.error == Some(IllegalArgument("Foreign key reference is empty"))
      && FieldColumn(f, primaryAlready, hasData).value.0 <= r.calls
      && (PrimaryCall in r.calls <==> f.column.value.primary)
  {
  }

  // ---------------------------------------------------------------- the consumer

  /** What the consumer did: the calls made, and the exception that ended it, if any. */
  datatype ConsumerOutcome = ConsumerOutcome(calls: seq<BuilderCall>, error: Option<Error>)

  /** What a field does, given the field, its index and the flag before it. */
  type FieldStep = (FieldDesc, nat, bool) -> FieldResult

  /** The consumer's field step, reading the field's value only when a data object was given. */
  function ConsumerStep(hasData: bool): FieldStep
  {
    (f: FieldDesc, i: nat, primaryAlready: bool) => FieldCalls(f, i, primaryAlready, hasData)
  }

  /** The field loop from field i on, with the flag as it stands: it stops at the first exception. */
  function RunFrom(fields: seq<FieldDesc>, step: FieldStep, i: nat, primaryAlready: bool): (r: ConsumerOutcome)
    requires i <= |fields|
    ensures (forall f, j, p :: ColumnLed(step(f, j, p).calls)) ==> ColumnLed(r.calls)
    ensures (forall f, j, p :: NoValues(step(f, j, p).calls)) ==> NoValues(r.calls)
    decreases |fields| - i
  {
    if i == |fields| then ConsumerOutcome([], None)
    else
      var r := step(fields[i], i, primaryAlready);
      if r.error.Some? then ConsumerOutcome(r.calls, r.error)
      else
        var rest := RunFrom(fields, step, i + 1, r.primaryAlready);
        ColumnLedAppend(r.calls, rest.calls);
        ConsumerOutcome(r.calls + rest.calls, rest.error)
  }

  /** The consumer applied: fields from 0, no primary key yet. */
  function Consumer(fields: seq<FieldDesc>, hasData: bool): ConsumerOutcome
  {
    RunFrom(fields, ConsumerStep(hasData), 0, false)
  }

  /**
   * createConsumerFromTemplate: the field count must match the first constructor's parameter
   * count, checked before any column is added; then the consumer over the fields.
   */
  function CreateConsumer(fields: seq<FieldDesc>, parameterCount: nat): (r: Result<seq<FieldDesc>, Error>)
    ensures r.Err? <==> |fields| != parameterCount
    ensures r.Err? ==> r.error == IllegalArgument("Fields count does not match constructor parameters count")
    ensures r.Ok? ==> r.value == fields
  {
    if |fields| != parameterCount then Err(IllegalArgument("Fields count does not match constructor parameters count"))
    else Ok(fields)
  }

  /** The field loop, stopping at the first exception with the calls made so far. */
  method RunFields(fields: seq<FieldDesc>, step: FieldStep) returns (calls: seq<BuilderCall>, error: Option<Error>)
    ensures ConsumerOutcome(calls, error) == RunFrom(fields, step, 0, false)
  {
    calls := [];
    var primaryAlready := false;
    var i := 0;
    while i < |fields|
      invariant 0 <= i <= |fields|
      invariant RunFrom(fields, step, 0, false).calls == calls + RunFrom(fields, step, i, primaryAlready).calls
      invariant RunFrom(fields, step, 0, false).error == RunFrom(fields, step, i, primaryAlready).error
    {
      var r := step(fields[i], i, primaryAlready);
      if r.error.Some? {
        return calls + r.calls, r.error;
      }
      ghost var rest := RunFrom(fields, step, i + 1, r.primaryAlready);
      assert calls + (r.calls + rest.calls) == calls + r.calls + rest.calls;
      calls := calls + r.calls;
      primaryAlready := r.primaryAlready;
      i := i + 1;
    }
    assert calls + [] == calls;
    error := None;
  }

  /** The consumer run on a schema: the field loop with the consumer's step. */
  method RunConsumer(fields: seq<FieldDesc>, hasData: bool) returns (calls: seq<BuilderCall>, error: Option<Error>)
    ensures ConsumerOutcome(calls, error) == Consumer(fields, hasData)
  {
    calls, error := RunFields(fields, ConsumerStep(hasData));
  }

  lemma ColumnLedAppend(a: seq<BuilderCall>, b: seq<BuilderCall>)
    ensures ColumnLed(a) && ColumnLed(b) ==> ColumnLed(a + b)
    ensures NoValues(a) && NoValues(b) ==> NoValues(a + b)
  {
    if |a| == 0 {
      assert a + b == b;
    }
  }

  /** data == null: no column the consumer adds carries a value. */
  lemma NoDataNoValues(fields: seq<FieldDesc>)
    ensures NoValues(Consumer(fields, false).calls)
  {
    assert forall f, j, p :: NoValues(ConsumerStep(false)(f, j, p).calls);
  }

  /** A call after the first column never finds the schema without a column. */
  lemma {:induction false} ColumnLedApplies(d: Descriptor, calls: seq<BuilderCall>)
    requires ColumnLed(calls) || (|d.columns| > 0 && forall k :: 0 <= k < |calls| ==> Emitted(calls[k]))
    ensures ApplyAll(d, calls).Ok?
    decreases |calls|
  {
    if |calls| > 0 {
      var call := calls[0];
      var r := Apply(d, call);
      if NeedsColumn(call) {
        ModifierTouchesOnlyLastColumn(d, call);
      } else {
        AdderKeepsColumns(d, call);
      }
      assert forall k :: 0 <= k < |calls[1..]| ==> calls[1..][k] == calls[k + 1];
      ColumnLedApplies(r.value, calls[1..]);
    }
  }

  /**
   * Headline for the consumer: whatever the fields, the calls it makes (up to an exception)
   * apply to any schema without an IllegalStateException.
   */
  lemma ConsumerCallsApply(d: Descriptor, fields: seq<FieldDesc>, hasData: bool)
    ensures ApplyAll(d, Consumer(fields, hasData).calls).Ok?
  {
    assert forall f, j, p :: ColumnLed(ConsumerStep(hasData)(f, j, p).calls);
    ColumnLedApplies(d, Consumer(fields, hasData).calls);
  }
}
