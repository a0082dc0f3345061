/**
 * `MapiTypeConverterMapEntry`: the per-type converter and validator for
 * extended (MAPI) property values, with its process-wide table of default
 * values. Java's classes become the closed `ClassId` datatype and Java's
 * objects the tagged `Value` datatype; a `null` reference is `None`.
 */
module MapiTypeConverter {
  import opened Wrappers
  import opened JavaText
  import opened Exceptions

  /** The runtime classes a property value can have; `ArrayOf(c)` is the array class `c[]`. */
  datatype ClassId =
    | Boolean | Byte | Short | Integer | Long | Float | Double | Date | Uuid | String
    | ArrayOf(component: ClassId)

  /**
   * A non-null Java object. Integral values carry their number; floating-point,
   * date and UUID values carry an opaque token that also serves as their printed
   * form; an array carries its component class and its elements.
   */
  datatype Value =
    | BooleanValue(b: bool)
    | ByteValue(n: int)
    | ShortValue(n: int)
    | IntegerValue(n: int)
    | LongValue(n: int)
    | FloatValue(token: string)
    | DoubleValue(token: string)
    | DateValue(token: string)
    | UuidValue(token: string)
    | StringValue(s: string)
    | ArrayValue(component: ClassId, elements: seq<Option<Value>>)

  /** `value.getClass()`. */
  function ClassOf(v: Value): (c: ClassId)
    ensures c.ArrayOf? <==> v.ArrayValue?
    ensures v.ArrayValue? ==> c.component == v.component
  {
    match v
    case BooleanValue(_) => Boolean
    case ByteValue(_) => Byte
    case ShortValue(_) => Short
    case IntegerValue(_) => Integer
    case LongValue(_) => Long
    case FloatValue(_) => Float
    case DoubleValue(_) => Double
    case DateValue(_) => Date
    case UuidValue(_) => Uuid
    case StringValue(_) => String
    case ArrayValue(c, _) => ArrayOf(c)
  }

  /** `Class.getName()`. */
  function ClassName(c: ClassId): (name: string)
    ensures |name| > 0
    ensures name[0] == '[' <==> c.ArrayOf?
  {
    match c
    case Boolean => "java.lang.Boolean"
    case Byte => "java.lang.Byte"
    case Short => "java.lang.Short"
    case Integer => "java.lang.Integer"
    case Long => "java.lang.Long"
    case Float => "java.lang.Float"
    case Double => "java.lang.Double"
    case Date => "java.util.Date"
    case Uuid => "java.util.UUID"
    case String => "java.lang.String"
    case ArrayOf(e) => "[" + (if e.ArrayOf? then ClassName(e) else "L" + ClassName(e) + ";")
  }

  /** `String.valueOf(o)`, which is also `o + ""`; an array's identity hash code is left out. */
  function ValueOf(o: Option<Value>): (text: string)
    ensures o.None? ==> text == "null"
    ensures o.Some? && o.value.StringValue? ==> text == o.value.s
    ensures o.Some? && o.value.BooleanValue? ==> (ParseBoolean(text) <==> o.value.b)
    ensures o.Some? && (o.value.ByteValue? || o.value.ShortValue? || o.value.IntegerValue? || o.value.LongValue?) ==>
      text == IntToString(o.value.n)
    ensures o.Some? && o.value.ArrayValue? ==> ClassName(ClassOf(o.value)) <= text
  {
    match o
    case None => "null"
    case Some(v) =>
      match v
      case BooleanValue(b) => if b then "true" else "false"
      case ByteValue(n) => IntToString(n)
      case ShortValue(n) => IntToString(n)
      case IntegerValue(n) => IntToString(n)
      case LongValue(n) => IntToString(n)
      case FloatValue(t) => t
      case DoubleValue(t) => t
      case DateValue(t) => t
      case UuidValue(t) => t
      case StringValue(s) => s
      case ArrayValue(c, _) => ClassName(ArrayOf(c)) + "@"
  }

  /** The number of array levels of a class: what `getDim` counts. */
  function Dim(c: ClassId): nat {
    if c.ArrayOf? then 1 + Dim(c.component) else 0
  }

  /** The class `c` wrapped in `k` array levels. */
  function Nest(c: ClassId, k: nat): ClassId {
    if k == 0 then c else ArrayOf(Nest(c, k - 1))
  }

  /** `getDim` recovers the nesting depth of `k` array levels around a non-array class. */
  lemma {:induction false} DimOfNest(c: ClassId, k: nat)
    requires !c.ArrayOf?
    ensures Dim(Nest(c, k)) == k
  {
    if k > 0 {
      DimOfNest(c, k - 1);
    }
  }

  /** A value has dimension 0 exactly when it is not an array. */
  lemma DimZeroIffNotArray(v: Value)
    ensures Dim(ClassOf(v)) == 0 <==> !v.ArrayValue?
    ensures v.ArrayValue? ==> Dim(ClassOf(v)) == 1 + Dim(v.component)
  {
  }

  /** The default-value table, keyed by class. `Byte[]` and `String` map to `null`. */
  const DefaultValueMap: map<ClassId, Option<Value>> := map[
    Boolean := Some(BooleanValue(false)),
    ArrayOf(Byte) := None,
    Short := Some(ShortValue(0)),
    Integer := Some(IntegerValue(0)),
    Long := Some(LongValue(0)),
    Float := Some(FloatValue("0.0")),
    Double := Some(DoubleValue("0.0")),
    Date := Some(DateValue("0001-01-01 12:00:00")),
    Uuid := Some(UuidValue("00000000-0000-0000-0000-000000000000")),
    String := None
  ]

  predicate HasDefault(c: ClassId) {
    c in DefaultValueMap
  }

  /**
   * The table has an entry for exactly the ten supported classes, and every
   * non-null default is a value of its own class.
   */
  lemma DefaultTableShape(c: ClassId)
    ensures HasDefault(c) <==>
      c in {Boolean, ArrayOf(Byte), Short, Integer, Long, Float, Double, Date, Uuid, String}
    ensures HasDefault(c) && DefaultValueMap[c].Some? ==> ClassOf(DefaultValueMap[c].value) == c
    ensures HasDefault(c) && DefaultValueMap[c].None? <==> c == String || c == ArrayOf(Byte)
  {
  }

  /** What a `parse` function does with a string: returns an object (possibly null) or throws. */
  datatype ParseOutcome = Parsed(value: Option<Value>) | Threw(exception: JavaException)

  /** The constructor's parse function: the string itself. */
  function IdentityParse(s: string): ParseOutcome {
    Parsed(Some(StringValue(s)))
  }

  /** The constructor's assertion message as written: `String.format` leaves the C#-style `{0}` in place. */
  function NoDefaultMessageAsWritten(c: ClassId): string {
    "No default value entry for type {0}"
  }

  /** Whatever the class, the message as written does not end with its name. */
  lemma NoDefaultMessageOmitsTypeName(c: ClassId)
    ensures |ClassName(c)| > |NoDefaultMessageAsWritten(c)|
      || ClassName(c) != NoDefaultMessageAsWritten(c)[|NoDefaultMessageAsWritten(c)| - |ClassName(c)|..]
  {
    var m := NoDefaultMessageAsWritten(c);
    if |ClassName(c)| <= |m| {
      assert m[|m| - 1] == '}';
      ClassNameLastChar(c);
    }
  }

  /** `getName()` tells classes apart: no two classes share a name. */
  lemma {:induction false} ClassNameInjective(c: ClassId, d: ClassId)
    ensures ClassName(c) == ClassName(d) ==> c == d
  {
    if c.ArrayOf? && d.ArrayOf? {
      var e, f := c.component, d.component;
      if e.ArrayOf? != f.ArrayOf? {
        assert ClassName(c)[1] != ClassName(d)[1];
      } else if e.ArrayOf? {
        assert ClassName(c)[1..] == ClassName(e) && ClassName(d)[1..] == ClassName(f);
        ClassNameInjective(e, f);
      } else {
        var n, m := ClassName(c), ClassName(d);
        assert n[2..|n| - 1] == ClassName(e) && m[2..|m| - 1] == ClassName(f);
      }
    }
  }

  lemma {:induction false} ClassNameLastChar(c: ClassId)
    ensures |ClassName(c)| > 0 && ClassName(c)[|ClassName(c)| - 1] != '}'
  {
    match c
    case ArrayOf(e) =>
      if e.ArrayOf? {
        ClassNameLastChar(e);
        assert ClassName(c) == "[" + ClassName(e);
      } else {
        assert ClassName(c) == "[" + ("L" + ClassName(e) + ";");
      }
    case _ =>
  }

  /** The assertion message the constructor evidently means: it names the class. */
  function NoDefaultMessage(c: ClassId): (m: string)
    ensures |m| >= |ClassName(c)| && m[|m| - |ClassName(c)|..] == ClassName(c)
  {
    "No default value entry for type " + ClassName(c)
  }

  class MapiTypeConverterMapEntry {
    var isArray: bool
    /** The Java field `type` (`type` is a Dafny keyword). */
    var declaredType: ClassId
    var convertToString: Option<Value> -> string
    var parse: string -> ParseOutcome

    /** The constructor; its `EwsAssert` demands a default-table entry for the class. */
    constructor (t: ClassId)
      requires HasDefault(t)
      ensures declaredType == t && !isArray
      ensures parse == IdentityParse && convertToString == ValueOf
    {
      isArray := false;
      declaredType := t;
      convertToString := ValueOf;
      parse := IdentityParse;
    }

    /** Construction with the assertion checked: a class without a default is refused. */
    static method Create(t: ClassId) returns (r: Result<MapiTypeConverterMapEntry, JavaException>)
      ensures r.Success? <==> HasDefault(t)
      ensures r.Success? ==> fresh(r.value) && r.value.declaredType == t && !r.value.isArray
      ensures r.Success? ==> r.value.parse == IdentityParse && r.value.convertToString == ValueOf
      ensures r.Failure? ==> r.error == AssertionFailure(Text(NoDefaultMessage(t)))
    {
      if HasDefault(t) {
        var entry := new MapiTypeConverterMapEntry(t);
        r := Success(entry);
      } else {
        r := Failure(AssertionFailure(Text(NoDefaultMessage(t))));
      }
    }

    method SetType(cls: ClassId)
      modifies this
      ensures declaredType == cls
      ensures isArray == old(isArray) && parse == old(parse) && convertToString == old(convertToString)
    {
      declaredType := cls;
    }

    method SetIsArray(value: bool)
      modifies this
      ensures isArray == value
      ensures declaredType == old(declaredType) && parse == old(parse) && convertToString == old(convertToString)
    {
      isArray := value;
    }

    method SetConvertToString(value: Option<Value> -> string)
      modifies this
      ensures convertToString == value
      ensures isArray == old(isArray) && declaredType == old(declaredType) && parse == old(parse)
    {
      convertToString := value;
    }

    method SetParse(value: string -> ParseOutcome)
      modifies this
      ensures parse == value
      ensures isArray == old(isArray) && declaredType == old(declaredType) && convertToString == old(convertToString)
    {
      parse := value;
    }

    /** `getDefaultValue()`: the table entry for the entry's class; `HashMap.get` gives `null` for a missing key. */
    function GetDefaultValue(): (r: Option<Value>)
      reads this
      ensures HasDefault(declaredType) ==> r == DefaultValueMap[declaredType]
      ensures !HasDefault(declaredType) ==> r == None
      ensures r.Some? ==> ClassOf(r.value) == declaredType
    {
      if declaredType in DefaultValueMap then DefaultValueMap[declaredType] else None
    }

    /**
     * `convertToValue(s)`: the parse result, unchanged; a `ClassCastException`
     * or `NumberFormatException` from the parser becomes a
     * `ServiceXmlDeserializationException` naming the string and the class.
     */
    function ConvertToValue(s: string): (r: Result<Option<Value>, JavaException>)
      reads this
      ensures parse(s).Parsed? ==> r == Success(parse(s).value)
      ensures parse(s).Threw? && (parse(s).exception.ClassCastException? || parse(s).exception.NumberFormatException?) ==>
        r == Failure(ServiceXmlDeserializationException(
          Formatted(ValueCannotBeConverted, [Text(s), Text(ClassName(declaredType))]), Some(parse(s).exception)))
      ensures parse(s).Threw? && !parse(s).exception.ClassCastException? && !parse(s).exception.NumberFormatException? ==>
        r == Failure(parse(s).exception)
    {
      match parse(s)
      case Parsed(v) => Success(v)
      case Threw(e) =>
        if e.ClassCastException? || e.NumberFormatException? then
          Failure(ServiceXmlDeserializationException(
            Formatted(ValueCannotBeConverted, [Text(s), Text(ClassName(declaredType))]), Some(e)))
        else
          Failure(e)
    }

    /** `ConvertToValueOrDefault(s)`: the default for a null or empty string, `convertToValue(s)` otherwise. */
    function ConvertToValueOrDefault(s: Option<string>): (r: Result<Option<Value>, JavaException>)
      reads this
      ensures (s.None? || s.value == "") ==> r == Success(GetDefaultValue())
      ensures s.Some? && s.value != "" ==> r == ConvertToValue(s.value)
    {
      if s.None? || s.value == "" then Success(GetDefaultValue()) else ConvertToValue(s.value)
    }

    /** The array checks of `validateValueAsArray`, with "is an array" as the test on `ArrayValue`. */
    function ValidateValueAsArray(value: Option<Value>): (r: Outcome<JavaException>)
      reads this
      ensures r.Pass? <==>
        value.Some? && value.value.ArrayValue? && Dim(ClassOf(value.value)) == 1 &&
        |value.value.elements| > 0 && value.value.component == declaredType
      ensures value.None? ==> r == Fail(NullPointerException)
      ensures value.Some? && !value.value.ArrayValue? ==>
        r == Fail(ArgumentException(IncompatibleArrayMessage(ClassOf(value.value), declaredType), None))
      ensures value.Some? && value.value.ArrayValue? && Dim(ClassOf(value.value)) != 1 ==>
        r == Fail(ArgumentException(Formatted(ArrayMustHaveSingleDimension, []), None))
      ensures value.Some? && value.value.ArrayValue? && Dim(ClassOf(value.value)) == 1 && |value.value.elements| == 0 ==>
        r == Fail(ArgumentException(Formatted(ArrayMustHaveAtLeastOneElement, []), None))
      ensures (value.Some? && value.value.ArrayValue? && Dim(ClassOf(value.value)) == 1 && |value.value.elements| > 0 &&
               value.value.component != declaredType) ==>
        r == Fail(ArgumentException(IncompatibleArrayMessage(ClassOf(value.value), declaredType), None))
    {
      if value.None? then Fail(NullPointerException)
      else
        var v := value.value;
        if !v.ArrayValue? then Fail(ArgumentException(IncompatibleArrayMessage(ClassOf(v), declaredType), None))
        else if Dim(ClassOf(v)) != 1 then Fail(ArgumentException(Formatted(ArrayMustHaveSingleDimension, []), None))
        else if |v.elements| == 0 then Fail(ArgumentException(Formatted(ArrayMustHaveAtLeastOneElement, []), None))
        else if v.component != declaredType then
          Fail(ArgumentException(IncompatibleArrayMessage(ClassOf(v), declaredType), None))
        else Pass
    }

    /**
     * `validateValueAsArray` as written: `value instanceof java.lang.reflect.Array`
     * never holds, so `array` stays null and every value is rejected.
     */
    function ValidateValueAsArrayAsWritten(value: Option<Value>): (r: Outcome<JavaException>)
      reads this
      ensures r.Fail?
    {
      if value.None? then Fail(NullPointerException)
      else Fail(ArgumentException(IncompatibleArrayMessage(ClassOf(value.value), declaredType), None))
    }

    /**
     * `changeType(value)`. An array entry validates the value and returns it
     * unchanged; otherwise a value of exactly the declared class is returned
     * unchanged and a mismatched one is coerced through its printed form.
     */
    function ChangeType(value: Option<Value>, parseDate: string -> Option<Value>): (r: Result<Option<Value>, JavaException>)
      reads this
      ensures isArray ==> (r.Success? <==> ValidateValueAsArray(value).Pass?)
      ensures isArray && r.Success? ==> r.value == value
      ensures isArray && r.Failure? ==> r.error == ValidateValueAsArray(value).error
      ensures !isArray && value.None? ==> r == Failure(NullPointerException)
      ensures !isArray && value.Some? && ClassOf(value.value) == declaredType ==> r == Success(value)
      ensures !isArray && value.Some? && ClassOf(value.value) != declaredType ==>
        r == CoerceScalar(declaredType, value.value, parseDate)
    {
      if isArray then
        match ValidateValueAsArray(value)
        case Pass => Success(value)
        case Fail(e) => Failure(e)
      else if value.None? then Failure(NullPointerException)
      else if ClassOf(value.value) == declaredType then Success(value)
      else CoerceScalar(declaredType, value.value, parseDate)
    }
  }

  /** The message of the "incompatible type for array" rejection: the value's class and the declared class. */
  function IncompatibleArrayMessage(valueClass: ClassId, declared: ClassId): Message {
    Formatted(IncompatibleTypeForArray, [Text(ClassName(valueClass)), Text(ClassName(declared))])
  }

  /**
   * The coercion branch of `changeType`: an `Integer` target runs
   * `Integer.parseInt` on the printed value, a `Date` target the date parser,
   * a `Boolean` target `Boolean.parseBoolean`; every other target yields
   * `null`, because the `isInstance(String.class)` probe never holds.
   */
  function CoerceScalar(target: ClassId, v: Value, parseDate: string -> Option<Value>): (r: Result<Option<Value>, JavaException>)
    ensures target == Integer ==> (r.Success? <==> ParseInt(ValueOf(Some(v))).Some?)
    ensures target == Integer && r.Success? ==>
      r.value == Some(IntegerValue(ParseInt(ValueOf(Some(v))).value)) && IsInt32(r.value.value.n)
    ensures target == Integer && r.Failure? ==> r.error == NumberFormatException(ValueOf(Some(v)))
    ensures target == Date ==> (r.Success? <==> parseDate(ValueOf(Some(v))).Some?)
    ensures target == Date && r.Success? ==> r.value == parseDate(ValueOf(Some(v)))
    ensures target == Date && r.Failure? ==> r.error == ParseException(ValueOf(Some(v)))
    ensures target == Boolean ==> r == Success(Some(BooleanValue(ParseBoolean(ValueOf(Some(v))))))
    ensures target !in {Integer, Date, Boolean} ==> r == Success(None)
  {
    var text := ValueOf(Some(v));
    if target == Integer then
      match ParseInt(text)
      case Some(n) => Success(Some(IntegerValue(n)))
      case None => Failure(NumberFormatException(text))
    else if target == Date then
      match parseDate(text)
      case Some(d) => Success(Some(d))
      case None => Failure(ParseException(text))
    else if target == Boolean then
      Success(Some(BooleanValue(ParseBoolean(text))))
    else
      Success(None)
  }

  /** `getDim(array)` (the parameter is renamed: `array` is a Dafny keyword): follows component classes while the class is an array class. */
  method GetDim(obj: Value) returns (dim: int)
    ensures dim == Dim(ClassOf(obj))
    ensures dim == 0 <==> !obj.ArrayValue?
  {
    dim := 0;
    var cls := ClassOf(obj);
    while cls.ArrayOf?
      invariant 0 <= dim
      invariant dim + Dim(cls) == Dim(ClassOf(obj))
      invariant dim > 0 ==> obj.ArrayValue?
      invariant !obj.ArrayValue? ==> cls == ClassOf(obj)
      decreases cls
    {
      dim := dim + 1;
      cls := cls.component;
    }
  }

  // ---- properties of the conversions ----

  /** The Findings row: a one-element `Integer[]` passes the intended checks but is rejected as written. */
  lemma ArrayCheckAsWrittenRejectsValidArray(e: MapiTypeConverterMapEntry)
    requires e.declaredType == Integer
    ensures e.ValidateValueAsArray(Some(ArrayValue(Integer, [Some(IntegerValue(7))]))).Pass?
    ensures e.ValidateValueAsArrayAsWritten(Some(ArrayValue(Integer, [Some(IntegerValue(7))]))).Fail?
  {
  }

  /** The four rejections of an array entry are distinct errors, raised in the source's order. */
  lemma ArrayRejectionsAreDistinct(e: MapiTypeConverterMapEntry, pd: string -> Option<Value>)
    requires e.isArray && e.declaredType == Integer
    ensures var notArray := e.ChangeType(Some(IntegerValue(1)), pd);
            var twoDims := e.ChangeType(Some(ArrayValue(ArrayOf(Integer), [])), pd);
            var empty := e.ChangeType(Some(ArrayValue(Integer, [])), pd);
            var wrongElement := e.ChangeType(Some(ArrayValue(Long, [Some(LongValue(1))])), pd);
            && notArray == Failure(ArgumentException(IncompatibleArrayMessage(Integer, Integer), None))
            && twoDims == Failure(ArgumentException(Formatted(ArrayMustHaveSingleDimension, []), None))
            && empty == Failure(ArgumentException(Formatted(ArrayMustHaveAtLeastOneElement, []), None))
            && wrongElement == Failure(ArgumentException(IncompatibleArrayMessage(ArrayOf(Long), Integer), None))
            && notArray != twoDims && twoDims != empty && empty != wrongElement && notArray != wrongElement
  {
    assert Dim(ArrayOf(ArrayOf(Integer))) == 2;
    assert ClassName(Integer) != ClassName(ArrayOf(Long)) by {
      assert ClassName(Integer)[0] == 'j' && ClassName(ArrayOf(Long))[0] == '[';
    }
  }

  /** An `Integer` entry coerces any 32-bit integral value to the `Integer` of the same number. */
  lemma IntegerTargetKeepsIntegralValue(e: MapiTypeConverterMapEntry, v: Value, pd: string -> Option<Value>)
    requires !e.isArray && e.declaredType == Integer
    requires (v.ShortValue? || v.ByteValue? || v.LongValue? || v.IntegerValue?) && IsInt32(v.n)
    ensures e.ChangeType(Some(v), pd) == Success(Some(IntegerValue(v.n)))
  {
    ParseIntOfIntToString(v.n);
  }

  /** An `Integer` entry turns the string "42" into 42 and rejects "4x2" with a `NumberFormatException`. */
  lemma IntegerTargetParsesStrings(e: MapiTypeConverterMapEntry, pd: string -> Option<Value>)
    requires !e.isArray && e.declaredType == Integer
    ensures e.ChangeType(Some(StringValue("42")), pd) == Success(Some(IntegerValue(42)))
    ensures e.ChangeType(Some(StringValue("4x2")), pd) == Failure(NumberFormatException("4x2"))
  {
    assert ValueOf(Some(StringValue("42"))) == IntToString(42) by {
      assert NatToString(42) == NatToString(4) + [DigitChar(2)];
    }
    ParseIntOfIntToString(42);
    assert !IsDigit("4x2"[1]);
  }

  /** A `Boolean` entry is true exactly for a printed form equal to "true" ignoring case. */
  lemma BooleanTargetUsesParseBoolean(e: MapiTypeConverterMapEntry, v: Value, pd: string -> Option<Value>)
    requires !e.isArray && e.declaredType == Boolean && !v.BooleanValue?
    ensures e.ChangeType(Some(v), pd) == Success(Some(BooleanValue(EqualsIgnoreCase(ValueOf(Some(v)), "true"))))
  {
  }

  /** A `String` entry given a value of another class returns null: the `String` branch is never reached. */
  lemma StringTargetYieldsNull(e: MapiTypeConverterMapEntry, v: Value, pd: string -> Option<Value>)
    requires !e.isArray && e.declaredType == String && !v.StringValue?
    ensures e.ChangeType(Some(v), pd) == Success(None)
  {
  }

  /** An array entry returns an accepted array unchanged. */
  lemma ArrayEntryReturnsValidArray(e: MapiTypeConverterMapEntry, elements: seq<Option<Value>>, pd: string -> Option<Value>)
    requires e.isArray && !e.declaredType.ArrayOf? && |elements| > 0
    ensures e.ChangeType(Some(ArrayValue(e.declaredType, elements)), pd) == Success(Some(ArrayValue(e.declaredType, elements)))
  {
  }

  /** With the constructor's parse function, `convertToValue` returns the string itself. */
  lemma DefaultParseIsIdentity(e: MapiTypeConverterMapEntry, s: string)
    requires e.parse == IdentityParse
    ensures e.ConvertToValue(s) == Success(Some(StringValue(s)))
    ensures s != "" ==> e.ConvertToValueOrDefault(Some(s)) == Success(Some(StringValue(s)))
  {
  }

  /** A null or empty string gives the table's default for the entry's class: `false`, zero, the zero UUID or null. */
  lemma MissingStringGivesDefault(e: MapiTypeConverterMapEntry, s: Option<string>)
    requires s.None? || s == Some("")
    ensures e.declaredType == Boolean ==> e.ConvertToValueOrDefault(s) == Success(Some(BooleanValue(false)))
    ensures e.declaredType == Integer ==> e.ConvertToValueOrDefault(s) == Success(Some(IntegerValue(0)))
    ensures e.declaredType == Short ==> e.ConvertToValueOrDefault(s) == Success(Some(ShortValue(0)))
    ensures e.declaredType == Long ==> e.ConvertToValueOrDefault(s) == Success(Some(LongValue(0)))
    ensures e.declaredType == Uuid ==>
      e.ConvertToValueOrDefault(s) == Success(Some(UuidValue("00000000-0000-0000-0000-000000000000")))
    ensures e.declaredType in {String, ArrayOf(Byte)} ==> e.ConvertToValueOrDefault(s) == Success(None)
  {
  }

  /** A parser that throws `NumberFormatException` makes `convertToValue` fail with a deserialization error naming the string. */
  lemma NumberFormatBecomesDeserializationError(e: MapiTypeConverterMapEntry, s: string)
    requires e.parse(s) == Threw(NumberFormatException(s))
    ensures e.ConvertToValue(s).Failure?
    ensures e.ConvertToValue(s).error.ServiceXmlDeserializationException?
    ensures e.ConvertToValue(s).error.message.args[0] == Text(s)
    ensures e.ConvertToValue(s).error.cause == Some(NumberFormatException(s))
  {
  }
}
