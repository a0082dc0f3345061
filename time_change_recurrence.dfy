/**
 * `TimeChangeRecurrence`: the recurrence rule of a time-zone transition, a
 * complex property with three optional fields. It writes its non-null fields
 * as XML elements in a fixed order and reads them back by element name,
 * ignoring letter case. Element values are carried as the enum values
 * themselves (the writer's and reader's text encoding is not modelled).
 */
module TimeChange {
  import opened Wrappers
  import opened JavaText

  datatype DayOfTheWeek = Sunday | Monday | Tuesday | Wednesday | Thursday | Friday | Saturday | Day | Weekday | WeekendDay
  datatype DayOfTheWeekIndex = First | Second | Third | Fourth | Last
  datatype Month = January | February | March | April | May | June | July | August | September | October | November | December

  datatype XmlNamespace = Types | Messages

  /** The content of an element, as read by `readElementValue`. */
  datatype ElementValue =
    | DayOfTheWeekValue(day: DayOfTheWeek)
    | DayOfTheWeekIndexValue(index: DayOfTheWeekIndex)
    | MonthValue(month: Month)
    | OtherValue(text: string)

  datatype XmlElement = XmlElement(namespace: XmlNamespace, localName: string, value: ElementValue)

  /** `readElementValue(C.class)` met content it cannot convert to `C`. */
  datatype ReadError = ValueNotConvertible(localName: string)

  /** The `XmlElementNames` constants used by this property. */
  const DaysOfWeekName: string := "DaysOfWeek"
  const DayOfWeekIndexName: string := "DayOfWeekIndex"
  const MonthName: string := "Month"

  /** The three fields; `None` is a null field. */
  datatype RecurrenceFields = RecurrenceFields(
    dayOfTheWeek: Option<DayOfTheWeek>,
    dayOfTheWeekIndex: Option<DayOfTheWeekIndex>,
    month: Option<Month>)

  const NoFields: RecurrenceFields := RecurrenceFields(None, None, None)

  function NonNullCount(f: RecurrenceFields): nat {
    (if f.dayOfTheWeek.Some? then 1 else 0) +
    (if f.dayOfTheWeekIndex.Some? then 1 else 0) +
    (if f.month.Some? then 1 else 0)
  }

  /**
   * What `writeElementsToXml` writes: one element per non-null field, in the
   * order DaysOfWeek, DayOfWeekIndex, Month, all in the Types namespace.
   */
  function WrittenElements(f: RecurrenceFields): (es: seq<XmlElement>)
    ensures |es| == NonNullCount(f)
    ensures es == [] <==> f == NoFields
    ensures forall i :: 0 <= i < |es| ==> es[i].namespace == Types
    ensures f.dayOfTheWeek.Some? ==> es[0] == XmlElement(Types, DaysOfWeekName, DayOfTheWeekValue(f.dayOfTheWeek.value))
    ensures f.month.Some? ==> es[|es| - 1] == XmlElement(Types, MonthName, MonthValue(f.month.value))
  {
    (if f.dayOfTheWeek.Some? then [XmlElement(Types, DaysOfWeekName, DayOfTheWeekValue(f.dayOfTheWeek.value))] else [])
    + (if f.dayOfTheWeekIndex.Some? then [XmlElement(Types, DayOfWeekIndexName, DayOfTheWeekIndexValue(f.dayOfTheWeekIndex.value))] else [])
    + (if f.month.Some? then [XmlElement(Types, MonthName, MonthValue(f.month.value))] else [])
  }

  /**
   * `tryReadElementFromXml` on the fields: the first element name equal to
   * the local name ignoring case selects the one field to set.
   */
  function ReadElement(f: RecurrenceFields, e: XmlElement): (RecurrenceFields, Result<bool, ReadError>) {
    if EqualsIgnoreCase(e.localName, DaysOfWeekName) then
      match e.value
      case DayOfTheWeekValue(d) => (f.(dayOfTheWeek := Some(d)), Success(true))
      case _ => (f, Failure(ValueNotConvertible(e.localName)))
    else if EqualsIgnoreCase(e.localName, DayOfWeekIndexName) then
      match e.value
      case DayOfTheWeekIndexValue(i) => (f.(dayOfTheWeekIndex := Some(i)), Success(true))
      case _ => (f, Failure(ValueNotConvertible(e.localName)))
    else if EqualsIgnoreCase(e.localName, MonthName) then
      match e.value
      case MonthValue(m) => (f.(month := Some(m)), Success(true))
      case _ => (f, Failure(ValueNotConvertible(e.localName)))
    else
      (f, Success(false))
  }

  /** Elements fed through `tryReadElementFromXml` in turn; the first exception ends the read. */
  function ReadAll(f: RecurrenceFields, es: seq<XmlElement>): Result<RecurrenceFields, ReadError>
    decreases |es|
  {
    if es == [] then Success(f)
    else
      var (g, r) := ReadElement(f, es[0]);
      if r.Failure? then Failure(r.error) else ReadAll(g, es[1..])
  }

  /** `f`'s non-null fields laid over `g`. */
  function Overlay(g: RecurrenceFields, f: RecurrenceFields): RecurrenceFields {
    RecurrenceFields(
      if f.dayOfTheWeek.Some? then f.dayOfTheWeek else g.dayOfTheWeek,
      if f.dayOfTheWeekIndex.Some? then f.dayOfTheWeekIndex else g.dayOfTheWeekIndex,
      if f.month.Some? then f.month else g.month)
  }

  /** No two of the three element names are equal ignoring case. */
  lemma ElementNamesDistinct()
    ensures !EqualsIgnoreCase(DaysOfWeekName, DayOfWeekIndexName)
    ensures !EqualsIgnoreCase(DaysOfWeekName, MonthName)
    ensures !EqualsIgnoreCase(DayOfWeekIndexName, MonthName)
  {
  }

  /** Each written element is recognised and sets exactly its own field. */
  lemma ReadWrittenElement(g: RecurrenceFields, e: XmlElement, f: RecurrenceFields)
    requires e in WrittenElements(f)
    ensures ReadElement(g, e).1 == Success(true)
    ensures e.localName == DaysOfWeekName ==> ReadElement(g, e).0 == g.(dayOfTheWeek := f.dayOfTheWeek)
    ensures e.localName == DayOfWeekIndexName ==> ReadElement(g, e).0 == g.(dayOfTheWeekIndex := f.dayOfTheWeekIndex)
    ensures e.localName == MonthName ==> ReadElement(g, e).0 == g.(month := f.month)
    ensures e.localName in {DaysOfWeekName, DayOfWeekIndexName, MonthName}
  {
    ElementNamesDistinct();
    EqualsIgnoreCaseIsEquivalence(e.localName, e.localName, e.localName);
  }

  /**
   * Reading back what was written restores every non-null field and leaves
   * the others as they were; from an empty recurrence it restores the value.
   */
  lemma {:induction false} ReadBackWrittenElements(g: RecurrenceFields, f: RecurrenceFields)
    ensures ReadAll(g, WrittenElements(f)) == Success(Overlay(g, f))
    ensures ReadAll(NoFields, WrittenElements(f)) == Success(f)
  {
    forall h | true
      ensures ReadAll(h, WrittenElements(f)) == Success(Overlay(h, f))
    {
      var es := WrittenElements(f);
      var a := if f.dayOfTheWeek.Some? then [XmlElement(Types, DaysOfWeekName, DayOfTheWeekValue(f.dayOfTheWeek.value))] else [];
      var b := if f.dayOfTheWeekIndex.Some? then [XmlElement(Types, DayOfWeekIndexName, DayOfTheWeekIndexValue(f.dayOfTheWeekIndex.value))] else [];
      var c := if f.month.Some? then [XmlElement(Types, MonthName, MonthValue(f.month.value))] else [];
      assert es == a + b + c;
      ElementNamesDistinct();
      EqualsIgnoreCaseIsEquivalence(DaysOfWeekName, DaysOfWeekName, DaysOfWeekName);
      EqualsIgnoreCaseIsEquivalence(DayOfWeekIndexName, DayOfWeekIndexName, DayOfWeekIndexName);
      EqualsIgnoreCaseIsEquivalence(MonthName, MonthName, MonthName);
      var h1 := if f.dayOfTheWeek.Some? then h.(dayOfTheWeek := f.dayOfTheWeek) else h;
      var h2 := if f.dayOfTheWeekIndex.Some? then h1.(dayOfTheWeekIndex := f.dayOfTheWeekIndex) else h1;
      var h3 := if f.month.Some? then h2.(month := f.month) else h2;
      ReadAllAppend(h2, c, h3);
      ReadAllAppend(h1, b, h2);
      ReadAllAppend(h, a, h1);
      ReadAllConcat(h, a, b + c, h1);
      ReadAllConcat(h1, b, c, h2);
      assert a + b + c == a + (b + c);
      assert h3 == Overlay(h, f);
    }
  }

  /** One recognised element, read alone. */
  lemma ReadAllAppend(h: RecurrenceFields, es: seq<XmlElement>, h': RecurrenceFields)
    requires |es| <= 1
    requires es == [] ==> h' == h
    requires |es| == 1 ==> ReadElement(h, es[0]) == (h', Success(true))
    ensures ReadAll(h, es) == Success(h')
  {
    if |es| == 1 {
      assert es[1..] == [];
    }
  }

  /** Reading a concatenation: a prefix that reads cleanly hands its fields on to the rest. */
  lemma {:induction false} ReadAllConcat(h: RecurrenceFields, xs: seq<XmlElement>, ys: seq<XmlElement>, h': RecurrenceFields)
    requires ReadAll(h, xs) == Success(h')
    ensures ReadAll(h, xs + ys) == ReadAll(h', ys)
    decreases |xs|
  {
    if xs == [] {
      assert xs + ys == ys;
    } else {
      var (g, r) := ReadElement(h, xs[0]);
      assert (xs + ys)[0] == xs[0];
      assert (xs + ys)[1..] == xs[1..] + ys;
      ReadAllConcat(g, xs[1..], ys, h');
    }
  }

  /** An element name matching none of the three leaves the fields unchanged and is not consumed. */
  lemma UnknownElementIgnored(f: RecurrenceFields, e: XmlElement)
    requires !EqualsIgnoreCase(e.localName, DaysOfWeekName)
    requires !EqualsIgnoreCase(e.localName, DayOfWeekIndexName)
    requires !EqualsIgnoreCase(e.localName, MonthName)
    ensures ReadElement(f, e) == (f, Success(false))
  {
  }

  /** Names are compared ignoring case: "MONTH" sets the month. */
  lemma NameCaseIgnored(f: RecurrenceFields, m: Month)
    ensures ReadElement(f, XmlElement(Types, "MONTH", MonthValue(m))) == (f.(month := Some(m)), Success(true))
  {
    assert EqualsIgnoreCase("MONTH", MonthName) by {
      assert FoldCase('M') == 'm' && FoldCase('O') == 'o' && FoldCase('N') == 'n' && FoldCase('T') == 't' && FoldCase('H') == 'h';
    }
  }

  /** The writer the elements are appended to. */
  class EwsServiceXmlWriter {
    var written: seq<XmlElement>

    constructor ()
      ensures written == []
    {
      written := [];
    }

    /** `writeElementValue(namespace, localName, value)`. */
    method WriteElementValue(namespace: XmlNamespace, localName: string, value: ElementValue)
      modifies this
      ensures written == old(written) + [XmlElement(namespace, localName, value)]
    {
      written := written + [XmlElement(namespace, localName, value)];
    }
  }

  class TimeChangeRecurrence {
    var dayOfTheWeek: Option<DayOfTheWeek>
    var dayOfTheWeekIndex: Option<DayOfTheWeekIndex>
    var month: Option<Month>
    /** How many times `changed()` has been called. */
    var changeCount: nat

    function Fields(): RecurrenceFields
      reads this
    {
      RecurrenceFields(dayOfTheWeek, dayOfTheWeekIndex, month)
    }

    /** The no-argument constructor: every field null. */
    constructor Empty()
      ensures Fields() == NoFields && changeCount == 0
    {
      dayOfTheWeek, dayOfTheWeekIndex, month := None, None, None;
      changeCount := 0;
    }

    /** The three-argument constructor, in the source's argument order. */
    constructor (dayOfTheWeekIndex: Option<DayOfTheWeekIndex>, dayOfTheWeek: Option<DayOfTheWeek>, month: Option<Month>)
      ensures this.dayOfTheWeekIndex == dayOfTheWeekIndex && this.dayOfTheWeek == dayOfTheWeek && this.month == month
      ensures changeCount == 0
    {
      this.dayOfTheWeekIndex := dayOfTheWeekIndex;
      this.dayOfTheWeek := dayOfTheWeek;
      this.month := month;
      changeCount := 0;
    }

    /** `setDayOfTheWeek`, guarded by `canSetFieldValue(old, new)`. */
    method SetDayOfTheWeek(value: Option<DayOfTheWeek>, canSetFieldValue: (Option<DayOfTheWeek>, Option<DayOfTheWeek>) -> bool)
      modifies this
      ensures canSetFieldValue(old(dayOfTheWeek), value) ==> dayOfTheWeek == value && changeCount == old(changeCount) + 1
      ensures !canSetFieldValue(old(dayOfTheWeek), value) ==> dayOfTheWeek == old(dayOfTheWeek) && changeCount == old(changeCount)
      ensures dayOfTheWeekIndex == old(dayOfTheWeekIndex) && month == old(month)
    {
      if canSetFieldValue(dayOfTheWeek, value) {
        dayOfTheWeek := value;
        changeCount := changeCount + 1;
      }
    }

    /** `setDayOfTheWeekIndex`, guarded by `canSetFieldValue(old, new)`. */
    method SetDayOfTheWeekIndex(value: Option<DayOfTheWeekIndex>,
                                canSetFieldValue: (Option<DayOfTheWeekIndex>, Option<DayOfTheWeekIndex>) -> bool)
      modifies this
      ensures canSetFieldValue(old(dayOfTheWeekIndex), value) ==>
        dayOfTheWeekIndex == value && changeCount == old(changeCount) + 1
      ensures !canSetFieldValue(old(dayOfTheWeekIndex), value) ==>
        dayOfTheWeekIndex == old(dayOfTheWeekIndex) && changeCount == old(changeCount)
      ensures dayOfTheWeek == old(dayOfTheWeek) && month == old(month)
    {
      if canSetFieldValue(dayOfTheWeekIndex, value) {
        dayOfTheWeekIndex := value;
        changeCount := changeCount + 1;
      }
    }

    /** `setMonth`, guarded by `canSetFieldValue(old, new)`. */
    method SetMonth(value: Option<Month>, canSetFieldValue: (Option<Month>, Option<Month>) -> bool)
      modifies this
      ensures canSetFieldValue(old(month), value) ==> month == value && changeCount == old(changeCount) + 1
      ensures !canSetFieldValue(old(month), value) ==> month == old(month) && changeCount == old(changeCount)
      ensures dayOfTheWeek == old(dayOfTheWeek) && dayOfTheWeekIndex == old(dayOfTheWeekIndex)
    {
      if canSetFieldValue(month, value) {
        month := value;
        changeCount := changeCount + 1;
      }
    }

    /** `writeElementsToXml`: appends the non-null fields' elements to the writer. */
    method WriteElementsToXml(writer: EwsServiceXmlWriter)
      modifies writer
      ensures writer.written == old(writer.written) + WrittenElements(Fields())
    {
      if dayOfTheWeek.Some? {
        writer.WriteElementValue(Types, DaysOfWeekName, DayOfTheWeekValue(dayOfTheWeek.value));
      }
      if dayOfTheWeekIndex.Some? {
        writer.WriteElementValue(Types, DayOfWeekIndexName, DayOfTheWeekIndexValue(dayOfTheWeekIndex.value));
      }
      if month.Some? {
        writer.WriteElementValue(Types, MonthName, MonthValue(month.value));
      }
    }

    /**
     * `tryReadElementFromXml(reader)`, for the reader positioned on `element`.
     * A recognised name sets its field directly (no guard, no `changed()`).
     */
    method TryReadElementFromXml(element: XmlElement) returns (r: Result<bool, ReadError>)
      modifies this
      ensures (Fields(), r) == ReadElement(old(Fields()), element)
      ensures changeCount == old(changeCount)
    {
      if EqualsIgnoreCase(element.localName, DaysOfWeekName) {
        match element.value {
          case DayOfTheWeekValue(d) =>
            dayOfTheWeek := Some(d);
            r := Success(true);
          case _ =>
            r := Failure(ValueNotConvertible(element.localName));
        }
      } else if EqualsIgnoreCase(element.localName, DayOfWeekIndexName) {
        match element.value {
          case DayOfTheWeekIndexValue(i) =>
            dayOfTheWeekIndex := Some(i);
            r := Success(true);
          case _ =>
            r := Failure(ValueNotConvertible(element.localName));
        }
      } else if EqualsIgnoreCase(element.localName, MonthName) {
        match element.value {
          case MonthValue(m) =>
            month := Some(m);
            r := Success(true);
          case _ =>
            r := Failure(ValueNotConvertible(element.localName));
        }
      } else {
        r := Success(false);
      }
    }
  }
}
