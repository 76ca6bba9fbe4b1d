/** Temporal functions of the lazy expression DSL: the closed set of date/time
    field extractions a plan can apply to a column, and the canonical text each
    one prints as in a rendered expression plan. */
module Datetime {

  /** The granularity a timestamp conversion is asked for. The type lives
      outside this file; its three variants here are a modelling choice that
      no lemma depends on, and its Display is the parameter `unitText` of
      every rendering. */
  datatype TimeUnit = Nanoseconds | Microseconds | Milliseconds

  /** The hypothesis under which renderings are collision-free: distinct
      units print differently. */
  ghost predicate UnitTextInjective(unitText: TimeUnit -> string) {
    forall a: TimeUnit, b: TimeUnit :: unitText(a) == unitText(b) ==> a == b
  }

  /** One temporal extraction or conversion. Twelve variants carry no data;
      `TimeStamp` carries the unit it converts to. Equality is structural. */
  datatype TemporalFunction =
    | Year
    | IsoYear
    | Quarter
    | Month
    | Week
    | WeekDay
    | Day
    | OrdinalDay
    | Hour
    | Minute
    | Second
    | NanoSecond
    | TimeStamp(tu: TimeUnit)

  /** The namespace every rendering starts with. */
  const Namespace: string := "dt."

  /** The fixed short name of a data-less variant: a non-empty word of
      lower-case letters and underscores. */
  function FieldName(f: TemporalFunction): (name: string)
    requires !f.TimeStamp?
    ensures 0 < |name|
    ensures forall i :: 0 <= i < |name| ==> name[i] == '_' || 'a' <= name[i] <= 'z'
  {
    match f
    case Year => "year"
    case IsoYear => "iso_year"
    case Quarter => "quarter"
    case Month => "month"
    case Week => "week"
    case WeekDay => "weekday"
    case Day => "day"
    case OrdinalDay => "ordinal_day"
    case Hour => "hour"
    case Minute => "minute"
    case Second => "second"
    case NanoSecond => "nanosecond"
  }

  /** The text a temporal function displays as. Total: no variant is
      excluded. Every rendering starts with the namespace, and it holds an
      opening parenthesis exactly when the variant is a timestamp. */
  function Render(f: TemporalFunction, unitText: TimeUnit -> string): (r: string)
    ensures |Namespace| < |r| && r[..|Namespace|] == Namespace
    ensures ('(' in r) <==> f.TimeStamp?
  {
    match f
    case TimeStamp(tu) => Namespace + "timestamp(" + unitText(tu) + ")"
    case Year | IsoYear | Quarter | Month | Week | WeekDay | Day | OrdinalDay
       | Hour | Minute | Second | NanoSecond => Namespace + FieldName(f)
  }

  /** The rendering table: each data-less variant prints as the namespace
      followed by its fixed name, whatever the unit rendering, and a
      timestamp prints its unit's own text in parentheses. */
  lemma Renderings(f: TemporalFunction, unitText: TimeUnit -> string)
    ensures Render(f, unitText) ==
      match f
      case Year => "dt.year"
      case IsoYear => "dt.iso_year"
      case Quarter => "dt.quarter"
      case Month => "dt.month"
      case Week => "dt.week"
      case WeekDay => "dt.weekday"
      case Day => "dt.day"
      case OrdinalDay => "dt.ordinal_day"
      case Hour => "dt.hour"
      case Minute => "dt.minute"
      case Second => "dt.second"
      case NanoSecond => "dt.nanosecond"
      case TimeStamp(tu) => "dt.timestamp(" + unitText(tu) + ")"
  {
    match f
    case Year => assert Namespace + "year" == "dt.year";
    case IsoYear => assert Namespace + "iso_year" == "dt.iso_year";
    case Quarter => assert Namespace + "quarter" == "dt.quarter";
    case Month => assert Namespace + "month" == "dt.month";
    case Week => assert Namespace + "week" == "dt.week";
    case WeekDay => assert Namespace + "weekday" == "dt.weekday";
    case Day => assert Namespace + "day" == "dt.day";
    case OrdinalDay => assert Namespace + "ordinal_day" == "dt.ordinal_day";
    case Hour => assert Namespace + "hour" == "dt.hour";
    case Minute => assert Namespace + "minute" == "dt.minute";
    case Second => assert Namespace + "second" == "dt.second";
    case NanoSecond => assert Namespace + "nanosecond" == "dt.nanosecond";
    case TimeStamp(tu) => assert Namespace + "timestamp(" == "dt.timestamp(";
  }

  /** The twelve fixed names are pairwise distinct. */
  lemma FieldNamesDistinct(x: TemporalFunction, y: TemporalFunction)
    requires !x.TimeStamp? && !y.TimeStamp?
    ensures FieldName(x) == FieldName(y) <==> x == y
  {
  }

  /** Rendering is injective on the data-less variants, with no hypothesis
      about units. */
  lemma DataLessInjective(x: TemporalFunction, y: TemporalFunction, unitText: TimeUnit -> string)
    requires !x.TimeStamp? && !y.TimeStamp?
    ensures Render(x, unitText) == Render(y, unitText) <==> x == y
  {
  }

  /** No data-less variant renders like any timestamp. */
  lemma NoCrossCollision(x: TemporalFunction, y: TemporalFunction, unitText: TimeUnit -> string)
    requires !x.TimeStamp? && y.TimeStamp?
    ensures Render(x, unitText) != Render(y, unitText)
  {
  }

  /** Two timestamps render alike exactly when their units print alike. */
  lemma TimeStampRenderings(a: TimeUnit, b: TimeUnit, unitText: TimeUnit -> string)
    ensures Render(TimeStamp(a), unitText) == Render(TimeStamp(b), unitText) <==> unitText(a) == unitText(b)
  {
    var ra, rb := Render(TimeStamp(a), unitText), Render(TimeStamp(b), unitText);
    var open := |Namespace + "timestamp("|;
    assert ra[open..|ra| - 1] == unitText(a);
    assert rb[open..|rb| - 1] == unitText(b);
  }

  /** If units print injectively, two temporal functions render alike exactly
      when they are equal: the text is a faithful key for the derived
      structural equality. */
  lemma RenderInjective(x: TemporalFunction, y: TemporalFunction, unitText: TimeUnit -> string)
    requires UnitTextInjective(unitText)
    ensures Render(x, unitText) == Render(y, unitText) <==> x == y
  {
    match (x, y)
    case (TimeStamp(a), TimeStamp(b)) => TimeStampRenderings(a, b, unitText);
    case (TimeStamp(_), _) => NoCrossCollision(y, x, unitText);
    case (_, TimeStamp(_)) => NoCrossCollision(x, y, unitText);
    case _ => DataLessInjective(x, y, unitText);
  }

  /** The hypothesis on units is exactly what injectivity needs: rendering is
      injective on all temporal functions if and only if units print
      injectively. */
  lemma RenderInjectiveIff(unitText: TimeUnit -> string)
    ensures (forall x, y :: Render(x, unitText) == Render(y, unitText) ==> x == y)
            <==> UnitTextInjective(unitText)
  {
    if UnitTextInjective(unitText) {
      forall x, y | Render(x, unitText) == Render(y, unitText) ensures x == y {
        RenderInjective(x, y, unitText);
      }
    } else {
      var a, b :| unitText(a) == unitText(b) && a != b;
      TimeStampRenderings(a, b, unitText);
      assert Render(TimeStamp(a), unitText) == Render(TimeStamp(b), unitText);
    }
  }
}
