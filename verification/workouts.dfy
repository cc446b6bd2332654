/** The workout records of script.js: the `Workout` base class with its
    `Running` and `Cycling` subclasses, written as one record datatype whose
    type-specific part is a sum type. Ids and dates are parameters. */
module Workouts {
  import opened Wrappers
  import opened Text

  /** The value of the `type` field: 'running' or 'cycling'. */
  datatype Kind = Running | Cycling

  /** The string stored in the `type` field. */
  function TypeName(k: Kind): string {
    match k
    case Running => "running"
    case Cycling => "cycling"
  }

  /** `Date.prototype.getMonth()`: 0 for January up to 11 for December. */
  type MonthIndex = m: nat | m < 12

  /** `Date.prototype.getDate()`: the day of the month. */
  type DayOfMonth = d: nat | 1 <= d <= 31 witness 1

  /** The two parts of the creation date that the description reads. */
  datatype Date = Date(month: MonthIndex, day: DayOfMonth)

  /** The `date` field: a live `Date` while the record is the object built
      in this session, and the ISO string `JSON.stringify` made of it once
      the record has been through storage. The text itself is not modelled. */
  datatype DateField = LocalDate(date: Date) | IsoText

  /** `[lat, lng]` of the map click. */
  datatype Coords = Coords(lat: real, lng: real)

  /** The fields only one subclass has: `cadence` and the derived `pace`
      for running, `elevationGain` and the derived `speed` for cycling. */
  datatype Detail =
    | RunningDetail(cadence: real, pace: real)
    | CyclingDetail(elevationGain: real, speed: real)

  /** One logged workout. `clicks` is the counter the base class starts at
      zero and nothing else reads. */
  datatype Workout = Workout(
    id: string,
    date: DateField,
    coords: Coords,
    distance: real,
    duration: real,
    clicks: nat,
    description: string,
    detail: Detail)
  {
    /** The `type` field, which the subclass fixes. */
    function kind(): Kind {
      if detail.RunningDetail? then Running else Cycling
    }
  }

  /** The 12-entry `months` table of `_setDescription`. */
  const Months: seq<string> := [
    "January", "February", "March", "April", "May", "June", "July",
    "August", "September", "October", "November", "December"]

  /** `calcPace`: minutes per kilometre. */
  function Pace(distance: real, duration: real): (pace: real)
    requires distance > 0.0 && duration > 0.0
    ensures pace > 0.0
    ensures pace * distance == duration
  {
    duration / distance
  }

  /** `calcSpeed`: kilometres per hour from minutes, `distance / (duration / 60)`. */
  function Speed(distance: real, duration: real): (speed: real)
    requires distance > 0.0 && duration > 0.0
    ensures speed > 0.0
    ensures speed * duration == 60.0 * distance
  {
    distance / (duration / 60.0)
  }

  /** Pace and speed of the same trip are reciprocal up to the factor 60
      between minutes and hours. */
  lemma PaceTimesSpeed(distance: real, duration: real)
    requires distance > 0.0 && duration > 0.0
    ensures Pace(distance, duration) * Speed(distance, duration) == 60.0
  {
    ProductOfRates(Pace(distance, duration), Speed(distance, duration), distance, duration);
  }

  lemma ProductOfRates(p: real, s: real, d: real, t: real)
    requires d > 0.0 && t > 0.0
    requires p * d == t && s * t == 60.0 * d
    ensures p * s == 60.0
  {
    var x := d * t;
    assert x > 0.0;
    var a, b := p * d, s * t;
    assert (p * s) * x == a * b;
    assert a * b == t * (60.0 * d);
    assert (p * s) * x == 60.0 * x;
    assert p * s == ((p * s) * x) / x;
  }

  /** The start of a description: the capitalised type name and " on ". */
  function KindPrefix(k: Kind): string {
    Capitalize(TypeName(k)) + " on "
  }

  /** `_setDescription`: `<Type> on <Month> <day>`. */
  function Describe(k: Kind, d: Date): string {
    KindPrefix(k) + Months[d.month] + " " + NatToString(d.day)
  }

  /** The first month `i` or later whose name followed by a space starts
      `s`, and what follows that space. */
  function ParseMonthFrom(s: string, i: nat): Option<(MonthIndex, string)>
    requires i <= 12
    decreases 12 - i
  {
    if i == 12 then None
    else if Months[i] + " " <= s then Some((i, s[|Months[i]| + 1..]))
    else ParseMonthFrom(s, i + 1)
  }

  /** Reads the month and day back from the part of a description after
      " on ". */
  function ParseDate(s: string): Option<Date> {
    match ParseMonthFrom(s, 0)
    case None => None
    case Some((m, rest)) =>
      match ParseNat(rest)
      case Some(d) => if 1 <= d <= 31 then Some(Date(m, d)) else None
      case None => None
  }

  /** Reads the type and date back from a description. */
  function ParseDescription(s: string): Option<(Kind, Date)> {
    if KindPrefix(Running) <= s then
      match ParseDate(s[|KindPrefix(Running)|..])
      case Some(d) => Some((Running, d))
      case None => None
    else if KindPrefix(Cycling) <= s then
      match ParseDate(s[|KindPrefix(Cycling)|..])
      case Some(d) => Some((Cycling, d))
      case None => None
    else None
  }

  lemma MonthsAreWords()
    ensures forall i :: 0 <= i < 12 ==> NoSpace(Months[i])
    ensures forall i, j :: 0 <= i < j < 12 ==> Months[i] != Months[j]
  {
  }

  lemma {:induction false} ParseMonthOf(m: MonthIndex, t: string, i: nat)
    requires i <= m
    ensures ParseMonthFrom(Months[m] + " " + t, i) == Some((m, t))
    decreases m - i
  {
    var s := Months[m] + " " + t;
    MonthsAreWords();
    if i < m {
      if Months[i] + " " <= s {
        WordBeforeSpace(Months[i], Months[m], t);
        assert false;
      }
      ParseMonthOf(m, t, i + 1);
    } else {
      assert s[|Months[m]| + 1..] == t;
    }
  }

  /** The two prefixes as literals. */
  lemma KindPrefixes()
    ensures KindPrefix(Running) == "Running on "
    ensures KindPrefix(Cycling) == "Cycling on "
  {
  }

  /** The text after the prefix reads back as the date it was built from. */
  lemma ParseDateRoundTrip(d: Date)
    ensures ParseDate(Months[d.month] + " " + NatToString(d.day)) == Some(d)
  {
    ParseMonthOf(d.month, NatToString(d.day), 0);
    ParseNatToString(d.day);
  }

  /** A description names its type and date unambiguously: reading it back
      yields the type and date it was built from. */
  lemma DescriptionRoundTrip(k: Kind, d: Date)
    ensures KindPrefix(k) <= Describe(k, d)
    ensures ParseDescription(Describe(k, d)) == Some((k, d))
  {
    var rest := Months[d.month] + " " + NatToString(d.day);
    var s := Describe(k, d);
    assert s == KindPrefix(k) + rest;
    assert s[|KindPrefix(k)|..] == rest;
    ParseDateRoundTrip(d);
    KindPrefixes();
    if k == Cycling {
      assert s[0] == 'C';
      assert !(KindPrefix(Running) <= s);
    }
  }

  /** A successful month match splits the text into the month's name, a
      space and the rest. */
  lemma {:induction false} ParseMonthSplits(s: string, i: nat)
    requires i <= 12
    requires ParseMonthFrom(s, i).Some?
    ensures var (m, rest) := ParseMonthFrom(s, i).value;
            s == Months[m] + " " + rest
    decreases 12 - i
  {
    if !(Months[i] + " " <= s) {
      ParseMonthSplits(s, i + 1);
    } else {
      var n := |Months[i]| + 1;
      assert s == s[..n] + s[n..];
    }
  }

  /** Text that reads back as a date is exactly that date's text. */
  lemma ParseDateCanonical(s: string)
    requires ParseDate(s).Some?
    ensures s == Months[ParseDate(s).value.month] + " " + NatToString(ParseDate(s).value.day)
  {
    ParseMonthSplits(s, 0);
    var (m, rest) := ParseMonthFrom(s, 0).value;
    ParseNatCanonical(rest);
  }

  /** A string reads back as a type and a date exactly when it is the
      description of that type and date: the description is determined
      character for character, with no padded or alternative spelling. */
  lemma DescriptionParseIff(s: string, k: Kind, d: Date)
    ensures ParseDescription(s) == Some((k, d)) <==> s == Describe(k, d)
  {
    if s == Describe(k, d) {
      DescriptionRoundTrip(k, d);
    }
    if ParseDescription(s) == Some((k, d)) {
      var n := |KindPrefix(k)|;
      KindPrefixes();
      if k == Cycling {
        assert !(KindPrefix(Running) <= s);
      }
      assert KindPrefix(k) <= s;
      ParseDateCanonical(s[n..]);
      assert s == KindPrefix(k) + s[n..];
    }
  }

  /** `new Running(coords, distance, duration, cadence)` with the id and
      creation date supplied by the caller. */
  function NewRunning(id: string, date: Date, coords: Coords,
                      distance: real, duration: real, cadence: real): (w: Workout)
    requires distance > 0.0 && duration > 0.0
    ensures w.kind() == Running && w.clicks == 0
    ensures w.id == id && w.date == LocalDate(date) && w.coords == coords
    ensures w.distance == distance && w.duration == duration
    ensures w.detail.cadence == cadence
    ensures w.detail.pace == Pace(distance, duration)
    ensures "Running on " <= w.description
    ensures ParseDescription(w.description) == Some((Running, date))
  {
    DescriptionRoundTrip(Running, date);
    KindPrefixes();
    Workout(id, LocalDate(date), coords, distance, duration, 0,
            Describe(Running, date), RunningDetail(cadence, Pace(distance, duration)))
  }

  /** `new Cycling(coords, distance, duration, elevationGain)` with the id
      and creation date supplied by the caller. */
  function NewCycling(id: string, date: Date, coords: Coords,
                      distance: real, duration: real, elevationGain: real): (w: Workout)
    requires distance > 0.0 && duration > 0.0
    ensures w.kind() == Cycling && w.clicks == 0
    ensures w.id == id && w.date == LocalDate(date) && w.coords == coords
    ensures w.distance == distance && w.duration == duration
    ensures w.detail.elevationGain == elevationGain
    ensures w.detail.speed == Speed(distance, duration)
    ensures "Cycling on " <= w.description
    ensures ParseDescription(w.description) == Some((Cycling, date))
  {
    DescriptionRoundTrip(Cycling, date);
    KindPrefixes();
    Workout(id, LocalDate(date), coords, distance, duration, 0,
            Describe(Cycling, date), CyclingDetail(elevationGain, Speed(distance, duration)))
  }
}
