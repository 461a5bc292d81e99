/** The workout entities: the common `Workout` record with its two variants,
    running and cycling, the derived pace and speed, the id taken from the
    clock and the description label. */
module Workouts {
  import opened Numbers
  import opened Text

  /** `[lat, lng]` */
  datatype Coord = Coord(lat: real, lng: real)

  /** `Date.prototype.getMonth()` is always in 0..11, `getDate()` in 1..31. */
  type MonthIndex = m: nat | m < 12
  type DayOfMonth = d: nat | 1 <= d <= 31 witness 1

  /** The calendar part of the `Date` captured at construction. */
  datatype Date = Date(month: MonthIndex, day: DayOfMonth)

  const Months: seq<string> := ["January", "February", "March", "April", "May", "June", "July",
                                "August", "September", "October", "November", "December"]

  /** The variant-specific part of a workout: running keeps its cadence and
      pace, cycling its elevation gain and speed. */
  datatype Detail =
    | RunningDetail(cadence: real, pace: Num)
    | CyclingDetail(elevGain: real, speed: Num)

  /** The `name` class field of each variant. */
  function KindName(detail: Detail): (name: string)
    ensures name == "running" <==> detail.RunningDetail?
    ensures name == "cycling" <==> detail.CyclingDetail?
  {
    match detail
    case RunningDetail(_, _) => "running"
    case CyclingDetail(_, _) => "cycling"
  }

  /** `calcPace`: minutes per kilometre, `duration / distance`. */
  function Pace(duration: real, distance: real): (p: Num)
    ensures distance != 0.0 ==> p == Finite(duration / distance)
    ensures distance != 0.0 ==> p.value * distance == duration
    ensures distance > 0.0 && duration > 0.0 ==> p.value > 0.0
    ensures distance == 0.0 ==> !p.Finite?
  {
    Divide(duration, distance)
  }

  /** `calcSpeed` as written: `distance / (duration * 60)`. */
  function Speed(distance: real, duration: real): (v: Num)
    ensures duration != 0.0 ==> v == Finite(distance / (duration * 60.0))
    ensures duration != 0.0 ==> v.value * duration * 60.0 == distance
    ensures duration == 0.0 ==> !v.Finite?
  {
    Divide(distance, duration * 60.0)
  }

  /** The speed as written is the kilometres-per-hour figure its comment
      names, `distance / (duration / 60)`, divided by 3600. */
  lemma SpeedIsKilometresPerHourOver3600(distance: real, duration: real)
    requires duration != 0.0
    ensures Speed(distance, duration).value * 3600.0 == distance / (duration / 60.0)
  {
    var v := distance / (duration * 60.0);
    assert v * (duration * 60.0) == distance;
    assert (v * 3600.0) * (duration / 60.0) == v * (duration * 60.0);
  }

  /** `(Date.now() + '').slice(-10)`: the last ten digits of the clock reading. */
  function IdFromTimestamp(now: nat): (id: string)
    ensures |id| <= 10 && AllDigits(id)
    ensures ParseDecimal(id) == now % Pow10(10)
  {
    SuffixOfDecimal(now, 10);
    Suffix(Decimal(now), 10)
  }

  /** Two clock readings less than 10^10 ms apart give different ids. */
  lemma IdsDiffer(a: nat, b: nat)
    requires a < b < a + Pow10(10)
    ensures IdFromTimestamp(a) != IdFromTimestamp(b)
  {
    CloseRemaindersDiffer(a, b, Pow10(10));
  }

  /** `_setDescription`: the name with its first letter upper-cased, " on ",
      the month's name and the day of the month. */
  function Label(name: string, date: Date): string {
    Capitalize(name) + " on " + Months[date.month] + " " + Decimal(date.day)
  }

  /** The two labels the application produces. */
  lemma VariantLabels(date: Date)
    ensures Label("running", date) == "Running on " + Months[date.month] + " " + Decimal(date.day)
    ensures Label("cycling", date) == "Cycling on " + Months[date.month] + " " + Decimal(date.day)
  {
    assert Capitalize("running") == "Running";
    assert Capitalize("cycling") == "Cycling";
  }

  /** Concrete labels: the day is written without leading zeros. */
  lemma LabelExamples()
    ensures Label("running", Date(9, 14)) == "Running on October 14"
    ensures Label("cycling", Date(1, 3)) == "Cycling on February 3"
  {
    VariantLabels(Date(9, 14));
    VariantLabels(Date(1, 3));
    assert Decimal(14) == "14";
    assert Decimal(3) == "3";
  }

  predicate NoSpace(s: string) {
    forall i | 0 <= i < |s| :: s[i] != ' '
  }

  /** The month table has twelve distinct names, none with a space in it. */
  lemma MonthTable()
    ensures |Months| == 12
    ensures forall m | 0 <= m < 12 :: NoSpace(Months[m])
    ensures forall m, m' | 0 <= m < 12 && 0 <= m' < 12 && Months[m] == Months[m'] :: m == m'
  {
  }

  /** Splitting at the first space: a space-free word followed by a space
      and a tail is determined by that text. */
  lemma SplitAtSpace(w: string, x: string, w': string, x': string)
    requires NoSpace(w) && NoSpace(w')
    requires w + " " + x == w' + " " + x'
    ensures w == w' && x == x'
  {
    var s := w + " " + x;
    assert s[|w|] == ' ';
    assert (w' + " " + x')[|w'|] == ' ';
    assert |w| == |w'|;
    assert w == s[..|w|] == w';
    assert x == s[|w| + 1..] == x';
  }

  /** The label determines the date it was made from. */
  lemma LabelDeterminesDate(name: string, date: Date, date': Date)
    requires Label(name, date) == Label(name, date')
    ensures date == date'
  {
    var p := Capitalize(name) + " on ";
    var w, w' := Months[date.month], Months[date'.month];
    var x, x' := Decimal(date.day), Decimal(date'.day);
    assert p + (w + " " + x) == Label(name, date);
    assert p + (w' + " " + x') == Label(name, date');
    assert w + " " + x == (p + (w + " " + x))[|p|..];
    assert w' + " " + x' == (p + (w' + " " + x'))[|p|..];
    MonthTable();
    SplitAtSpace(w, x, w', x');
    DecimalInjective(date.day, date'.day);
  }

  /** One recorded workout. Every field is fixed at construction except the
      click counter. */
  class Workout {
    const date: Date
    const id: string
    var clicks: nat
    const coord: Coord
    const distance: real  // km
    const duration: real  // min
    const name: string
    const detail: Detail
    const description: string

    /** The derived fields agree with the inputs they were computed from. */
    ghost predicate Valid() {
      && name == KindName(detail)
      && description == Label(name, date)
      && match detail
         case RunningDetail(_, pace) => pace == Pace(duration, distance)
         case CyclingDetail(_, speed) => speed == Speed(distance, duration)
    }

    /** This is the workout freshly built from these inputs. */
    ghost predicate Built(now: nat, date: Date, coord: Coord, distance: real, duration: real, detail: Detail)
      reads this
    {
      && Valid()
      && id == IdFromTimestamp(now) && this.date == date && clicks == 0
      && this.coord == coord && this.distance == distance && this.duration == duration
      && this.detail == detail
    }

    /** `new Running(coord, distance, duration, cadence)`, with the clock
        reading and the calendar date passed in. */
    constructor Running(now: nat, date: Date, coord: Coord, distance: real, duration: real, cadence: real)
      ensures Valid()
      ensures this.id == IdFromTimestamp(now) && this.date == date && clicks == 0
      ensures this.coord == coord && this.distance == distance && this.duration == duration
      ensures name == "running" && detail == RunningDetail(cadence, Pace(duration, distance))
      ensures description == Label("running", date)
    {
      this.date := date;
      id := IdFromTimestamp(now);
      clicks := 0;
      this.coord := coord;
      this.distance := distance;
      this.duration := duration;
      name := "running";
      detail := RunningDetail(cadence, Pace(duration, distance));
      description := Label("running", date);
    }

    /** `new Cycling(coord, distance, duration, elevGain)`, with the clock
        reading and the calendar date passed in. */
    constructor Cycling(now: nat, date: Date, coord: Coord, distance: real, duration: real, elevGain: real)
      ensures Valid()
      ensures this.id == IdFromTimestamp(now) && this.date == date && clicks == 0
      ensures this.coord == coord && this.distance == distance && this.duration == duration
      ensures name == "cycling" && detail == CyclingDetail(elevGain, Speed(distance, duration))
      ensures description == Label("cycling", date)
    {
      this.date := date;
      id := IdFromTimestamp(now);
      clicks := 0;
      this.coord := coord;
      this.distance := distance;
      this.duration := duration;
      name := "cycling";
      detail := CyclingDetail(elevGain, Speed(distance, duration));
      description := Label("cycling", date);
    }

    /** `clickMe`: one more click; nothing else can change. */
    method ClickMe()
      modifies this
      ensures clicks == old(clicks) + 1
    {
      clicks := clicks + 1;
    }

    /** `calcPace` called again: it yields the pace stored at construction. */
    method CalcPace() returns (pace: Num)
      requires Valid() && detail.RunningDetail?
      ensures pace == detail.pace && pace == Pace(duration, distance)
    {
      pace := Pace(duration, distance);
    }

    /** `calcSpeed` called again: it yields the speed stored at construction. */
    method CalcSpeed() returns (speed: Num)
      requires Valid() && detail.CyclingDetail?
      ensures speed == detail.speed && speed == Speed(distance, duration)
    {
      speed := Speed(distance, duration);
    }
  }

  /** The two sample workouts built at load time. */
  method Samples(now: nat, date: Date) returns (run1: Workout, cycle1: Workout)
    ensures run1.detail == RunningDetail(23.0, Finite(48.0 / 56.0))
    ensures run1.coord == Coord(76.0, -23.0) && run1.description == Label("running", date)
    ensures cycle1.detail == CyclingDetail(56.0, Finite(56.0 / (88.0 * 60.0)))
    ensures cycle1.coord == Coord(76.0, -23.0) && cycle1.description == Label("cycling", date)
  {
    run1 := new Workout.Running(now, date, Coord(76.0, -23.0), 56.0, 48.0, 23.0);
    cycle1 := new Workout.Cycling(now, date, Coord(76.0, -23.0), 56.0, 88.0, 56.0);
  }
}
