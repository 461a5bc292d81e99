/** The application state: the ordered list of workouts, the creation gate
    that validates the form's numbers before a workout is built and added,
    and the lookup that resolves a clicked list entry back to its workout. */
module Application {
  import opened Numbers
  import opened Workouts

  datatype Option<T> = None | Some(value: T)

  const PositiveAlert: string := "Input have to be a positive number"
  const ValidAlert: string := "Input have to be a valid number"

  /** `validInput(...inputs)`: every input is a finite number. */
  function ValidInput(inputs: seq<Num>): (ok: bool)
    ensures ok <==> forall i | 0 <= i < |inputs| :: IsFinite(inputs[i])
  {
    inputs == [] || (IsFinite(inputs[0]) && ValidInput(inputs[1..]))
  }

  /** `allPositive(...inputs)`: every input is greater than zero. */
  function AllPositive(inputs: seq<Num>): (ok: bool)
    ensures ok <==> forall i | 0 <= i < |inputs| :: IsPositive(inputs[i])
  {
    inputs == [] || (IsPositive(inputs[0]) && AllPositive(inputs[1..]))
  }

  /** The two checks on the three numbers of one form. */
  lemma ChecksOnThree(a: Num, b: Num, c: Num)
    ensures ValidInput([a, b, c]) <==> IsFinite(a) && IsFinite(b) && IsFinite(c)
    ensures AllPositive([a, b, c]) <==> IsPositive(a) && IsPositive(b) && IsPositive(c)
  {
    var s := [a, b, c];
    assert s[0] == a && s[1] == b && s[2] == c;
  }

  predicate PositiveFinite(x: Num) {
    x.Finite? && x.value > 0.0
  }

  /** What the submitted form leads to. */
  datatype Decision =
    | BuildRunning(distance: real, duration: real, cadence: real)
    | BuildCycling(distance: real, duration: real, elevGain: real)
    | Refuse(message: string)
    | NoWorkout

  /** The rule `_newWorkout` applies to the form's type and numbers: running
      needs all three numbers finite and positive, cycling only finite; any
      other type builds nothing and is not refused either. */
  function Decide(kind: string, distance: Num, duration: Num, cadence: Num, elevation: Num): (d: Decision)
    ensures d.BuildRunning? <==>
              kind == "running" && PositiveFinite(distance) && PositiveFinite(duration) && PositiveFinite(cadence)
    ensures d.BuildRunning? ==> d == BuildRunning(distance.value, duration.value, cadence.value)
    ensures d.BuildCycling? <==>
              kind == "cycling" && IsFinite(distance) && IsFinite(duration) && IsFinite(elevation)
    ensures d.BuildCycling? ==> d == BuildCycling(distance.value, duration.value, elevation.value)
    ensures d.Refuse? ==> d.message == if kind == "running" then PositiveAlert else ValidAlert
    ensures d.NoWorkout? <==> kind != "running" && kind != "cycling"
  {
    ChecksOnThree(distance, duration, cadence);
    ChecksOnThree(distance, duration, elevation);
    if kind == "running" then
      if !ValidInput([distance, duration, cadence]) || !AllPositive([distance, duration, cadence])
      then Refuse(PositiveAlert)
      else BuildRunning(distance.value, duration.value, cadence.value)
    else if kind == "cycling" then
      if !ValidInput([distance, duration, elevation])
      then Refuse(ValidAlert)
      else BuildCycling(distance.value, duration.value, elevation.value)
    else NoWorkout
  }

  /** The gate on concrete forms: a zero cadence refuses a run, while a zero
      elevation, a negative distance and a zero duration all pass for a ride;
      a non-finite number refuses either. */
  lemma GateExamples(elevation: Num, cadence: Num)
    ensures Decide("running", Finite(5.0), Finite(25.0), Finite(0.0), elevation) == Refuse(PositiveAlert)
    ensures Decide("cycling", Finite(5.0), Finite(25.0), cadence, Finite(0.0)) == BuildCycling(5.0, 25.0, 0.0)
    ensures Decide("cycling", Finite(-5.0), Finite(0.0), cadence, Finite(12.0)) == BuildCycling(-5.0, 0.0, 12.0)
    ensures Decide("running", Finite(5.0), NaN, Finite(170.0), elevation) == Refuse(PositiveAlert)
    ensures Decide("cycling", PositiveInfinity, Finite(25.0), cadence, Finite(0.0)) == Refuse(ValidAlert)
  {
  }

  /** A ride that passes the gate with a zero duration gets a non-finite speed. */
  lemma ZeroDurationRide(distance: real, cadence: Num, elevation: real)
    ensures Decide("cycling", Finite(distance), Finite(0.0), cadence, Finite(elevation)).BuildCycling?
    ensures !Speed(distance, 0.0).Finite?
  {
  }

  /** What `find` meets before position `k`: only workouts, none with `id`. */
  ghost predicate PassedOver(entries: seq<Workout?>, id: string, k: nat)
    requires k <= |entries|
  {
    forall j | 0 <= j < k :: entries[j] != null && entries[j].id != id
  }

  /** The result of `#workouts.find(work => work.id === id)`: the callback
      throws on an undefined entry, so reaching one before a match is a
      TypeError. */
  datatype Lookup = Found(workout: Workout) | NotFound | UndefinedEntry

  /** `#workouts.find(work => work.id === id)`, scanning from the front. */
  function FindById(entries: seq<Workout?>, id: string): (r: Lookup)
    ensures r == NotFound <==> PassedOver(entries, id, |entries|)
    ensures r.Found? ==> r.workout in entries && r.workout.id == id
    ensures forall k | 0 <= k < |entries| && PassedOver(entries, id, k) ::
              (entries[k] == null ==> r == UndefinedEntry) &&
              (entries[k] != null && entries[k].id == id ==> r == Found(entries[k]))
    decreases |entries|
  {
    if entries == [] then NotFound
    else if entries[0] == null then UndefinedEntry
    else if entries[0].id == id then Found(entries[0])
    else FindById(entries[1..], id)
  }

  /** Appending cannot change a lookup that stopped inside the old list. */
  lemma FindByIdAfterAppend(entries: seq<Workout?>, w: Workout?, id: string)
    requires FindById(entries, id) != NotFound
    ensures FindById(entries + [w], id) == FindById(entries, id)
  {
    var k :| 0 <= k < |entries| && PassedOver(entries, id, k) && (entries[k] == null || entries[k].id == id)
      by {
        FirstStop(entries, id);
      }
    assert PassedOver(entries + [w], id, k);
  }

  /** A lookup that is not `NotFound` stopped at some position. */
  lemma {:induction false} FirstStop(entries: seq<Workout?>, id: string)
    requires FindById(entries, id) != NotFound
    ensures exists k | 0 <= k < |entries| :: PassedOver(entries, id, k) && (entries[k] == null || entries[k].id == id)
  {
    if entries[0] != null && entries[0].id != id {
      FirstStop(entries[1..], id);
      var k :| 0 <= k < |entries| - 1 && PassedOver(entries[1..], id, k) &&
               (entries[1..][k] == null || entries[1..][k].id == id);
      assert PassedOver(entries, id, k + 1);
    } else {
      assert PassedOver(entries, id, 0);
    }
  }

  /** A workout appended to a list of workouts none of which has its id is
      found by that id. */
  lemma FindNewWorkout(entries: seq<Workout?>, w: Workout)
    requires PassedOver(entries, w.id, |entries|)
    ensures FindById(entries + [w], w.id) == Found(w)
  {
    assert PassedOver(entries + [w], w.id, |entries|);
  }

  /** What `_newWorkout` reports back: the early return with an alert, the
      new workout, or (for an unknown type) the `undefined` it pushed. */
  datatype Outcome = Alerted(message: string) | Added(workout: Workout) | AddedUndefined

  class App {
    /** `#workouts`, in insertion order; `null` stands for `undefined`. */
    var workouts: seq<Workout?>

    ghost predicate Valid()
      reads this
    {
      forall w | w in workouts && w != null :: w.Valid()
    }

    /** A new application starts with no workouts. */
    constructor ()
      ensures Valid() && workouts == []
    {
      workouts := [];
    }

    /** The non-DOM part of `_newWorkout`: check the numbers for the chosen
        type, build the workout and push it onto the list. */
    method NewWorkout(kind: string, distance: Num, duration: Num, cadence: Num, elevation: Num,
                      at: Coord, now: nat, date: Date) returns (outcome: Outcome)
      requires Valid()
      modifies this
      ensures Valid()
      ensures forall w | w in old(workouts) && w != null :: w.clicks == old(w.clicks)
      ensures match Decide(kind, distance, duration, cadence, elevation)
              case Refuse(message) =>
                outcome == Alerted(message) && workouts == old(workouts)
              case BuildRunning(d, u, c) =>
                && outcome.Added? && fresh(outcome.workout)
                && workouts == old(workouts) + [outcome.workout]
                && outcome.workout.Built(now, date, at, d, u, RunningDetail(c, Pace(u, d)))
              case BuildCycling(d, u, e) =>
                && outcome.Added? && fresh(outcome.workout)
                && workouts == old(workouts) + [outcome.workout]
                && outcome.workout.Built(now, date, at, d, u, CyclingDetail(e, Speed(d, u)))
              case NoWorkout =>
                outcome == AddedUndefined && workouts == old(workouts) + [null]
    {
      ChecksOnThree(distance, duration, cadence);
      ChecksOnThree(distance, duration, elevation);
      var workout: Workout? := null;
      if kind == "running" {
        if !ValidInput([distance, duration, cadence]) || !AllPositive([distance, duration, cadence]) {
          return Alerted(PositiveAlert);
        }
        workout := new Workout.Running(now, date, at, distance.value, duration.value, cadence.value);
      }
      if kind == "cycling" {
        if !ValidInput([distance, duration, elevation]) {
          return Alerted(ValidAlert);
        }
        workout := new Workout.Cycling(now, date, at, distance.value, duration.value, elevation.value);
      }
      workouts := workouts + [workout];
      outcome := if workout == null then AddedUndefined else Added(workout);
    }

    /** The lookup in `_moveToPopup`: nothing when the click was not on a
        workout entry, otherwise the `find` by the entry's id. */
    method MoveToPopup(clickedId: Option<string>) returns (found: Option<Lookup>)
      requires Valid()
      ensures clickedId == None ==> found == None
      ensures found.Some? && found.value.Found? ==> found.value.workout.Valid()
      ensures clickedId.Some? ==> found == Some(FindById(workouts, clickedId.value))
    {
      if clickedId == None {
        return None;
      }
      found := Some(FindById(workouts, clickedId.value));
    }
  }
}
