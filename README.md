# Mapty workout core in Dafny

This project models the workout domain logic of the Mapty application (`script.js`):

- The `Workout` entity comes in two variants, running and cycling. Each workout stores its position, distance, duration and a variant field (cadence or elevation gain). It derives pace (running) or speed (cycling) and a description label such as "Running on October 14". Its id is the last ten digits of the clock reading, and it has a click counter.
- The creation gate of `App._newWorkout` checks the form's numbers with `validInput` (all finite) and `allPositive` (all greater than zero). It builds the right variant and pushes it onto the ordered `#workouts` list.
- The lookup of `_moveToPopup` finds the first workout whose id matches the clicked entry.

Files:

- `numbers.dfy` (module `Numbers`): JavaScript numbers as exact reals plus the three non-finite values, and division.
- `text.dfy` (module `Text`): decimal text of integers and reading it back, the last-k-characters slice, and upper-casing the first letter.
- `workout.dfy` (module `Workouts`): the `Workout` class, with two named constructors for the two variants. It also holds pace, speed, label and id.
- `app.dfy` (module `Application`): the validation predicates, the gate `Decide`, the lookup `FindById`, and the `App` class with its `workouts` list.

Modelling choices:

- Every field of `Workout` is a `const` except `clicks`, because `clicks` is the only field the program changes after construction.
- `Running` and `Cycling` are two constructors of one class. The variant data sits in `detail`.
- A form type other than `'running'` or `'cycling'` is a third outcome, not a precondition. In that case no workout is built and `undefined` is still pushed (script.js:161, 181). The list is therefore a `seq<Workout?>`, and `null` stands for `undefined`.
- The lookup models `find`'s callback throwing on such an entry (`work.id` of `undefined`), as the `UndefinedEntry` result.
- The clock is a parameter. The constructors take the `Date.now()` reading `now`, from which the id is derived. They also take the calendar month index and day of month of `new Date()`.

The model follows the code, not its comments:

- Cycling input is only checked for finiteness. A zero or negative distance or duration passes the gate (script.js:176). `ZeroDurationRide` shows that such a ride then gets a non-finite speed.
- Speed is `distance / (duration * 60)` (script.js:63), not the kilometres per hour that its comment names (script.js:62). `SpeedIsKilometresPerHourOver3600` states the factor between the two.
- A failed check shows one alert message per variant (script.js:168, 176).
- A `find` with no matching id yields `undefined` (here `NotFound`) (script.js:264).

## Model

| member | source | states |
|---|---|---|
| Numbers.Divide | script.js:46 | The quotient is finite exactly when the divisor is non-zero, and then times the divisor gives the dividend. 0/0 is NaN, and x/0 is an infinity with the sign of x. |
| Text.Decimal | script.js:30 | The decimal text is non-empty, all digits, and has no leading zero unless the number is 0. |
| Text.DecimalRoundTrip | script.js:30 | Reading the decimal text back gives the number. |
| Text.DecimalInjective | script.js:30 | Different numbers have different decimal texts. |
| Text.Suffix | script.js:16 | For k >= 1, `slice(-k)` keeps the last k characters, or the whole string when it is shorter. |
| Text.SuffixOfDecimal | script.js:16 | The last k decimal digits of n read back as n mod 10^k. |
| Text.Capitalize | script.js:30 | `charAt(0).toUpperCase() + slice(1)` keeps the length, upper-cases the first character and keeps the rest. |
| Text.ToUpper | script.js:30 | A lower-case ASCII letter becomes its capital; any other character is kept. |
| Numbers.IsFinite | script.js:154 | `Number.isFinite`: true exactly for finite numbers, false for both infinities and NaN. |
| Numbers.IsPositive | script.js:155 | `x > 0`: true for a positive finite number and for Infinity, false for NaN and -Infinity. |
| Workouts.KindName | script.js:35 | The `name` field of each variant (script.js:35 and 53): `running` for running details, `cycling` for cycling details. |
| Workouts.Label | script.js:27-31 | `_setDescription`'s label: the capitalised name, " on ", the month name and the day. Its properties are stated by VariantLabels, LabelExamples and LabelDeterminesDate. |
| Workouts.Pace | script.js:44-48 | The pace is exactly duration / distance for a non-zero distance, and positive for positive inputs. It is non-finite for a zero distance. |
| Workouts.Speed | script.js:61-65 | The speed is exactly distance / (duration * 60), as written, for a non-zero duration. It is non-finite for a zero duration. |
| Workouts.SpeedIsKilometresPerHourOver3600 | script.js:62-63 | The written speed is the km/h figure of the comment divided by 3600. |
| Workouts.IdFromTimestamp | script.js:16 | The id has at most ten digits, and they read back as the clock reading mod 10^10. |
| Workouts.IdsDiffer | script.js:16 | Two clock readings less than 10^10 ms apart give different ids. |
| Workouts.VariantLabels | script.js:27-31 | The running label is "Running on <month> <day>" and the cycling label is "Cycling on <month> <day>". |
| Workouts.LabelExamples | script.js:29-30 | Concrete labels such as "Running on October 14" and "Cycling on February 3", with no leading zero on the day. |
| Workouts.MonthTable | script.js:29 | The month table has twelve distinct names, none containing a space. |
| Workouts.LabelDeterminesDate | script.js:27-31 | Equal labels for one name come from equal dates: the label encodes the month and the day. |
| Workouts.Workout.Running | script.js:34-41 | A new running workout stores the coordinates, distance, duration and cadence unchanged. Its pace is duration / distance, its label is the running label, its id comes from the clock, and clicks is 0. |
| Workouts.Workout.Cycling | script.js:52-59 | A new cycling workout stores the coordinates, distance, duration and elevation gain unchanged. Its speed is distance / (duration * 60), its label is the cycling label, its id comes from the clock, and clicks is 0. |
| Workouts.Workout.ClickMe | script.js:24-26 | clicks goes up by exactly 1. Every other field is constant. |
| Workouts.Workout.CalcPace | script.js:44-48 | Calling it again returns the pace stored at construction, which is the formula's value. |
| Workouts.Workout.CalcSpeed | script.js:61-65 | Calling it again returns the speed stored at construction, which is the formula's value. |
| Workouts.Samples | script.js:70-71 | The two sample workouts get pace 48/56 and speed 56/(88*60). |
| Application.ValidInput | script.js:154 | True exactly when every input is finite. |
| Application.AllPositive | script.js:155 | True exactly when every input is greater than zero. |
| Application.ChecksOnThree | script.js:168 | On three numbers, both checks are the conjunction of the per-number tests. |
| Application.Decide | script.js:161-178 | A run is built exactly when distance, duration and cadence are all finite and positive. A ride is built exactly when distance, duration and elevation are all finite. Both carry the input values. A refusal carries that variant's alert message. An unknown type builds nothing. |
| Application.GateExamples | script.js:168-177 | A zero cadence or a NaN refuses a run. A zero elevation, a negative distance or a zero duration still passes for a ride. An infinite distance refuses a ride. |
| Application.ZeroDurationRide | script.js:176-177 | A ride with zero duration passes the gate, and its speed is not finite. |
| Application.FindById | script.js:264 | The result is the first entry that is undefined or has a matching id: that workout, or a TypeError for undefined. It is NotFound exactly when every entry is a workout with a different id. |
| Application.FirstStop | script.js:264 | A lookup that finds something stopped at a definite position. |
| Application.FindByIdAfterAppend | script.js:264 | Appending to the list does not change a lookup that stopped inside the old list. |
| Application.FindNewWorkout | script.js:264 | A workout appended after entries that are all workouts with other ids is found by its id. |
| Application.App.constructor | script.js:80 | The workout list starts empty. |
| Application.App.NewWorkout | script.js:160-181 | On a refusal it returns that alert message, leaving the list unchanged. On success it appends one fresh workout built from the inputs, and every earlier entry keeps its position and click count. For an unknown type it appends `undefined`. |
| Application.App.MoveToPopup | script.js:259-264 | A click outside an entry gives nothing. Otherwise it gives the `find` result for the entry's id, and the list is not changed. A workout it finds satisfies the derived-field invariant, so CalcPace/CalcSpeed may be called on it. |

## Left out

- DOM element lookup, form wiring, event listeners, showing, hiding and clearing the form, and the elevation-field toggle are browser calls (script.js:3-9, 90-96, 134-149, 152). `+input.value` is parsing done by the browser: the model receives numbers already parsed. An empty field therefore reaches it as `Finite(0.0)`.
- Geolocation, the Leaflet map, markers, popups, and the `setView` in `_moveToPopup` are calls into a device and an external library (script.js:99-132, 195-210, 266-271).
- Rendering the list entry is HTML markup output only, and `toFixed` formatting is floating-point text (script.js:212-258).
- Application.App.constructor: does not restore a stored list. `localStorage`, JSON persistence and `reset` are foreign storage calls and a page reload (script.js:87, 275-289), so the model's `App` starts with an empty list.
- Application.App.NewWorkout: after an `undefined` push, the source goes on to render it and throws there, before saving (script.js:184). The model stops at the push.
- The clock reads are parameters. The model does not compute the month and day from the millisecond reading, and it does not tie the two together.
- IEEE-754 arithmetic is not modelled. Numbers are exact reals with no rounding. There is no signed zero, so `x / -0` is taken as `x / +0`. `duration * 60` is assumed not to overflow to Infinity.
- Text.ToUpper: covers only the ASCII letters, not the full Unicode mapping of `toUpperCase`. The names it is applied to are the ASCII constants `running` and `cycling`.
- `calcEnery` is empty, and the `workout.clickMe()` call in `_moveToPopup` is commented out. Neither has behaviour to model (script.js:66, 273).
- Unique ids within the list are not an invariant of `App`, because the source does not enforce them. `IdsDiffer` states when two clock readings give distinct ids.
