# Mapty workout log — Dafny model

The app lets a user click a point on a map, fill in a form, and log a
workout there. A workout is either a **running** session (with a cadence and
a derived pace in min/km) or a **cycling** session (with an elevation gain and
a derived speed in km/h). Both share coordinates `[lat, lng]`, a distance in
kilometres and a duration in minutes.

This project models the part of `script.js` with logic in it:

- `workouts.dfy` (module `Workouts`): the `Workout`/`Running`/`Cycling`
  classes as one immutable sum type. Pace and speed are computed once, when
  the record is constructed, and stored.
- `validation.dfy` (module `Validation`): the two checks the submit handler
  applies to raw fields, `areNumbers` (every field is finite) and
  `arePositive` (every field is > 0).
- `app.dfy` (module `App`): the submit handler `_newWorkout` as a pure
  function `Submit` from the workout list and the raw form fields to a
  `Result` and the new list. `Session` and `Created` cover a sequence of
  submissions.
- `wrappers.dfy` (module `Wrappers`): `Option` and `Result`.

A raw numeric field is an `Option<real>`. `Some(x)` is a finite number.
`None` is anything `Number.isFinite` rejects: NaN from a non-numeric string,
or an infinity. Unary `+` turns an empty or blank field into 0, so such a
field is `Some(0.0)`: an empty elevation field is accepted as a gain of 0. The workout list (`#workoutArr`) is a
`seq<Workout>`.

The validation is asymmetric, and the model keeps it that way:

- running needs distance, duration **and cadence** to be finite and > 0;
- cycling needs all three fields finite, but only distance and duration > 0;
- a zero or negative elevation gain is accepted.

The code requires a positive cadence (`script.js:125`). A looser reading
where cadence only has to be finite is not what the code does; the model
follows the code.

## Model

| member | source | states |
|---|---|---|
| Validation.AreNumbers | script.js:108-109 | true exactly when every raw field is a finite number |
| Validation.ArePositive | script.js:110 | true exactly when every field is strictly greater than zero |
| Workouts.Pace | script.js:33-35 | pace times distance gives back the duration; for a positive distance, pace is positive exactly when duration is |
| Workouts.Speed | script.js:46-48 | speed times duration in minutes gives back 60 times the distance; for a positive duration, speed is positive exactly when distance is |
| Workouts.NewRunning | script.js:25-31 | the Running constructor stores coords, distance, duration and cadence unchanged, tags the record "running", and fixes the pace so that pace × distance = duration |
| Workouts.NewCycling | script.js:38-44 | the Cycling constructor stores coords, distance, duration and elevation gain unchanged, tags the record "cycling", and fixes the speed so that speed × duration = 60 × distance |
| Workouts.Workout.Type | script.js:26-39 | the `type` tag is "running" exactly for the Running variant and is always "running" or "cycling" |
| Workouts.ValidMetric | script.js:25-48 | in a record satisfying `Valid` (positive distance and duration, a positive cadence for a run, and the metric the constructor stores, in product form), the stored pace is exactly duration / distance, the stored speed is exactly distance / (duration / 60), and the metric is strictly positive |
| Workouts.SpeedIsSixtyOverPace | script.js:33-48 | a units cross-check of the two formulas: for the same distance and duration, speed × pace = 60 (minutes per hour); no code path computes both for one record |
| App.Create | script.js:119-145 | the form is accepted exactly when the field-by-field acceptance rule holds: all three fields finite, distance and duration > 0, and for running cadence > 0. An accepted entry builds the variant its type selects, stores every field unchanged, and satisfies the record invariant |
| App.Submit | script.js:104-148 | accepted exactly under the acceptance rule. A refusal returns the list unchanged. An acceptance appends exactly the one record built from the fields at the end and keeps every earlier entry in order. The appended record satisfies the record invariant, so its pace or speed is the constructor's, whatever the list held before. A list that satisfied the invariant still does |
| App.Session | script.js:57-148 | the workout list after a run of submissions starting from `log`: it keeps `log` as its prefix and grows by at most one record per submission |
| App.Created | script.js:119-148 | a run of submissions produces at most one record per entry, and every record produced satisfies the record invariant |
| App.SessionAppendsCreated | script.js:148 | after any run of submissions, the list is the old list followed by the accepted entries' records in submission order; nothing is removed, reordered or changed |
| App.RejectionsLeaveLog | script.js:123-148 | any number of refused submissions in a row leaves the list exactly as it was |
| App.AcceptedInOrder | script.js:116-148 | when every entry is accepted, there is one new record per entry, and the i-th new record is the one built from the i-th entry |
| App.SessionPreservesValid | script.js:123-148 | starting from a list whose records all satisfy `Valid`, such as the empty `#workoutArr` (script.js:57), every record in the list after a run of submissions satisfies `Valid` and has positive distance and duration and a defined, strictly positive pace or speed |
| App.ElevationSignIgnored | script.js:134-144 | a cycling entry with positive distance and duration is accepted for any zero or negative elevation gain. It appends the Cycling record with that gain and speed distance / (duration / 60) |
| App.RunningExample | script.js:120-130 | 5.2 km in 24 min at cadence 178 is accepted and logged with pace 24 / 5.2 |
| App.CyclingExample | script.js:134-144 | 27 km in 95 min with 523 m of climbing is accepted and logged with speed 27 / (95 / 60) |
| App.NegativeDistanceExample | script.js:123-127 | a running entry with distance -5 is refused and the list is unchanged |
| App.EmptyElevationExample | script.js:135-144 | an empty elevation field, which unary `+` reads as 0, is accepted and the record is logged with elevation gain 0 |
| App.UnparsableElevationExample | script.js:137-141 | a cycling entry whose elevation field is not a finite number is refused and the list is unchanged |

## Left out

- DOM and form plumbing: element lookups (`script.js:6-12`), showing the form and toggling the cadence/elevation rows (`script.js:93-102`), clearing the fields after a submission (`script.js:154-158`). The alert text is kept only as `Rejection.Message`. `console.log` is not modelled.
- Geolocation and the Leaflet map: acquiring the position and its error callback (`script.js:67-75`), the map and tile layer (`script.js:77-91`), and the marker and popup (`script.js:163-177`). These are calls into the browser and a foreign library. The clicked position that `_showForm` stores is passed to `Submit` as its `coords` parameter.
- `id` and `date` (`script.js:15-16`): both come from the clock. The id is the last ten digits of `Date.now()`, so two records can share one. No uniqueness is claimed.
- The unused `months` array (`script.js:4`) and the commented-out sample objects (`script.js:51-52`).
- Converting a string to a number with unary `+`, and IEEE-754 arithmetic. Non-finite input is `None`, and pace and speed are computed over exact reals. The positivity results (`Workouts.ValidMetric`, `App.SessionPreservesValid`) hold only because of this: with IEEE doubles, a run of 1e300 km in 1e-300 min passes validation and gets a pace that rounds to 0, and a ride with the same figures gets speed Infinity.
- A type value other than `"running"` or `"cycling"`: the app would push `undefined` (`script.js:148`). The form's selector is a two-valued `Kind` here.
- Workouts.NewRunning: requires a nonzero distance. Called directly with distance 0, the JavaScript constructor stores Infinity, -Infinity or NaN as the pace, and exact reals have no such value. The submit handler never calls it that way.
- Workouts.NewCycling: requires a nonzero duration. Called directly with duration 0, the JavaScript constructor stores Infinity, -Infinity or NaN as the speed, for the same reason as `NewRunning`.
- `calcPace` and `calcSpeed` can be called again after construction. Records here are immutable, so calling them again would store the same value.
