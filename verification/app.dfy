/**
 * The submit workflow of the app: the raw form fields are validated, the
 * variant the form's type selects is constructed, and the record is appended
 * to the in-memory workout list. A refused submission returns before the
 * append, so the list is left as it was.
 */
module App {
  import opened Wrappers
  import opened Validation
  import Workouts

  /** The form's type selector: `"running"` or `"cycling"`. */
  datatype Kind = Running | Cycling {
    function Value(): (s: string)
      ensures s == "running" <==> Running?
    {
      if Running? then "running" else "cycling"
    }
  }

  /** Why a submission was refused; the app shows it in an alert. */
  datatype Rejection = InvalidEntry {
    function Message(): (s: string) {
      "Invalid entry. The numbers must be positive!"
    }
  }

  /**
   * Which raw inputs the form accepts, stated field by field: all three fields
   * finite, distance and duration positive, and for running the cadence
   * positive too; the cycling elevation gain only has to be finite.
   */
  predicate Accepts(kind: Kind, distance: Option<real>, duration: Option<real>, extra: Option<real>) {
    && distance.Some? && duration.Some? && extra.Some?
    && distance.value > 0.0 && duration.value > 0.0
    && (kind.Running? ==> extra.value > 0.0)
  }

  /**
   * The record `w` is the one the `kind` branch builds from these fields:
   * right variant and type tag, and every given field stored unchanged.
   */
  predicate Stores(w: Workouts.Workout, kind: Kind, coords: Workouts.LatLng,
                   distance: real, duration: real, extra: real)
  {
    && w.Type() == kind.Value()
    && w.coords == coords && w.distance == distance && w.duration == duration
    && match kind
       case Running => w.Running? && w.cadence == extra
       case Cycling => w.Cycling? && w.elevationGain == extra
  }

  /**
   * Validation and construction: the part of the submit handler before the
   * push. `extra` is the cadence field for running and the elevation field
   * for cycling.
   */
  function Create(kind: Kind, coords: Workouts.LatLng,
                  distance: Option<real>, duration: Option<real>, extra: Option<real>)
    : (r: Result<Workouts.Workout, Rejection>)
    ensures r.Success? <==> Accepts(kind, distance, duration, extra)
    ensures r.Success? ==>
              && Workouts.Valid(r.value)
              && Stores(r.value, kind, coords, distance.value, duration.value, extra.value)
  {
    var inputs := [distance, duration, extra];
    match kind
    case Running =>
      if !AreNumbers(inputs) then
        Failure(InvalidEntry)
      else
        assert inputs[0].Some? && inputs[1].Some? && inputs[2].Some?;
        var numbers := Numbers(inputs);
        if !ArePositive(numbers) then
          assert !(numbers[0] > 0.0 && numbers[1] > 0.0 && numbers[2] > 0.0);
          Failure(InvalidEntry)
        else
          assert numbers[0] > 0.0 && numbers[1] > 0.0 && numbers[2] > 0.0;
          Success(Workouts.NewRunning(coords, distance.value, duration.value, extra.value))
    case Cycling =>
      if !AreNumbers(inputs) then
        Failure(InvalidEntry)
      else
        assert inputs[0].Some? && inputs[1].Some? && inputs[2].Some?;
        var numbers := Numbers([distance, duration]);
        if !ArePositive(numbers) then
          assert !(numbers[0] > 0.0 && numbers[1] > 0.0);
          Failure(InvalidEntry)
        else
          assert numbers[0] > 0.0 && numbers[1] > 0.0;
          Success(Workouts.NewCycling(coords, distance.value, duration.value, extra.value))
  }

  /** What one submission returns, together with the workout list after it. */
  datatype Outcome = Outcome(result: Result<Workouts.Workout, Rejection>, log: seq<Workouts.Workout>)

  /** Every record of the list satisfies the record invariant. */
  predicate AllValid(log: seq<Workouts.Workout>) {
    forall i :: 0 <= i < |log| ==> Workouts.Valid(log[i])
  }

  /** One press of the form's submit button, against the workout list `log`. */
  function Submit(log: seq<Workouts.Workout>, kind: Kind, coords: Workouts.LatLng,
                  distance: Option<real>, duration: Option<real>, extra: Option<real>)
    : (o: Outcome)
    ensures o.result.Success? <==> Accepts(kind, distance, duration, extra)
    ensures o.result.Failure? ==> o.log == log
    ensures o.result.Success? ==> o.log == log + [o.result.value]
    ensures o.result.Success? ==>
              Stores(o.result.value, kind, coords, distance.value, duration.value, extra.value)
    ensures o.result.Success? ==> Workouts.Valid(o.result.value)
    ensures AllValid(log) ==> AllValid(o.log)
  {
    var r := Create(kind, coords, distance, duration, extra);
    match r
    case Failure(_) => Outcome(r, log)
    case Success(w) => Outcome(r, log + [w])
  }

  /** The raw fields of one form submission. */
  datatype Entry = Entry(kind: Kind, coords: Workouts.LatLng,
                         distance: Option<real>, duration: Option<real>, extra: Option<real>)
  {
    predicate Accepted() {
      Accepts(kind, distance, duration, extra)
    }

    /** The entry is accepted and `w` is the record its branch builds. */
    predicate Builds(w: Workouts.Workout) {
      Accepted() && Stores(w, kind, coords, distance.value, duration.value, extra.value)
    }
  }

  /** The workout list after the entries are submitted one after another. */
  function Session(log: seq<Workouts.Workout>, entries: seq<Entry>): (r: seq<Workouts.Workout>)
    ensures |log| <= |r| <= |log| + |entries|
    ensures r[..|log|] == log
    decreases |entries|
  {
    if entries == [] then log
    else
      var e := entries[0];
      Session(Submit(log, e.kind, e.coords, e.distance, e.duration, e.extra).log, entries[1..])
  }

  /** The records the accepted entries produce, in submission order. */
  function Created(entries: seq<Entry>): (ws: seq<Workouts.Workout>)
    ensures |ws| <= |entries|
    ensures AllValid(ws)
    decreases |entries|
  {
    if entries == [] then []
    else
      var e := entries[0];
      match Create(e.kind, e.coords, e.distance, e.duration, e.extra)
      case Success(w) => [w] + Created(entries[1..])
      case Failure(_) => Created(entries[1..])
  }

  /** A session only appends: the earlier list is a prefix, followed by the accepted records in order. */
  lemma {:induction false} SessionAppendsCreated(log: seq<Workouts.Workout>, entries: seq<Entry>)
    ensures Session(log, entries) == log + Created(entries)
    decreases |entries|
  {
    if entries != [] {
      var e := entries[0];
      var o := Submit(log, e.kind, e.coords, e.distance, e.duration, e.extra);
      SessionAppendsCreated(o.log, entries[1..]);
      match o.result
      case Success(w) =>
        assert log + [w] + Created(entries[1..]) == log + ([w] + Created(entries[1..]));
      case Failure(_) =>
    }
  }

  /** Refused submissions, however many, never grow the list. */
  lemma {:induction false} RejectionsLeaveLog(log: seq<Workouts.Workout>, entries: seq<Entry>)
    requires forall i :: 0 <= i < |entries| ==> !entries[i].Accepted()
    ensures Session(log, entries) == log
    decreases |entries|
  {
    if entries != [] {
      RejectionsLeaveLog(log, entries[1..]);
    }
  }

  /** When every entry is accepted, the i-th new record is the one built from the i-th entry. */
  lemma {:induction false} AcceptedInOrder(entries: seq<Entry>)
    requires forall i :: 0 <= i < |entries| ==> entries[i].Accepted()
    ensures |Created(entries)| == |entries|
    ensures forall i :: 0 <= i < |entries| ==> entries[i].Builds(Created(entries)[i])
    decreases |entries|
  {
    if entries != [] {
      AcceptedInOrder(entries[1..]);
      var e := entries[0];
      var w := Create(e.kind, e.coords, e.distance, e.duration, e.extra).value;
      assert Created(entries) == [w] + Created(entries[1..]);
      forall i | 0 <= i < |entries|
        ensures entries[i].Builds(Created(entries)[i])
      {
        if i > 0 {
          assert entries[i] == entries[1..][i - 1];
        }
      }
    }
  }

  /** Every record a session leaves in the list has a defined, positive metric. */
  lemma SessionPreservesValid(log: seq<Workouts.Workout>, entries: seq<Entry>)
    requires AllValid(log)
    ensures AllValid(Session(log, entries))
    ensures forall i :: 0 <= i < |Session(log, entries)| ==> Session(log, entries)[i].Metric() > 0.0
  {
    SessionAppendsCreated(log, entries);
    var s := Session(log, entries);
    forall i | 0 <= i < |s|
      ensures s[i].Metric() > 0.0
    {
      Workouts.ValidMetric(s[i]);
    }
  }

  /** Cycling takes the elevation gain as given: zero and negative values are accepted. */
  lemma ElevationSignIgnored(log: seq<Workouts.Workout>, coords: Workouts.LatLng,
                             distance: real, duration: real, elevationGain: real)
    requires distance > 0.0 && duration > 0.0 && elevationGain <= 0.0
    ensures Submit(log, Cycling, coords, Some(distance), Some(duration), Some(elevationGain)).log
            == log + [Workouts.Cycling(coords, distance, duration, elevationGain,
                                       distance / (duration / 60.0))]
  {
  }

  /** A run of 5.2 km in 24 min at cadence 178 is logged with pace 24 / 5.2. */
  lemma RunningExample(log: seq<Workouts.Workout>)
    ensures var o := Submit(log, Running, Workouts.LatLng(39.0, -12.0), Some(5.2), Some(24.0), Some(178.0));
            && o.result.Success?
            && o.result.value.pace == 24.0 / 5.2
            && o.log == log + [o.result.value]
  {
  }

  /** A ride of 27 km in 95 min climbing 523 m is logged with speed 27 / (95 / 60). */
  lemma CyclingExample(log: seq<Workouts.Workout>)
    ensures var o := Submit(log, Cycling, Workouts.LatLng(39.0, -12.0), Some(27.0), Some(95.0), Some(523.0));
            && o.result.Success?
            && o.result.value.speed == 27.0 / (95.0 / 60.0)
            && o.log == log + [o.result.value]
  {
  }

  /** A negative distance is refused and the list stays as it was. */
  lemma NegativeDistanceExample(log: seq<Workouts.Workout>)
    ensures Submit(log, Running, Workouts.LatLng(39.0, -12.0), Some(-5.0), Some(24.0), Some(178.0))
            == Outcome(Failure(InvalidEntry), log)
  {
  }

  /** An elevation field that does not parse as a number is refused. */
  lemma UnparsableElevationExample(log: seq<Workouts.Workout>)
    ensures Submit(log, Cycling, Workouts.LatLng(0.0, 0.0), Some(10.0), Some(30.0), None)
            == Outcome(Failure(InvalidEntry), log)
  {
  }

  /** An empty elevation field reads as 0 and is accepted as a gain of 0. */
  lemma EmptyElevationExample(log: seq<Workouts.Workout>)
    ensures var o := Submit(log, Cycling, Workouts.LatLng(0.0, 0.0), Some(10.0), Some(30.0), Some(0.0));
            && o.result.Success?
            && o.result.value.elevationGain == 0.0
            && o.log == log + [o.result.value]
  {
  }
}
