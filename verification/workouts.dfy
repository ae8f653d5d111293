/**
 * The workout records: a running or a cycling session at a point on the map,
 * with a distance in kilometres, a duration in minutes, one field of its own
 * and one metric derived from distance and duration when it is created.
 */
module Workouts {

  /** The clicked map position, stored as the pair `[lat, lng]`. */
  datatype LatLng = LatLng(lat: real, lng: real)

  /**
   * A record is never changed after construction, so the derived metric
   * (`pace` for running, `speed` for cycling) is a stored field.
   */
  datatype Workout =
    | Running(coords: LatLng, distance: real, duration: real, cadence: real, pace: real)
    | Cycling(coords: LatLng, distance: real, duration: real, elevationGain: real, speed: real)
  {
    /** The `type` tag each variant carries. */
    function Type(): (s: string)
      ensures s == "running" <==> Running?
      ensures s == "running" || s == "cycling"
    {
      if Running? then "running" else "cycling"
    }

    /** The variant's derived metric: pace for running, speed for cycling. */
    function Metric(): (m: real) {
      if Running? then pace else speed
    }
  }

  /** Minutes per kilometre. */
  function Pace(distance: real, duration: real): (r: real)
    requires distance != 0.0
    ensures r * distance == duration
    ensures distance > 0.0 ==> (r > 0.0 <==> duration > 0.0)
  {
    duration / distance
  }

  /** Kilometres per hour, from a duration given in minutes. */
  function Speed(distance: real, duration: real): (r: real)
    requires duration != 0.0
    ensures r * duration == 60.0 * distance
    ensures duration > 0.0 ==> (r > 0.0 <==> distance > 0.0)
  {
    distance / (duration / 60.0)
  }

  /** The `Running` constructor: stores its arguments and computes the pace once. */
  function NewRunning(coords: LatLng, distance: real, duration: real, cadence: real): (w: Workout)
    requires distance != 0.0
    ensures w.Running? && w.Type() == "running"
    ensures w.coords == coords && w.distance == distance && w.duration == duration
    ensures w.cadence == cadence
    ensures w.pace * distance == duration
  {
    Running(coords, distance, duration, cadence, Pace(distance, duration))
  }

  /** The `Cycling` constructor: stores its arguments and computes the speed once. */
  function NewCycling(coords: LatLng, distance: real, duration: real, elevationGain: real): (w: Workout)
    requires duration != 0.0
    ensures w.Cycling? && w.Type() == "cycling"
    ensures w.coords == coords && w.distance == distance && w.duration == duration
    ensures w.elevationGain == elevationGain
    ensures w.speed * duration == 60.0 * distance
  {
    Cycling(coords, distance, duration, elevationGain, Speed(distance, duration))
  }

  /**
   * What every record that entered the log satisfies: positive distance and
   * duration, a positive cadence for running, and a metric that agrees with
   * distance and duration.
   */
  predicate Valid(w: Workout) {
    && w.distance > 0.0
    && w.duration > 0.0
    && match w
       case Running(_, d, t, c, p) => c > 0.0 && p * d == t
       case Cycling(_, d, t, _, s) => s * t == 60.0 * d
  }

  /** In a valid record the stored metric is exactly the app's division formula, and positive. */
  lemma ValidMetric(w: Workout)
    requires Valid(w)
    ensures w.Running? ==> w.pace == w.duration / w.distance
    ensures w.Cycling? ==> w.speed == w.distance / (w.duration / 60.0)
    ensures w.Metric() > 0.0
  {
  }

  /**
   * A units cross-check between the two formulas: for the same distance and
   * duration, speed in km/h and pace in min/km are reciprocal up to the
   * factor 60 minutes per hour. No code path computes both for one record.
   */
  lemma SpeedIsSixtyOverPace(distance: real, duration: real)
    requires distance > 0.0 && duration > 0.0
    ensures Speed(distance, duration) * Pace(distance, duration) == 60.0
  {
  }
}
