/** The street-less routing engine (packages/maps/src/local-engine.ts): distances, step distances, step geometry. */
module LocalEngine {
  import opened Common
  import opened Machine
  import P = Polyline

  datatype LatLon = LatLon(lat: real, lon: real)

  /** A turn keeps the two bearings it is derived from. */
  datatype Maneuver = Depart | Turn(previous: Option<real>, next: real) | Arrive

  datatype RouteStep = RouteStep(maneuver: Maneuver, distanceMeters: int, geometryPolyline: Text)

  /** The duration is absent when the average speed is zero and the quotient is not a number of seconds. */
  datatype RouteResult = RouteResult(distanceMeters: int, durationSeconds: Option<int>, geometry: seq<P.Point<real>>)

  /** Great-circle distance and bearing, which are not part of this model beyond their types. */
  datatype Geodesy = Geodesy(distance: (LatLon, LatLon) -> real, bearing: (LatLon, LatLon) -> real)

  /** Precision the step polylines are encoded with. */
  const STEP_PRECISION: nat := 5

  function Coordinate(p: LatLon): P.Point<real> {
    P.Point(p.lon, p.lat)
  }

  function Coordinates(points: seq<LatLon>): (r: seq<P.Point<real>>)
    ensures |r| == |points|
    ensures forall i :: 0 <= i < |r| ==> r[i] == Coordinate(points[i])
    ensures forall i :: 0 <= i < |r| ==> r[i].lon == points[i].lon && r[i].lat == points[i].lat
  {
    seq(|points|, i requires 0 <= i < |points| => Coordinate(points[i]))
  }

  /** Origin, waypoints in order, destination. */
  function Path(origin: LatLon, destination: LatLon, waypoints: seq<LatLon>): (points: seq<LatLon>)
    ensures |points| == |waypoints| + 2
  {
    [origin] + waypoints + [destination]
  }

  /** Straight length of the first `n` segments. */
  function StraightLength(g: Geodesy, points: seq<LatLon>, n: nat): real
    requires n < |points|
  {
    if n == 0 then 0.0 else StraightLength(g, points, n - 1) + g.distance(points[n - 1], points[n])
  }

  /** A length stretched by the detour factor. */
  function Stretched(length: real, detourFactor: real): real {
    length * detourFactor
  }

  /** The stretched lengths of the first `n` segments, added up. */
  function StretchedSum(g: Geodesy, points: seq<LatLon>, detourFactor: real, n: nat): real
    requires n < |points|
  {
    if n == 0 then 0.0
    else StretchedSum(g, points, detourFactor, n - 1) + Stretched(g.distance(points[n - 1], points[n]), detourFactor)
  }

  lemma {:induction false} StretchDistributes(g: Geodesy, points: seq<LatLon>, detourFactor: real, n: nat)
    requires n < |points|
    ensures StretchedSum(g, points, detourFactor, n) == Stretched(StraightLength(g, points, n), detourFactor)
  {
    if n > 0 {
      StretchDistributes(g, points, detourFactor, n - 1);
      Distribute(StraightLength(g, points, n - 1), g.distance(points[n - 1], points[n]), detourFactor);
    }
  }

  lemma {:induction false} Distribute(a: real, b: real, f: real)
    ensures Stretched(a + b, f) == Stretched(a, f) + Stretched(b, f)
  {
  }

  /** Distances of the first `n` steps, added up. */
  function StepDistanceSum(steps: seq<RouteStep>, n: nat): int
    requires n <= |steps|
  {
    if n == 0 then 0 else StepDistanceSum(steps, n - 1) + steps[n - 1].distanceMeters
  }

  class LocalMapsEngine {
    const geodesy: Geodesy
    const avgSpeedMs: real
    const detourFactor: real

    constructor (geodesy: Geodesy, avgSpeedKmh: real, detourFactor: real)
      ensures this.geodesy == geodesy && this.detourFactor == detourFactor
      ensures avgSpeedMs == avgSpeedKmh * 1000.0 / 3600.0
    {
      this.geodesy := geodesy;
      this.avgSpeedMs := avgSpeedKmh * 1000.0 / 3600.0;
      this.detourFactor := detourFactor;
    }

    method Route(origin: LatLon, destination: LatLon, waypoints: seq<LatLon>) returns (r: RouteResult)
      ensures var points := Path(origin, destination, waypoints);
              && r.distanceMeters == Round(Stretched(StraightLength(geodesy, points, |points| - 1), detourFactor))
              && r.geometry == Coordinates(points)
      ensures var length := StraightLength(geodesy, Path(origin, destination, waypoints), |waypoints| + 1);
              r.distanceMeters as real - 0.5 <= length * detourFactor < r.distanceMeters as real + 0.5
      ensures r.durationSeconds ==
              if avgSpeedMs == 0.0 then None else Some(Round(r.distanceMeters as real / avgSpeedMs))
    {
      var points := Path(origin, destination, waypoints);
      var straight := 0.0;
      var prev := points[0];
      for i := 1 to |points|
        invariant prev == points[i - 1] && straight == StraightLength(geodesy, points, i - 1)
      {
        straight := straight + geodesy.distance(prev, points[i]);
        prev := points[i];
      }
      var distance := Round(Stretched(straight, detourFactor));
      var duration := if avgSpeedMs == 0.0 then None else Some(Round(distance as real / avgSpeedMs));
      r := RouteResult(distance, duration, Coordinates(points));
    }

    /** The step for the segment that ends at point `i + 1`. */
    function Segment(points: seq<LatLon>, i: nat): RouteStep
      requires i + 1 < |points|
    {
      var from, to := points[i], points[i + 1];
      RouteStep(
        if i == 0 then Depart
        else Turn(Some(geodesy.bearing(points[i - 1], from)), geodesy.bearing(from, to)),
        Round(Stretched(geodesy.distance(from, to), detourFactor)),
        P.EncodedFrom(P.Quantise([Coordinate(from), Coordinate(to)], STEP_PRECISION), 0, 0))
    }

    method RouteWithSteps(origin: LatLon, destination: LatLon, waypoints: seq<LatLon>)
      returns (base: RouteResult, steps: seq<RouteStep>)
      ensures var points := Path(origin, destination, waypoints);
              && |steps| == |points|
              && (forall i :: 0 <= i < |points| - 1 ==> steps[i] == Segment(points, i))
              && steps[|points| - 1] == RouteStep(Arrive, 0, [])
      ensures var points := Path(origin, destination, waypoints);
              && base.distanceMeters == Round(Stretched(StraightLength(geodesy, points, |points| - 1), detourFactor))
              && base.geometry == Coordinates(points)
      ensures base.durationSeconds ==
              if avgSpeedMs == 0.0 then None else Some(Round(base.distanceMeters as real / avgSpeedMs))
    {
      base := Route(origin, destination, waypoints);
      var points := Path(origin, destination, waypoints);
      steps := [];
      var prevBearing: Option<real> := None;
      var prev := origin;
      for i := 0 to |points| - 1
        invariant |steps| == i && prev == points[i]
        invariant prevBearing == if i == 0 then None else Some(geodesy.bearing(points[i - 1], points[i]))
        invariant forall j :: 0 <= j < i ==> steps[j] == Segment(points, j)
      {
        var from, to := prev, points[i + 1];
        var segMeters := Round(Stretched(geodesy.distance(from, to), detourFactor));
        var bearing := geodesy.bearing(from, to);
        var maneuver := if i == 0 then Depart else Turn(prevBearing, bearing);
        var line := P.EncodePolyline([Coordinate(from), Coordinate(to)], STEP_PRECISION);
        steps := steps + [RouteStep(maneuver, segMeters, line)];
        prevBearing := Some(bearing);
        prev := to;
      }
      steps := steps + [RouteStep(Arrive, 0, [])];
    }

    lemma {:induction false} SegmentSum(points: seq<LatLon>, steps: seq<RouteStep>, n: nat)
      requires n < |points| && n <= |steps|
      requires forall i :: 0 <= i < n ==> steps[i] == Segment(points, i)
      ensures var gap := StepDistanceSum(steps, n) as real - StretchedSum(geodesy, points, detourFactor, n);
              -(n as real) <= 2.0 * gap <= n as real
    {
      if n > 0 {
        SegmentSum(points, steps, n - 1);
        P.RoundBounds(Stretched(geodesy.distance(points[n - 1], points[n]), detourFactor));
        assert steps[n - 1] == Segment(points, n - 1);
      }
    }

    /** For a path of `n` segments the step distances add up to the route distance within (n + 1) / 2 metres. */
    lemma {:induction false} StepDistances(
      origin: LatLon, destination: LatLon, waypoints: seq<LatLon>, base: RouteResult, steps: seq<RouteStep>)
      requires var points := Path(origin, destination, waypoints);
               && |steps| == |points|
               && (forall i :: 0 <= i < |points| - 1 ==> steps[i] == Segment(points, i))
               && steps[|points| - 1] == RouteStep(Arrive, 0, [])
               && base.distanceMeters == Round(Stretched(StraightLength(geodesy, points, |points| - 1), detourFactor))
      ensures var segments := |waypoints| + 1;
              -(segments + 1) <= 2 * (StepDistanceSum(steps, |steps|) - base.distanceMeters) <= segments + 1
    {
      var points := Path(origin, destination, waypoints);
      var n := |points| - 1;
      SegmentSum(points, steps, n);
      StretchDistributes(geodesy, points, detourFactor, n);
      P.RoundBounds(StretchedSum(geodesy, points, detourFactor, n));
    }

    /**
      A step's distance is its segment's length times the detour factor, to the nearest metre; the bearing a turn comes
      from is the one the step before it left on.
     */
    lemma {:induction false} SegmentMeasures(points: seq<LatLon>, i: nat)
      requires i + 1 < |points|
      ensures var d, length := Segment(points, i).distanceMeters, geodesy.distance(points[i], points[i + 1]);
              d as real - 0.5 <= length * detourFactor < d as real + 0.5
      ensures Segment(points, i).maneuver ==
              if i == 0 then Depart
              else Turn(Some(geodesy.bearing(points[i - 1], points[i])), geodesy.bearing(points[i], points[i + 1]))
      ensures i >= 2 ==> Segment(points, i).maneuver.previous == Some(Segment(points, i - 1).maneuver.next)
    {
    }

    /** A step's polyline decodes to the two quantised ends of its segment. */
    lemma {:induction false} SegmentGeometry(points: seq<LatLon>, i: nat)
      requires i + 1 < |points| && P.LegalCoordinates(Coordinates(points))
      ensures P.DecodedFrom(Segment(points, i).geometryPolyline, 0, 0, 0) ==
              [P.Quantised(Coordinate(points[i]), 5), P.Quantised(Coordinate(points[i + 1]), 5)]
    {
      var ends := [Coordinate(points[i]), Coordinate(points[i + 1])];
      assert ends[0] == Coordinates(points)[i] && ends[1] == Coordinates(points)[i + 1];
      P.LegalFits(ends, STEP_PRECISION);
      P.GridRoundTrip(P.Quantise(ends, STEP_PRECISION));
    }

    /** The step's line has two points, the ends of its segment on the grid. */
    predicate LineJoins(step: RouteStep, from: LatLon, end: LatLon) {
      P.Line(step.geometryPolyline, STEP_PRECISION) == [Snapped(from), Snapped(end)]
    }

    lemma {:induction false} SegmentLine(points: seq<LatLon>, i: nat)
      requires i + 1 < |points| && P.LegalCoordinates(Coordinates(points))
      ensures LineJoins(Segment(points, i), points[i], points[i + 1])
    {
      SegmentGeometry(points, i);
      hide P.OffGrid;
      hide P.Quantised;
      hide P.LegalCoordinates;
      hide Segment;
      hide P.DecodedFrom;
    }

    lemma {:induction false} LinesChain(points: seq<LatLon>, steps: seq<RouteStep>, i: nat)
      requires P.LegalCoordinates(Coordinates(points)) && i + 1 < |steps| == |points|
      requires forall j :: 0 <= j < |points| - 1 ==> steps[j] == Segment(points, j)
      ensures var line := P.Line(steps[i].geometryPolyline, STEP_PRECISION);
              && |line| == 2 && line[0] == Snapped(points[i]) && line[1] == Snapped(points[i + 1])
              && P.Close(line[0], Coordinate(points[i]), STEP_PRECISION)
              && P.Close(line[1], Coordinate(points[i + 1]), STEP_PRECISION)
    {
      SegmentLine(points, i);
      hide P.Line;
      hide P.LegalCoordinates;
      hide Segment;
      P.QuantisedClose(Coordinate(points[i]), STEP_PRECISION);
      P.QuantisedClose(Coordinate(points[i + 1]), STEP_PRECISION);
      hide P.Close;
      hide P.OffGrid;
      hide P.Quantised;
      hide Coordinate;
    }

    lemma {:induction false} NoLine(precision: nat)
      ensures P.Line([], precision) == []
    {
    }

    /**
      The decoded step polylines form one unbroken line: each step starts on the very point the previous one ended on,
      the first starts at the quantised origin, the last moving step ends at the quantised destination, and the
      arrival step has no line.
     */
    lemma {:induction false} StepsChain(
      origin: LatLon, destination: LatLon, waypoints: seq<LatLon>, steps: seq<RouteStep>)
      requires var points := Path(origin, destination, waypoints);
               && P.LegalCoordinates(Coordinates(points))
               && |steps| == |points|
               && (forall i :: 0 <= i < |points| - 1 ==> steps[i] == Segment(points, i))
               && steps[|points| - 1] == RouteStep(Arrive, 0, [])
      ensures forall i :: 0 <= i < |steps| - 1 ==> |P.Line(steps[i].geometryPolyline, STEP_PRECISION)| == 2
      ensures forall i :: 0 <= i < |steps| - 2 ==>
                P.Line(steps[i].geometryPolyline, STEP_PRECISION)[1] ==
                  P.Line(steps[i + 1].geometryPolyline, STEP_PRECISION)[0]
      ensures P.Close(P.Line(steps[0].geometryPolyline, STEP_PRECISION)[0], Coordinate(origin), STEP_PRECISION)
      ensures P.Close(P.Line(steps[|steps| - 2].geometryPolyline, STEP_PRECISION)[1], Coordinate(destination),
              STEP_PRECISION)
      ensures forall i :: 0 <= i < |waypoints| ==>
                P.Close(P.Line(steps[i].geometryPolyline, STEP_PRECISION)[1], Coordinate(waypoints[i]), STEP_PRECISION)
      ensures P.Line(steps[|steps| - 1].geometryPolyline, STEP_PRECISION) == []
    {
      var points := Path(origin, destination, waypoints);
      NoLine(STEP_PRECISION);
      hide *;
      PathPoints(origin, destination, waypoints);
      forall i | 0 <= i < |steps| - 1 ensures |P.Line(steps[i].geometryPolyline, STEP_PRECISION)| == 2 {
        LinesChain(points, steps, i);
      }
      forall i | 0 <= i < |steps| - 2
        ensures P.Line(steps[i].geometryPolyline, STEP_PRECISION)[1] ==
                P.Line(steps[i + 1].geometryPolyline, STEP_PRECISION)[0]
      {
        LinesChain(points, steps, i);
        LinesChain(points, steps, i + 1);
      }
      LinesChain(points, steps, 0);
      LinesChain(points, steps, |steps| - 2);
      forall i | 0 <= i < |waypoints|
        ensures P.Close(P.Line(steps[i].geometryPolyline, STEP_PRECISION)[1], Coordinate(waypoints[i]), STEP_PRECISION)
      {
        LinesChain(points, steps, i);
      }
    }
  }

  lemma {:induction false} PathPoints(origin: LatLon, destination: LatLon, waypoints: seq<LatLon>)
    ensures var points := Path(origin, destination, waypoints);
            && |points| == |waypoints| + 2 && points[0] == origin && points[|points| - 1] == destination
            && forall i :: 0 <= i < |waypoints| ==> points[i + 1] == waypoints[i]
  {
  }

  /** A point on the grid of a step's line. */
  function Snapped(p: LatLon): P.Point<real> {
    P.OffGrid(P.Quantised(Coordinate(p), STEP_PRECISION), STEP_PRECISION)
  }
}
