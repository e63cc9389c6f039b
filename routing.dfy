/**
 * The walking-route lookup: a place is parsed to a coordinate, the
 * router's answer is read when it is a usable "Ok" payload, and the
 * straight-line estimate stands in when the request fails, the body is
 * not JSON, or the status code is anything but "Ok".
 */
module Routing {
  import opened Wrappers
  import opened Failures
  import Text
  import Numerals
  import opened Geometry

  /** One turn-by-turn step of the router, passed through unread. */
  datatype Step = Step(instruction: string)

  /** A leg of a route; `steps` is absent when the key is missing. */
  datatype Leg = Leg(steps: Option<seq<Step>>)

  /** One element of the payload's "routes" list; None marks an absent key. */
  datatype RouteEntry = RouteEntry(distance: Option<real>, duration: Option<real>, legs: Option<seq<Leg>>)

  /** What one request to the router yields. */
  datatype ServiceOutcome =
    | RequestFailed    // connection error, timeout or error status
    | Undecodable      // the body is not JSON
    | Payload(code: Option<string>, routes: Option<seq<RouteEntry>>)

  /** A place argument: "lat,lng" text, or a mapping with "lat" and "lng". */
  datatype Place = AsText(text: string) | AsCoord(at: Coord)

  /** The three-key answer: meters, seconds and the first leg's steps. */
  datatype RouteInfo = RouteInfo(distance: real, duration: real, steps: seq<Step>)

  const DETOUR_FACTOR: real := 1.2
  const WALKING_SPEED: real := 1.3

  /** The text a place is written as when a coordinate is passed on: "lat,lng". */
  function CoordinateText(lat: Numerals.Fixed, lng: Numerals.Fixed): string
  {
    Text.Join([Numerals.Render(lat), Numerals.Render(lng)], ',')
  }

  /**
   * Reads a place: text is split at commas into exactly two floats
   * (anything else raises ValueError); a mapping is read as it is.
   */
  function ParsePlace(p: Place): (r: Result<Coord, Raised>)
    ensures r.Failure? ==> p.AsText? && r.error == ValueError
    ensures p.AsCoord? ==> r == Success(p.at)
    ensures p.AsText? ==>
      var parts := Text.Split(p.text, ',');
      (r.Success? <==> |parts| == 2 && Numerals.ParseFloat(parts[0]).Some? && Numerals.ParseFloat(parts[1]).Some?)
    ensures p.AsText? && r.Success? ==>
      var parts := Text.Split(p.text, ',');
      r.value == Coord(Numerals.ParseFloat(parts[0]).value, Numerals.ParseFloat(parts[1]).value)
  {
    match p
    case AsCoord(at) => Success(at)
    case AsText(s) =>
      var parts := Text.Split(s, ',');
      if |parts| != 2 then
        Failure(ValueError)
      else
        var lat := Numerals.ParseFloat(parts[0]);
        var lng := Numerals.ParseFloat(parts[1]);
        if lat.None? || lng.None? then Failure(ValueError) else Success(Coord(lat.value, lng.value))
  }

  /** The coordinate two decimal literals stand for. */
  function LiteralCoord(lat: Numerals.Fixed, lng: Numerals.Fixed): Coord
  {
    Coord(Numerals.Value(lat), Numerals.Value(lng))
  }

  /** The place handed to the lookup for two literals: their "lat,lng" text, which reads back as their coordinate. */
  function LiteralPlace(lat: Numerals.Fixed, lng: Numerals.Fixed): (place: Place)
    ensures place.AsText?
    ensures ParsePlace(place) == Success(LiteralCoord(lat, lng))
  {
    ParseCoordinateText(lat, lng);
    AsText(CoordinateText(lat, lng))
  }

  /** Round trip: the text written for two literals parses back to their values. */
  lemma ParseCoordinateText(lat: Numerals.Fixed, lng: Numerals.Fixed)
    ensures ParsePlace(AsText(CoordinateText(lat, lng))) == Success(Coord(Numerals.Value(lat), Numerals.Value(lng)))
  {
    var parts := [Numerals.Render(lat), Numerals.Render(lng)];
    Numerals.RenderHasNoComma(lat);
    Numerals.RenderHasNoComma(lng);
    Text.SplitJoin(parts, ',');
    Numerals.ParseRender(lat);
    Numerals.ParseRender(lng);
  }

  /**
   * The estimate used when the router gives no usable answer: 1.2 times
   * the straight line, walked at 1.3 m/s and truncated to whole seconds,
   * with no steps.
   */
  function Estimate(origin: Coord, dest: Coord): (info: RouteInfo)
    ensures info.distance == DETOUR_FACTOR * StraightLine(origin, dest)
    ensures info.distance >= 0.0 && (info.distance == 0.0 <==> origin == dest)
    ensures 0.0 <= info.duration <= info.distance / WALKING_SPEED < info.duration + 1.0
    ensures info.duration == (info.distance / WALKING_SPEED).Floor as real
    ensures info.steps == []
  {
    var straight := StraightLine(origin, dest);
    var distance := straight * DETOUR_FACTOR;
    RouteInfo(distance, (distance / WALKING_SPEED).Floor as real, [])
  }

  /** The estimate does not depend on the direction of travel. */
  lemma EstimateSymmetric(a: Coord, b: Coord)
    ensures Estimate(a, b) == Estimate(b, a)
  {
    StraightLineSymmetric(a, b);
  }

  /** Outcomes the lookup recovers from by estimating. */
  predicate Recoverable(outcome: ServiceOutcome)
  {
    || outcome.RequestFailed?
    || outcome.Undecodable?
    || (outcome.Payload? && outcome.code.Some? && outcome.code.value != "Ok")
  }

  /** A route entry holding every key the lookup reads, with a first leg. */
  predicate EntryUsable(e: RouteEntry)
  {
    && e.distance.Some? && e.duration.Some? && e.legs.Some?
    && |e.legs.value| > 0 && e.legs.value[0].steps.Some?
  }

  /** An "Ok" payload from which the lookup can read its answer. */
  predicate Usable(outcome: ServiceOutcome)
  {
    && outcome.Payload? && outcome.code == Some("Ok")
    && outcome.routes.Some? && |outcome.routes.value| > 0
    && EntryUsable(outcome.routes.value[0])
  }

  /** The answer read from a usable payload: the first route and its first leg's steps. */
  function ServiceRoute(outcome: ServiceOutcome): RouteInfo
    requires Usable(outcome)
  {
    var e := outcome.routes.value[0];
    RouteInfo(e.distance.value, e.duration.value, e.legs.value[0].steps.value)
  }

  /** The exception a payload that is neither usable nor recoverable raises. */
  function PayloadError(outcome: ServiceOutcome): Raised
    requires outcome.Payload?
  {
    if outcome.code.None? || outcome.routes.None? then KeyError
    else if |outcome.routes.value| == 0 then IndexError
    else
      var e := outcome.routes.value[0];
      if e.distance.None? || e.duration.None? || e.legs.None? then KeyError
      else if |e.legs.value| == 0 then IndexError
      else KeyError
  }

  /** Payloads the lookup neither reads nor recovers from: reading them raises. */
  predicate Malformed(outcome: ServiceOutcome)
  {
    !Recoverable(outcome) && !Usable(outcome)
  }

  /** The route between two coordinates, given what the router answers. */
  function ResolveRoute(origin: Coord, dest: Coord, outcome: ServiceOutcome): (r: Result<RouteInfo, Raised>)
    ensures Recoverable(outcome) ==> r == Success(Estimate(origin, dest))
    ensures Usable(outcome) ==> r == Success(ServiceRoute(outcome))
    ensures Malformed(outcome) ==> r == Failure(PayloadError(outcome))
  {
    match outcome
    case RequestFailed => Success(Estimate(origin, dest))
    case Undecodable => Success(Estimate(origin, dest))
    case Payload(code, routes) =>
      if code.None? then Failure(KeyError)
      else if code.value != "Ok" then Success(Estimate(origin, dest))
      else if routes.None? then Failure(KeyError)
      else if |routes.value| == 0 then Failure(IndexError)
      else
        var e := routes.value[0];
        if e.distance.None? || e.duration.None? || e.legs.None? then Failure(KeyError)
        else if |e.legs.value| == 0 then Failure(IndexError)
        else if e.legs.value[0].steps.None? then Failure(KeyError)
        else Success(RouteInfo(e.distance.value, e.duration.value, e.legs.value[0].steps.value))
  }

  /** The route between two places: both are read first, and a malformed one raises ValueError. */
  function GetRoute(origin: Place, dest: Place, outcome: ServiceOutcome): (r: Result<RouteInfo, Raised>)
    ensures ParsePlace(origin).Failure? || ParsePlace(dest).Failure? ==> r == Failure(ValueError)
    ensures ParsePlace(origin).Success? && ParsePlace(dest).Success? ==>
      r == ResolveRoute(ParsePlace(origin).value, ParsePlace(dest).value, outcome)
  {
    var o := ParsePlace(origin);
    if o.Failure? then Failure(o.error)
    else
      var d := ParsePlace(dest);
      if d.Failure? then Failure(d.error)
      else ResolveRoute(o.value, d.value, outcome)
  }

  /** The lookup raises exactly when a place is malformed or the payload is neither usable nor recoverable. */
  lemma GetRouteRaisesIff(origin: Place, dest: Place, outcome: ServiceOutcome)
    ensures GetRoute(origin, dest, outcome).Failure? <==>
      ParsePlace(origin).Failure? || ParsePlace(dest).Failure? || Malformed(outcome)
  {
  }
}
