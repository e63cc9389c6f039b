/**
 * Where the geocoder's answers are judged: whether a searched place is on
 * the campus, and which places found around a location belong to the
 * university. The geocoder's answer is an input, a list of hits.
 */
module Campus {
  import opened Wrappers
  import opened Failures
  import Text
  import Numerals
  import opened Geometry
  import opened Routing

  /** One entry of the geocoder's answer: its name, display name, and coordinates as text. */
  datatype GeoHit = GeoHit(name: string, displayName: string, lat: string, lon: string)

  /** A display name that names the university, in full or abbreviated. */
  predicate Mentions(displayName: string)
  {
    Text.Contains(displayName, "武汉大学") || Text.Contains(displayName, "武大")
  }

  /** The campus box: latitude 30.580 to 30.610, longitude 114.280 to 114.310, bounds included. */
  predicate InBox(at: Coord)
  {
    30.580 <= at.lat <= 30.610 && 114.280 <= at.lng <= 114.310
  }

  /** A hit's coordinates, each read with float(); either one unreadable raises ValueError. */
  function HitCoord(hit: GeoHit): Result<Coord, Raised>
  {
    var lat := Numerals.ParseFloat(hit.lat);
    var lon := Numerals.ParseFloat(hit.lon);
    if lat.None? || lon.None? then Failure(ValueError) else Success(Coord(lat.value, lon.value))
  }

  /** The verdict on a place, and its coordinates when it is on the campus. */
  datatype CampusCheck = CampusCheck(inCampus: bool, at: Option<Coord>)

  /**
   * Only the first hit is judged. A display name naming the university
   * puts it on the campus wherever its coordinates are; otherwise its
   * coordinates must lie in the box. No hit, or a hit outside, is not on
   * the campus; an unreadable coordinate raises ValueError.
   */
  function CheckInCampus(hits: seq<GeoHit>): (r: Result<CampusCheck, Raised>)
    ensures r.Failure? <==> |hits| > 0 && HitCoord(hits[0]).Failure?
    ensures r.Failure? ==> r.error == ValueError
    ensures r.Success? ==> (r.value.inCampus <==> r.value.at.Some?)
    ensures r.Success? && r.value.inCampus <==>
      |hits| > 0 && HitCoord(hits[0]).Success? && (Mentions(hits[0].displayName) || InBox(HitCoord(hits[0]).value))
    ensures r.Success? && r.value.inCampus ==> r.value.at == Some(HitCoord(hits[0]).value)
  {
    if |hits| == 0 then
      Success(CampusCheck(false, None))
    else
      var at := HitCoord(hits[0]);
      if Mentions(hits[0].displayName) then
        if at.Failure? then Failure(at.error) else Success(CampusCheck(true, Some(at.value)))
      else if at.Failure? then
        Failure(at.error)
      else if InBox(at.value) then
        Success(CampusCheck(true, Some(at.value)))
      else
        Success(CampusCheck(false, None))
  }

  /** Hits after the first are never read. */
  lemma {:induction false} CheckReadsFirstHit(hits: seq<GeoHit>, more: seq<GeoHit>)
    requires |hits| > 0
    ensures CheckInCampus(hits + more) == CheckInCampus(hits[..1])
  {
    assert (hits + more)[0] == hits[..1][0];
  }

  /** A place found near a location: its name, coordinates, and the first part of its display name. */
  datatype NearbyPoi = NearbyPoi(name: string, location: Coord, address: string)

  /** The place a kept hit becomes, or the ValueError its coordinates raise. */
  function Entry(hit: GeoHit): Result<NearbyPoi, Raised>
  {
    match HitCoord(hit)
    case Failure(e) => Failure(e)
    case Success(at) => Success(NearbyPoi(hit.name, at, Text.AddressHead(hit.displayName)))
  }

  /**
   * The places among the hits, in the order the hits come: each hit naming
   * the university becomes a place, the others are skipped; the first kept
   * hit with an unreadable coordinate raises.
   */
  function Nearby(hits: seq<GeoHit>): Result<seq<NearbyPoi>, Raised>
  {
    if |hits| == 0 then
      Success([])
    else
      var earlier := Nearby(hits[..|hits| - 1]);
      var hit := hits[|hits| - 1];
      if earlier.Failure? || !Mentions(hit.displayName) then
        earlier
      else
        match Entry(hit)
        case Failure(e) => Failure(e)
        case Success(poi) => Success(earlier.value + [poi])
  }

  /** The hits naming the university, in order: a reference for the filter. */
  function CampusHits(hits: seq<GeoHit>): (kept: seq<GeoHit>)
    ensures |kept| <= |hits|
    ensures forall h :: h in kept <==> h in hits && Mentions(h.displayName)
  {
    if |hits| == 0 then
      []
    else
      var last := hits[|hits| - 1];
      assert hits == hits[..|hits| - 1] + [last];
      if Mentions(last.displayName) then CampusHits(hits[..|hits| - 1]) + [last] else CampusHits(hits[..|hits| - 1])
  }

  /** Every hit turned into a place, in order; the first unreadable coordinate raises. */
  function Entries(hits: seq<GeoHit>): (r: Result<seq<NearbyPoi>, Raised>)
    ensures r.Success? ==> |r.value| == |hits|
  {
    if |hits| == 0 then
      Success([])
    else
      var earlier := Entries(hits[..|hits| - 1]);
      if earlier.Failure? then
        earlier
      else
        match Entry(hits[|hits| - 1])
        case Failure(e) => Failure(e)
        case Success(poi) => Success(earlier.value + [poi])
  }

  /** Each place of a completed list is its hit's entry. */
  lemma {:induction false} EntriesEach(hits: seq<GeoHit>, k: nat)
    requires k < |hits|
    requires Entries(hits).Success?
    ensures Entry(hits[k]) == Success(Entries(hits).value[k])
  {
    var prefix := hits[..|hits| - 1];
    assert Entries(prefix).Success?;
    if k < |prefix| {
      EntriesEach(prefix, k);
      assert hits[k] == prefix[k];
    }
  }

  /** Turning hits into places raises exactly when one of them has an unreadable coordinate. */
  lemma {:induction false} EntriesRaiseIff(hits: seq<GeoHit>)
    ensures Entries(hits).Failure? <==> exists h :: h in hits && HitCoord(h).Failure?
  {
    if |hits| > 0 {
      var prefix := hits[..|hits| - 1];
      assert hits == prefix + [hits[|hits| - 1]];
      EntriesRaiseIff(prefix);
    }
  }

  /** The loop's list is the filter followed by the conversion: the two readings agree on every input. */
  lemma {:induction false} NearbyFilterThenParse(hits: seq<GeoHit>)
    ensures Nearby(hits) == Entries(CampusHits(hits))
  {
    if |hits| > 0 {
      var prefix := hits[..|hits| - 1];
      var last := hits[|hits| - 1];
      NearbyFilterThenParse(prefix);
      if Mentions(last.displayName) {
        var kept := CampusHits(prefix);
        assert (kept + [last])[..|kept|] == kept;
      }
    }
  }

  /** The search raises exactly when a hit naming the university has an unreadable coordinate. */
  lemma {:induction false} NearbyRaisesIff(hits: seq<GeoHit>)
    ensures Nearby(hits).Failure? <==> exists h :: h in hits && Mentions(h.displayName) && HitCoord(h).Failure?
  {
    NearbyFilterThenParse(hits);
    var kept := CampusHits(hits);
    EntriesRaiseIff(kept);
    if exists h :: h in hits && Mentions(h.displayName) && HitCoord(h).Failure? {
      var h :| h in hits && Mentions(h.displayName) && HitCoord(h).Failure?;
      assert h in kept;
    }
  }

  /** Every place found comes from a hit naming the university, with that hit's name, coordinates and address head. */
  lemma {:induction false} NearbySound(hits: seq<GeoHit>, k: nat)
    requires Nearby(hits).Success? && k < |Nearby(hits).value|
    ensures exists h :: h in hits && Mentions(h.displayName) && Entry(h) == Success(Nearby(hits).value[k])
  {
    NearbyFilterThenParse(hits);
    var kept := CampusHits(hits);
    EntriesEach(kept, k);
    assert kept[k] in kept;
  }

  /**
   * Reads the location (either "lat,lng" text or coordinates), then keeps,
   * in order, each hit that names the university.
   */
  method GetPoiAround(location: Place, hits: seq<GeoHit>) returns (r: Result<seq<NearbyPoi>, Raised>)
    ensures ParsePlace(location).Failure? ==> r == Failure(ValueError)
    ensures ParsePlace(location).Success? ==> r == Nearby(hits)
  {
    var center := ParsePlace(location);
    if center.Failure? {
      return Failure(center.error);
    }
    var filtered := [];
    var i := 0;
    while i < |hits|
      invariant 0 <= i <= |hits|
      invariant Nearby(hits[..i]) == Success(filtered)
    {
      var hit := hits[i];
      assert hits[..i + 1][..i] == hits[..i];
      if Mentions(hit.displayName) {
        var lat := Numerals.ParseFloat(hit.lat);
        var lon := Numerals.ParseFloat(hit.lon);
        if lat.None? || lon.None? {
          NearbyFails(hits, i);
          return Failure(ValueError);
        }
        filtered := filtered + [NearbyPoi(hit.name, Coord(lat.value, lon.value), Text.AddressHead(hit.displayName))];
      }
      i := i + 1;
    }
    assert hits[..i] == hits;
    r := Success(filtered);
  }

  /** A kept hit with an unreadable coordinate ends the whole search with ValueError. */
  lemma {:induction false} NearbyFails(hits: seq<GeoHit>, i: nat)
    requires i < |hits|
    requires Nearby(hits[..i]).Success?
    requires Mentions(hits[i].displayName) && HitCoord(hits[i]).Failure?
    ensures Failure(ValueError) == Nearby(hits)
  {
    var upTo := hits[..i + 1];
    assert upTo[..i] == hits[..i];
    assert Nearby(upTo) == Failure(ValueError);
    NearbyStopAtFailure(upTo, hits[i + 1..]);
    assert upTo + hits[i + 1..] == hits;
  }

  /** Once the search raises, reading further hits raises the same exception. */
  lemma {:induction false} NearbyStopAtFailure(hits: seq<GeoHit>, more: seq<GeoHit>)
    requires Nearby(hits).Failure?
    ensures Nearby(hits + more) == Nearby(hits)
  {
    if |more| > 0 {
      var shorter := more[..|more| - 1];
      var all := hits + more;
      NearbyStopAtFailure(hits, shorter);
      assert all[..|all| - 1] == hits + shorter;
      NearbyKeepsFailure(all);
    } else {
      assert hits + more == hits;
    }
  }

  /** A search that has raised ignores the next hit. */
  lemma {:induction false} NearbyKeepsFailure(hits: seq<GeoHit>)
    requires |hits| > 0 && Nearby(hits[..|hits| - 1]).Failure?
    ensures Nearby(hits) == Nearby(hits[..|hits| - 1])
  {
  }
}
