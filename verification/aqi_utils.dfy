/**
  * Map helpers for the air-quality map: the display record of a location,
  * the marker size per band, the coordinate check and the padded bounding
  * box of all locations with usable coordinates.
  */
module AqiUtils {
  import opened Js
  import opened AqiApi

  /** A location as the map shows it: the record with finite coordinates, its label, colour and category. */
  datatype NormalizedAqi = NormalizedAqi(data: AqiData, displayName: string, color: string, category: string)

  /** `Number(x) || 0` for a number: NaN and 0 both give 0. */
  function NumberOrZero(x: Num): (r: real)
    ensures Truthy(x) ==> r == x.r
    ensures !Truthy(x) ==> r == 0.0
  {
    if Truthy(x) then x.r else 0.0
  }

  /** `normalizeAQIData`: every field kept, coordinates made finite, label, colour and category added. */
  function NormalizeAqiData(d: AqiData): (n: NormalizedAqi)
    ensures n.data == d.(coordinates := Coordinates(Fin(NumberOrZero(d.coordinates.latitude)), Fin(NumberOrZero(d.coordinates.longitude))))
    ensures n.displayName == d.city + ", " + d.country
    ensures n.color == AqiColors[BandIndex(d.aqi)] && n.category == AqiCategories[BandIndex(d.aqi)]
  {
    ClassifiersAgree(d.aqi);
    NormalizedAqi(
      d.(coordinates := Coordinates(Fin(NumberOrZero(d.coordinates.latitude)), Fin(NumberOrZero(d.coordinates.longitude)))),
      d.city + ", " + d.country,
      AqiColor(d.aqi),
      AqiCategory(d.aqi))
  }

  /** Normalising a normalised record changes nothing: its coordinates are already finite. */
  lemma NormalizeIdempotent(d: AqiData)
    ensures NormalizeAqiData(NormalizeAqiData(d).data) == NormalizeAqiData(d)
  {
  }

  /** `getMarkerSize`: 8, 10, 12, 14, 16 or 18 by band. */
  function GetMarkerSize(aqi: int): (size: int)
    ensures size == 8 + 2 * BandIndex(aqi)
    ensures 8 <= size <= 18
  {
    BandIndexUnrolled(aqi);
    if aqi <= 50 then 8
    else if aqi <= 100 then 10
    else if aqi <= 150 then 12
    else if aqi <= 200 then 14
    else if aqi <= 300 then 16
    else 18
  }

  /** A worse index never gets a smaller marker. */
  lemma MarkerSizeMonotone(a: int, b: int)
    requires a <= b
    ensures GetMarkerSize(a) <= GetMarkerSize(b)
  {
    CountBelowMonotone(Cutoffs, a, b);
  }

  /** `x >= c` and `x <= c` on a JavaScript number: false whenever x is NaN. */
  predicate AtLeast(x: Num, c: real) {
    x.Fin? && x.r >= c
  }

  predicate AtMost(x: Num, c: real) {
    x.Fin? && x.r <= c
  }

  /** `isValidCoordinates`: both ranges, and neither value NaN. */
  predicate IsValidCoordinates(lat: Num, lng: Num) {
    AtLeast(lat, -90.0) && AtMost(lat, 90.0) && AtLeast(lng, -180.0) && AtMost(lng, 180.0) &&
    !lat.NaN? && !lng.NaN?
  }

  /** The NaN tests are implied by the range tests: dropping them would not change the answer. */
  lemma NanTestsImplied(lat: Num, lng: Num)
    ensures IsValidCoordinates(lat, lng) <==>
      AtLeast(lat, -90.0) && AtMost(lat, 90.0) && AtLeast(lng, -180.0) && AtMost(lng, 180.0)
    ensures IsValidCoordinates(lat, lng) ==> -90.0 <= lat.r <= 90.0 && -180.0 <= lng.r <= 180.0
  {
  }

  predicate HasValidCoordinates(d: AqiData) {
    IsValidCoordinates(d.coordinates.latitude, d.coordinates.longitude)
  }

  /** The running extremes of the valid coordinates. */
  datatype Extent = Extent(minLat: real, maxLat: real, minLng: real, maxLng: real)

  /** The south-west and north-east corners the map fits to. */
  datatype Bounds = Bounds(south: real, west: real, north: real, east: real)

  /** The extremes over the valid locations, None when there is none (the sentinels never moved). */
  function Extremes(locs: seq<AqiData>): Option<Extent>
  {
    if locs == [] then None
    else
      var e := Extremes(locs[..|locs| - 1]);
      var d := locs[|locs| - 1];
      if !HasValidCoordinates(d) then e
      else
        var lat := d.coordinates.latitude.r;
        var lng := d.coordinates.longitude.r;
        if e.None? then Some(Extent(lat, lat, lng, lng))
        else Some(Extent(
          if lat < e.value.minLat then lat else e.value.minLat,
          if lat > e.value.maxLat then lat else e.value.maxLat,
          if lng < e.value.minLng then lng else e.value.minLng,
          if lng > e.value.maxLng then lng else e.value.maxLng))
  }

  /** The extent inside which every valid location lies. */
  predicate Encloses(e: Extent, locs: seq<AqiData>) {
    forall i :: 0 <= i < |locs| && HasValidCoordinates(locs[i]) ==>
      e.minLat <= locs[i].coordinates.latitude.r <= e.maxLat &&
      e.minLng <= locs[i].coordinates.longitude.r <= e.maxLng
  }

  /** Each side of the extent is the coordinate of some valid location. */
  predicate Attained(e: Extent, locs: seq<AqiData>) {
    (exists i :: 0 <= i < |locs| && HasValidCoordinates(locs[i]) && locs[i].coordinates.latitude.r == e.minLat) &&
    (exists i :: 0 <= i < |locs| && HasValidCoordinates(locs[i]) && locs[i].coordinates.latitude.r == e.maxLat) &&
    (exists i :: 0 <= i < |locs| && HasValidCoordinates(locs[i]) && locs[i].coordinates.longitude.r == e.minLng) &&
    (exists i :: 0 <= i < |locs| && HasValidCoordinates(locs[i]) && locs[i].coordinates.longitude.r == e.maxLng)
  }

  /**
    * The extremes are None exactly when no location is valid; otherwise
    * they enclose every valid location and each is reached by one, so
    * they are the minimum and maximum of the valid coordinates.
    */
  lemma ExtremesMeaning(locs: seq<AqiData>)
    ensures Extremes(locs).None? <==> forall i :: 0 <= i < |locs| ==> !HasValidCoordinates(locs[i])
    ensures Extremes(locs).Some? ==> Encloses(Extremes(locs).value, locs) && Attained(Extremes(locs).value, locs)
  {
    ExtremesNone(locs);
    ExtremesEnclose(locs);
    ExtremesAttained(locs);
  }

  lemma {:induction false} ExtremesNone(locs: seq<AqiData>)
    ensures Extremes(locs).None? <==> forall i :: 0 <= i < |locs| ==> !HasValidCoordinates(locs[i])
  {
    if locs != [] {
      var init := locs[..|locs| - 1];
      ExtremesNone(init);
      assert forall i :: 0 <= i < |init| ==> init[i] == locs[i];
    }
  }

  lemma {:induction false} ExtremesEnclose(locs: seq<AqiData>)
    ensures Extremes(locs).Some? ==> Encloses(Extremes(locs).value, locs)
  {
    if locs != [] {
      var init := locs[..|locs| - 1];
      ExtremesEnclose(init);
      ExtremesNone(init);
      assert forall i :: 0 <= i < |init| ==> init[i] == locs[i];
    }
  }

  lemma {:induction false} ExtremesAttained(locs: seq<AqiData>)
    ensures Extremes(locs).Some? ==> Attained(Extremes(locs).value, locs)
  {
    if locs != [] {
      var init := locs[..|locs| - 1];
      var last := |locs| - 1;
      ExtremesAttained(init);
      var e := Extremes(init);
      if e.Some? {
        var x := e.value;
        var i1 :| 0 <= i1 < |init| && HasValidCoordinates(init[i1]) && init[i1].coordinates.latitude.r == x.minLat;
        var i2 :| 0 <= i2 < |init| && HasValidCoordinates(init[i2]) && init[i2].coordinates.latitude.r == x.maxLat;
        var i3 :| 0 <= i3 < |init| && HasValidCoordinates(init[i3]) && init[i3].coordinates.longitude.r == x.minLng;
        var i4 :| 0 <= i4 < |init| && HasValidCoordinates(init[i4]) && init[i4].coordinates.longitude.r == x.maxLng;
        assert locs[i1] == init[i1] && locs[i2] == init[i2] && locs[i3] == init[i3] && locs[i4] == init[i4];
      } else if HasValidCoordinates(locs[last]) {
        assert Attained(Extremes(locs).value, locs) by {
          assert HasValidCoordinates(locs[last]);
        }
      }
    }
  }

  /** The corners: the extent widened by a tenth of its height and width on each side. */
  function Padded(e: Extent): (b: Bounds)
    requires e.minLat <= e.maxLat && e.minLng <= e.maxLng
    ensures b.south <= e.minLat && e.maxLat <= b.north && b.west <= e.minLng && e.maxLng <= b.east
    ensures b.north - b.south == (e.maxLat - e.minLat) * 1.2 && b.east - b.west == (e.maxLng - e.minLng) * 1.2
    ensures e.minLat - b.south == b.north - e.maxLat == (e.maxLat - e.minLat) * 0.1
    ensures e.minLng - b.west == b.east - e.maxLng == (e.maxLng - e.minLng) * 0.1
  {
    var latPadding := (e.maxLat - e.minLat) * 0.1;
    var lngPadding := (e.maxLng - e.minLng) * 0.1;
    Bounds(e.minLat - latPadding, e.minLng - lngPadding, e.maxLat + latPadding, e.maxLng + lngPadding)
  }

  /** What `calculateBounds` returns for a list, as one value. */
  function BoundsOf(locs: seq<AqiData>): Option<Bounds>
  {
    if locs == [] then None
    else
      var e := Extremes(locs);
      if e.None? then None
      else
        ExtremesMeaning(locs);
        Some(Padded(e.value))
  }

  /**
    * `calculateBounds`: one pass that widens the four running extremes by
    * every location with valid coordinates (the Infinity sentinels are
    * the `found` flag), then the padded corners.
    */
  method CalculateBounds(locs: seq<AqiData>) returns (r: Option<Bounds>)
    ensures r == BoundsOf(locs)
  {
    if |locs| == 0 {
      return None;
    }
    var found := false;
    var minLat, maxLat, minLng, maxLng := 0.0, 0.0, 0.0, 0.0;
    var i := 0;
    while i < |locs|
      invariant 0 <= i <= |locs|
      invariant found <==> Extremes(locs[..i]).Some?
      invariant found ==> Extremes(locs[..i]).value == Extent(minLat, maxLat, minLng, maxLng)
    {
      assert locs[..i + 1][..i] == locs[..i];
      var d := locs[i];
      if HasValidCoordinates(d) {
        var lat := d.coordinates.latitude.r;
        var lng := d.coordinates.longitude.r;
        if !found {
          minLat, maxLat, minLng, maxLng := lat, lat, lng, lng;
          found := true;
        } else {
          minLat := if lat < minLat then lat else minLat;
          maxLat := if lat > maxLat then lat else maxLat;
          minLng := if lng < minLng then lng else minLng;
          maxLng := if lng > maxLng then lng else maxLng;
        }
      }
      i := i + 1;
    }
    assert locs[..|locs|] == locs;
    if !found {
      return None;
    }
    ExtremesMeaning(locs);
    var latPadding := (maxLat - minLat) * 0.1;
    var lngPadding := (maxLng - minLng) * 0.1;
    return Some(Bounds(minLat - latPadding, minLng - lngPadding, maxLat + latPadding, maxLng + lngPadding));
  }

  /**
    * The box is None for an empty list or one with no valid location;
    * otherwise its corners are ordered and every valid location lies
    * inside it, whatever the invalid ones hold.
    */
  lemma BoundsContain(locs: seq<AqiData>)
    ensures BoundsOf(locs).None? <==> forall i :: 0 <= i < |locs| ==> !HasValidCoordinates(locs[i])
    ensures BoundsOf(locs).Some? ==> var b := BoundsOf(locs).value;
      b.south <= b.north && b.west <= b.east &&
      forall i :: 0 <= i < |locs| && HasValidCoordinates(locs[i]) ==>
        b.south <= locs[i].coordinates.latitude.r <= b.north &&
        b.west <= locs[i].coordinates.longitude.r <= b.east
  {
    ExtremesMeaning(locs);
  }

  /** Locations with invalid coordinates do not move the box. */
  lemma {:induction false} InvalidIgnored(locs: seq<AqiData>, d: AqiData)
    requires !HasValidCoordinates(d)
    ensures Extremes(locs + [d]) == Extremes(locs)
  {
    assert (locs + [d])[..|locs|] == locs;
  }

  /** A single valid location gives a box of zero area at that point. */
  lemma SinglePoint(d: AqiData)
    requires HasValidCoordinates(d)
    ensures BoundsOf([d]) == Some(Bounds(d.coordinates.latitude.r, d.coordinates.longitude.r,
                                         d.coordinates.latitude.r, d.coordinates.longitude.r))
  {
    assert [d][..0] == [];
    var lat := d.coordinates.latitude.r;
    var lng := d.coordinates.longitude.r;
    assert Extremes([d]) == Some(Extent(lat, lat, lng, lng));
  }
}
