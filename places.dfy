/**
 * Turning device location results into form values: the display name of a reverse
 * geocoded place, and the coordinates a forward geocoding picks.
 */
module Places {
  import opened Wrappers
  import opened Text

  /** The fields of a reverse-geocoding result the forms read; any may be missing. */
  datatype Placemark = Placemark(name: Option<string>, city: Option<string>, region: Option<string>)

  /** A forward-geocoding result, or a device position. */
  datatype Coords = Coords(latitude: real, longitude: real)

  /** The name shown when the place has no usable name. */
  const CurrentLocation: string := "Current location"

  /** The separator between the parts of a place name. */
  const PartSeparator: string := ", "

  /** `.filter(Boolean)` over optional strings: the present, non-empty ones, in order. */
  function Present(opts: seq<Option<string>>): (r: seq<string>)
    ensures |r| <= |opts|
    ensures forall k :: 0 <= k < |r| ==> r[k] != []
    ensures forall x :: x in r <==> x != [] && Some(x) in opts
  {
    if |opts| == 0 then []
    else
      var rest := Present(opts[1..]);
      assert forall o :: o in opts <==> o == opts[0] || o in opts[1..];
      if opts[0].Some? && opts[0].value != [] then [opts[0].value] + rest else rest
  }

  /** One optional string as a list of parts: itself when present and non-empty. */
  function PresentPart(o: Option<string>): seq<string> {
    if o.Some? && o.value != [] then [o.value] else []
  }

  /** Filtering a concatenation filters each half and keeps them in that order, so the
      kept parts keep their order and their number of occurrences. */
  lemma {:induction false} PresentAppend(a: seq<Option<string>>, b: seq<Option<string>>)
    ensures Present(a + b) == Present(a) + Present(b)
  {
    if |a| > 0 {
      assert (a + b)[0] == a[0];
      assert (a + b)[1..] == a[1..] + b;
      PresentAppend(a[1..], b);
    } else {
      assert a + b == b;
    }
  }

  /** The filter over a list, part by part: each entry contributes itself or nothing. */
  lemma {:induction false} PresentByParts(opts: seq<Option<string>>)
    requires |opts| == 3
    ensures Present(opts) == PresentPart(opts[0]) + PresentPart(opts[1]) + PresentPart(opts[2])
  {
    assert opts == [opts[0]] + [opts[1]] + [opts[2]];
    PresentAppend([opts[0]] + [opts[1]], [opts[2]]);
    PresentAppend([opts[0]], [opts[1]]);
    assert Present([opts[0]]) == PresentPart(opts[0]) by { assert [opts[0]][1..] == []; }
    assert Present([opts[1]]) == PresentPart(opts[1]) by { assert [opts[1]][1..] == []; }
    assert Present([opts[2]]) == PresentPart(opts[2]) by { assert [opts[2]][1..] == []; }
  }

  /** The parts a place name is made of: name, city and region, those present. */
  function PlaceParts(mark: Placemark): seq<string> {
    Present([mark.name, mark.city, mark.region])
  }

  /** The parts are the name, then the city, then the region, each only when present. */
  lemma PlacePartsInOrder(mark: Placemark)
    ensures PlaceParts(mark) == PresentPart(mark.name) + PresentPart(mark.city) + PresentPart(mark.region)
  {
    PresentByParts([mark.name, mark.city, mark.region]);
  }

  /** Where the `k`-th part starts in `Join(parts, sep)`. */
  function JoinOffset(parts: seq<string>, sep: string, k: nat): nat
    requires k < |parts|
  {
    if k == 0 then 0 else |parts[0]| + |sep| + JoinOffset(parts[1..], sep, k - 1)
  }

  /** Each part occurs in the joined text at its offset, and the offsets increase:
      the parts appear whole and in their order. */
  lemma {:induction false} JoinShowsParts(parts: seq<string>, sep: string, k: nat)
    requires k < |parts|
    ensures OccursAt(Join(parts, sep), parts[k], JoinOffset(parts, sep, k))
    ensures k + 1 < |parts| ==> JoinOffset(parts, sep, k) + |parts[k]| + |sep| == JoinOffset(parts, sep, k + 1)
    decreases k
  {
    var joined := Join(parts, sep);
    if |parts| > 1 {
      assert joined == parts[0] + sep + Join(parts[1..], sep);
    }
    if k == 0 {
      assert joined[..|parts[0]|] == parts[0];
    } else {
      var tail := Join(parts[1..], sep);
      var head := parts[0] + sep;
      JoinShowsParts(parts[1..], sep, k - 1);
      var i := JoinOffset(parts[1..], sep, k - 1);
      assert JoinOffset(parts, sep, k) == |head| + i;
      assert parts[1..][k - 1] == parts[k];
      assert joined == head + tail;
      assert joined[|head| + i..|head| + i + |parts[k]|] == tail[i..i + |parts[k]|];
    }
  }

  /** The location name a reverse geocoding yields: the present parts of the first
      placemark joined by ", ", or "Current location" when there is no placemark or it
      has no usable part. Never empty, so the location check of a post passes. */
  function LocationNameFor(placemarks: seq<Placemark>): (r: string)
    ensures r != []
    ensures |placemarks| == 0 ==> r == CurrentLocation
    ensures |placemarks| > 0 && PlaceParts(placemarks[0]) == [] ==> r == CurrentLocation
    ensures |placemarks| > 0 && PlaceParts(placemarks[0]) != [] ==>
              r == Join(PlaceParts(placemarks[0]), PartSeparator)
  {
    if |placemarks| == 0 then CurrentLocation
    else
      var parts := PlaceParts(placemarks[0]);
      if parts == [] then CurrentLocation
      else
        JoinShowsParts(parts, PartSeparator, 0);
        Join(parts, PartSeparator)
  }

  /** Every present part of the first placemark shows in the location name, in the
      order name, city, region. */
  lemma LocationNameShowsParts(placemarks: seq<Placemark>, k: nat)
    requires |placemarks| > 0 && k < |PlaceParts(placemarks[0])|
    ensures PlaceParts(placemarks[0])
            == PresentPart(placemarks[0].name) + PresentPart(placemarks[0].city) + PresentPart(placemarks[0].region)
    ensures var parts := PlaceParts(placemarks[0]);
      OccursAt(LocationNameFor(placemarks), parts[k], JoinOffset(parts, PartSeparator, k))
      && (k + 1 < |parts| ==> JoinOffset(parts, PartSeparator, k) + |parts[k]| < JoinOffset(parts, PartSeparator, k + 1))
  {
    PlacePartsInOrder(placemarks[0]);
    JoinShowsParts(PlaceParts(placemarks[0]), PartSeparator, k);
  }

  /** The coordinates `geocodeLocation` takes: none for an empty location name (no
      lookup is made) or an empty result list, otherwise the first result. */
  function GeocodeTarget(locationName: string, results: seq<Coords>): (r: Option<Coords>)
    ensures r.None? <==> locationName == [] || |results| == 0
    ensures r.Some? ==> r.value == results[0]
  {
    if locationName == [] || |results| == 0 then None else Some(results[0])
  }
}
