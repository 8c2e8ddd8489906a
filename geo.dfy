/** The slice of GeoJSON the core exchanges with the map engine, with the two
    geometric helpers it calls: turf's `bbox` and turf's `centroid`. Coordinates
    are exact reals; floating point is not modelled. */
module Geo {

  /** A GeoJSON position `[longitude, latitude]`. */
  datatype Position = Position(lon: real, lat: real)

  /** The geometries the data carries: station points and line routes. */
  datatype Geometry =
    | Point(coordinates: Position)
    | MultiLineString(lines: seq<seq<Position>>)

  datatype Feature = Feature(geometry: Geometry, properties: map<string, string>)

  datatype FeatureCollection = FeatureCollection(features: seq<Feature>)

  /** turf's `[west, south, east, north]`; `NoExtent` is what turf reports as
      `[Infinity, Infinity, -Infinity, -Infinity]` when there is no coordinate. */
  datatype Extent = NoExtent | Box(west: real, south: real, east: real, north: real)

  function Flatten(lines: seq<seq<Position>>): (ps: seq<Position>)
  {
    if lines == [] then [] else Flatten(lines[..|lines| - 1]) + lines[|lines| - 1]
  }

  function GeometryPositions(g: Geometry): seq<Position> {
    match g
    case Point(p) => [p]
    case MultiLineString(lines) => Flatten(lines)
  }

  /** Every coordinate of a collection, in turf's `coordEach` order. */
  function CollectionPositions(features: seq<Feature>): seq<Position> {
    if features == [] then []
    else CollectionPositions(features[..|features| - 1]) + GeometryPositions(features[|features| - 1].geometry)
  }

  predicate Inside(e: Extent, p: Position) {
    e.Box? && e.west <= p.lon <= e.east && e.south <= p.lat <= e.north
  }

  function Extend(e: Extent, p: Position): Extent {
    match e
    case NoExtent => Box(p.lon, p.lat, p.lon, p.lat)
    case Box(w, s, east, n) =>
      Box(if p.lon < w then p.lon else w, if p.lat < s then p.lat else s,
          if p.lon > east then p.lon else east, if p.lat > n then p.lat else n)
  }

  /** turf's `bbox`: each position in turn widens the box. */
  function BBox(ps: seq<Position>): Extent {
    if ps == [] then NoExtent else Extend(BBox(ps[..|ps| - 1]), ps[|ps| - 1])
  }

  /** The box is the smallest one holding every position: it holds them all,
      and each of its four sides is attained by one of them. There is no box
      exactly when there are no positions. */
  lemma {:induction false} BBoxBounds(ps: seq<Position>)
    ensures BBox(ps).NoExtent? <==> ps == []
    ensures forall i :: 0 <= i < |ps| ==> Inside(BBox(ps), ps[i])
    ensures BBox(ps).Box? ==> exists i :: 0 <= i < |ps| && ps[i].lon == BBox(ps).west
    ensures BBox(ps).Box? ==> exists i :: 0 <= i < |ps| && ps[i].lat == BBox(ps).south
    ensures BBox(ps).Box? ==> exists i :: 0 <= i < |ps| && ps[i].lon == BBox(ps).east
    ensures BBox(ps).Box? ==> exists i :: 0 <= i < |ps| && ps[i].lat == BBox(ps).north
  {
    if ps != [] {
      var init := ps[..|ps| - 1];
      BBoxBounds(init);
      assert forall i :: 0 <= i < |init| ==> init[i] == ps[i];
    }
  }

  function Sum(ps: seq<Position>): Position {
    if ps == [] then Position(0.0, 0.0)
    else
      var s := Sum(ps[..|ps| - 1]);
      Position(s.lon + ps[|ps| - 1].lon, s.lat + ps[|ps| - 1].lat)
  }

  /** turf's `centroid` of a point cloud: the arithmetic mean of its
      coordinates. */
  function Centroid(ps: seq<Position>): Position
    requires ps != []
  {
    var s := Sum(ps);
    Position(Mean(s.lon, |ps|), Mean(s.lat, |ps|))
  }

  function Mean(total: real, count: nat): real
    requires count > 0
  {
    total / count as real
  }

  lemma {:induction false} SumWithin(ps: seq<Position>, e: Extent)
    requires e.Box?
    requires forall i :: 0 <= i < |ps| ==> Inside(e, ps[i])
    ensures |ps| as real * e.west <= Sum(ps).lon <= |ps| as real * e.east
    ensures |ps| as real * e.south <= Sum(ps).lat <= |ps| as real * e.north
  {
    if ps != [] {
      var init := ps[..|ps| - 1];
      assert forall i :: 0 <= i < |init| ==> init[i] == ps[i];
      SumWithin(init, e);
      assert Inside(e, ps[|ps| - 1]);
    }
  }

  /** The centroid of a group lies in the group's bounding box. */
  lemma CentroidInside(ps: seq<Position>)
    requires ps != []
    ensures Inside(BBox(ps), Centroid(ps))
  {
    BBoxBounds(ps);
    CentroidWithin(ps, BBox(ps));
  }

  lemma CentroidWithin(ps: seq<Position>, e: Extent)
    requires ps != [] && e.Box?
    requires forall i :: 0 <= i < |ps| ==> Inside(e, ps[i])
    ensures Inside(e, Centroid(ps))
  {
    SumWithin(ps, e);
    MeanWithin(Sum(ps).lon, |ps|, e.west, e.east);
    MeanWithin(Sum(ps).lat, |ps|, e.south, e.north);
  }

  lemma MeanWithin(total: real, count: nat, lo: real, hi: real)
    requires count > 0 && count as real * lo <= total <= count as real * hi
    ensures lo <= Mean(total, count) <= hi
  {
    DivideBounds(total, count as real, lo, hi);
  }

  lemma DivideBounds(x: real, n: real, lo: real, hi: real)
    requires n > 0.0 && n * lo <= x <= n * hi
    ensures lo <= x / n <= hi
  {
    assert x / n * n == x;
  }

  /** Two stations at [0, 0] and [2, 0] have their centroid at [1, 0]. */
  lemma CentroidExample()
    ensures Centroid([Position(0.0, 0.0), Position(2.0, 0.0)]) == Position(1.0, 0.0)
  {
    var ps := [Position(0.0, 0.0), Position(2.0, 0.0)];
    assert ps[..1][..0] == [];
    assert Sum(ps) == Position(2.0, 0.0);
  }
}
