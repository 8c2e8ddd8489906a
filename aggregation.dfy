/** The feature collections `addTransportLayers` derives from the transport
    data, as reference definitions: the line collection, the station point
    collection, the grouping of stations by name in first-seen order and one
    centroid per group. The method that builds them in place is
    `TransportMapSurface.TransportMap.AddTransportLayers`. */
module Aggregation {
  import opened Geo
  import opened TransportData

  /** The feature a line contributes: its geometry, no properties. */
  function LineFeature(line: TransportLine): Feature {
    Feature(line.geometry, map[])
  }

  /** The lines collection: one feature per line, in line order. */
  function LineFeatures(lines: seq<TransportLine>): (fs: seq<Feature>)
    ensures |fs| == |lines|
    ensures forall i :: 0 <= i < |lines| ==> fs[i] == Feature(lines[i].geometry, map[])
  {
    if lines == [] then [] else LineFeatures(lines[..|lines| - 1]) + [LineFeature(lines[|lines| - 1])]
  }

  /** The feature a station contributes: a point carrying its name. */
  function StationFeature(s: Station): Feature {
    Feature(Point(s.position), map["name" := s.name])
  }

  /** The stations collection: one point per station, in iteration order. */
  function StationFeatures(ss: seq<Station>): (fs: seq<Feature>)
    ensures |fs| == |ss|
    ensures forall i :: 0 <= i < |ss| ==> fs[i] == Feature(Point(ss[i].position), map["name" := ss[i].name])
  {
    if ss == [] then [] else StationFeatures(ss[..|ss| - 1]) + [StationFeature(ss[|ss| - 1])]
  }

  /** The keys of the `Map<string, Position[]>`, in insertion order: every
      name once, in the order of its first station. */
  function GroupNames(ss: seq<Station>): (names: seq<string>)
    ensures forall i, j :: 0 <= i < j < |names| ==> names[i] != names[j]
    ensures forall n :: n in names <==> exists i :: 0 <= i < |ss| && ss[i].name == n
  {
    if ss == [] then []
    else
      var init := ss[..|ss| - 1];
      var last := ss[|ss| - 1];
      var prev := GroupNames(init);
      assert forall i :: 0 <= i < |init| ==> init[i] == ss[i];
      if last.name in prev then prev else prev + [last.name]
  }

  /** The positions of the stations called `name`, in iteration order. */
  function GroupPositions(ss: seq<Station>, name: string): seq<Position> {
    if ss == [] then []
    else
      var last := ss[|ss| - 1];
      GroupPositions(ss[..|ss| - 1], name) + (if last.name == name then [last.position] else [])
  }

  /** The index of the first station called `name`, or `|ss|` if none is. */
  function FirstIndex(ss: seq<Station>, name: string): (k: nat)
    ensures k <= |ss|
    ensures k < |ss| ==> ss[k].name == name
    ensures forall i :: 0 <= i < k ==> ss[i].name != name
  {
    if ss == [] then 0
    else
      var init := ss[..|ss| - 1];
      var k := FirstIndex(init, name);
      if k < |init| then k
      else if ss[|ss| - 1].name == name then |init|
      else |ss|
  }

  /** The feature for one group: the centroid of its positions, named. */
  function CentroidFeature(name: string, ps: seq<Position>): Feature
    requires ps != []
  {
    Feature(Point(Centroid(ps)), map["name" := name])
  }

  /** The centroids collection for the groups named in `names`, in that
      order. */
  function CentroidFeatures(ss: seq<Station>, names: seq<string>): (fs: seq<Feature>)
    requires forall n :: n in names ==> GroupPositions(ss, n) != []
    ensures |fs| == |names|
  {
    seq(|names|, k requires 0 <= k < |names| && GroupPositions(ss, names[k]) != [] =>
      CentroidFeature(names[k], GroupPositions(ss, names[k])))
  }

  /** Every group holds at least one position. */
  lemma GroupsNonEmpty(ss: seq<Station>)
    ensures forall n :: n in GroupNames(ss) ==> GroupPositions(ss, n) != []
  {
    forall n | n in GroupNames(ss) ensures GroupPositions(ss, n) != [] {
      GroupNonEmpty(ss, n);
    }
  }

  /** One centroid per group, in group order: the `k`-th is named after the
      `k`-th group and lies in the bounding box of that group's positions. */
  lemma CentroidsPerGroup(ss: seq<Station>)
    ensures (GroupsNonEmpty(ss); var names, fs := GroupNames(ss), CentroidFeatures(ss, GroupNames(ss));
      && |fs| == |names|
      && forall k :: 0 <= k < |names| ==>
        && fs[k].properties == map["name" := names[k]]
        && fs[k].geometry.Point?
        && Inside(BBox(GroupPositions(ss, names[k])), fs[k].geometry.coordinates))
  {
    GroupsNonEmpty(ss);
    var names := GroupNames(ss);
    forall k | 0 <= k < |names|
      ensures Inside(BBox(GroupPositions(ss, names[k])), Centroid(GroupPositions(ss, names[k])))
    {
      CentroidInside(GroupPositions(ss, names[k]));
    }
  }

  lemma {:induction false} GroupNonEmpty(ss: seq<Station>, name: string)
    ensures GroupPositions(ss, name) != [] <==> name in GroupNames(ss)
  {
    if ss != [] {
      GroupNonEmpty(ss[..|ss| - 1], name);
    }
  }

  lemma {:induction false} GroupPositionsAppend(a: seq<Station>, b: seq<Station>, name: string)
    ensures GroupPositions(a + b, name) == GroupPositions(a, name) + GroupPositions(b, name)
  {
    if b != [] {
      var init := b[..|b| - 1];
      assert (a + b)[..|a + b| - 1] == a + init;
      assert (a + b)[|a + b| - 1] == b[|b| - 1];
      GroupPositionsAppend(a, init, name);
    } else {
      assert a + b == a;
    }
  }

  /** Station `i` lands in the group for its name, right after the earlier
      stations of that name. */
  lemma StationInItsGroup(ss: seq<Station>, i: nat)
    requires i < |ss|
    ensures var g, rank := GroupPositions(ss, ss[i].name), |GroupPositions(ss[..i], ss[i].name)|;
      rank < |g| && g[rank] == ss[i].position
  {
    var n := ss[i].name;
    assert ss == ss[..i] + [ss[i]] + ss[i + 1..];
    GroupPositionsAppend(ss[..i] + [ss[i]], ss[i + 1..], n);
    GroupPositionsAppend(ss[..i], [ss[i]], n);
    assert GroupPositions([ss[i]], n) == [ss[i].position] by {
      assert [ss[i]][..0] == [];
    }
  }

  /** The sum of the group sizes over `names`. */
  function SumSizes(ss: seq<Station>, names: seq<string>): nat {
    if names == [] then 0 else SumSizes(ss, names[..|names| - 1]) + |GroupPositions(ss, names[|names| - 1])|
  }

  lemma {:induction false} SumSizesLastStation(ss: seq<Station>, names: seq<string>)
    requires ss != []
    requires forall i, j :: 0 <= i < j < |names| ==> names[i] != names[j]
    ensures SumSizes(ss, names) == SumSizes(ss[..|ss| - 1], names) + (if ss[|ss| - 1].name in names then 1 else 0)
  {
    if names != [] {
      var init := names[..|names| - 1];
      SumSizesLastStation(ss, init);
      assert ss[|ss| - 1].name in names <==> ss[|ss| - 1].name in init || ss[|ss| - 1].name == names[|names| - 1];
    }
  }

  /** The groups partition the stations: their sizes add up to the number of
      stations. */
  lemma {:induction false} GroupSizesSum(ss: seq<Station>)
    ensures SumSizes(ss, GroupNames(ss)) == |ss|
  {
    if ss != [] {
      var init := ss[..|ss| - 1];
      var last := ss[|ss| - 1];
      var prev := GroupNames(init);
      GroupSizesSum(init);
      SumSizesLastStation(ss, prev);
      if last.name !in prev {
        assert (prev + [last.name])[..|prev|] == prev;
        GroupNonEmpty(init, last.name);
      }
    }
  }

  /** Groups are ordered by the first occurrence of their name. */
  lemma {:induction false} GroupsInFirstSeenOrder(ss: seq<Station>, i: nat, j: nat)
    requires i < j < |GroupNames(ss)|
    ensures FirstIndex(ss, GroupNames(ss)[i]) < FirstIndex(ss, GroupNames(ss)[j])
  {
    var names := GroupNames(ss);
    var init := ss[..|ss| - 1];
    var prev := GroupNames(init);
    FirstOfKnown(init, names[i]);
    if j < |prev| {
      assert names[i] == prev[i] && names[j] == prev[j];
      FirstOfKnown(init, names[j]);
      GroupsInFirstSeenOrder(init, i, j);
    } else {
      assert names[j] !in prev;
      assert names[i] == prev[i];
      FirstOfKnown(init, names[j]);
    }
  }

  /** A name is a group of `init` exactly when its first station lies inside
      `init`. */
  lemma FirstOfKnown(init: seq<Station>, name: string)
    requires init != []
    ensures name in GroupNames(init) <==> FirstIndex(init, name) < |init|
  {
    var k := FirstIndex(init, name);
    if name in GroupNames(init) {
      var i :| 0 <= i < |init| && init[i].name == name;
      assert k <= i;
    }
  }

  /** The station grouping of the end-to-end example: two stations called
      "Central" at [0, 0] and [2, 0] give one centroid, at [1, 0]. */
  lemma CentralExample()
    ensures var ss := [Station(1, "Central", Position(0.0, 0.0)), Station(2, "Central", Position(2.0, 0.0))];
      GroupNames(ss) == ["Central"] &&
      CentroidFeatures(ss, ["Central"]) == [Feature(Point(Position(1.0, 0.0)), map["name" := "Central"])]
  {
    var ss := [Station(1, "Central", Position(0.0, 0.0)), Station(2, "Central", Position(2.0, 0.0))];
    assert ss[..1] == [ss[0]] && ss[..1][..0] == [];
    assert GroupNames(ss) == ["Central"];
    assert GroupPositions(ss, "Central") == [Position(0.0, 0.0), Position(2.0, 0.0)];
    CentroidExample();
    GroupsNonEmpty(ss);
  }
}
