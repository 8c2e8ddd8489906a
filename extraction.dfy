/** The extractor's pass over the OpenStreetMap objects: tram-stop nodes
    become stations, route relations become transport lines (their role-""
    way members give the geometry, their role-"stop" members the station
    list, their name the number and the two ends), everything else is
    ignored; at the end the lines are sorted. The functions here are the
    reference definitions, object by object; `ExtractTransportLines` is the
    loop that builds the output in place, proved against them. */
module Extraction {
  import opened Wrappers
  import opened Numerals
  import opened Geo
  import opened TransportData
  import opened Osm
  import opened RouteName
  import opened LineOrder

  /** Why an extraction stops. The first four are the errors the extractor
      returns with their messages ("Node without name", "Object with roule
      stop should be a node", "name tag not found", "Line number should be
      parseable as number"); `Panicked` is an `unwrap` on an object missing
      from the extract, which aborts the run as well. */
  datatype ExtractError = NodeWithoutName | StopNotNode | NameTagMissing | LineNumberUnparseable | Panicked

  /** What one object adds to the output. */
  datatype Contribution = Nothing | AddStation(station: Station) | AddLine(line: TransportLine)

  /** The members of a route relation, read: one line string per way, the
      node ids of the stops. */
  datatype Route = Route(strings: seq<seq<Position>>, stops: seq<int>)

  /** The output `Data`: stations keyed by node id, and the lines. */
  datatype Extracted = Extracted(stations: map<int, Station>, lines: seq<TransportLine>)

  predicate IsTramStop(o: OsmObj) {
    o.Node? && Tagged(o.tags, "railway", "tram_stop")
  }

  predicate IsRoute(o: OsmObj) {
    o.Relation? && "route" in o.tags
  }

  // ---------------------------------------------------------------- ways

  /** The line string of a way: `[lon, lat]` of each of its nodes that is a
      node; a node id missing from the extract panics. */
  function LineString(objs: map<OsmId, OsmObj>, nodes: seq<int>): Result<seq<Position>, ExtractError> {
    if nodes == [] then Ok([])
    else
      match LineString(objs, nodes[..|nodes| - 1])
      case Err(e) => Err(e)
      case Ok(ps) =>
        var id := NodeId(nodes[|nodes| - 1]);
        if id !in objs then Err(Panicked)
        else if objs[id].Node? then Ok(ps + [Position(objs[id].lon, objs[id].lat)])
        else Ok(ps)
  }

  lemma {:induction false} LineStringStuck(objs: map<OsmId, OsmObj>, nodes: seq<int>, k: nat)
    requires k <= |nodes| && LineString(objs, nodes[..k]).Err?
    ensures LineString(objs, nodes) == LineString(objs, nodes[..k])
  {
    if k < |nodes| {
      var init := nodes[..|nodes| - 1];
      assert init[..k] == nodes[..k];
      LineStringStuck(objs, init, k);
    } else {
      assert nodes[..k] == nodes;
    }
  }

  /** When every object sits under an id of its own kind, a way's line
      string has one position per node, in order, and fails exactly when a
      node is missing from the extract. */
  lemma {:induction false} LineStringPositions(objs: map<OsmId, OsmObj>, nodes: seq<int>)
    requires KindsAgree(objs)
    ensures LineString(objs, nodes).Ok? <==> forall k :: 0 <= k < |nodes| ==> NodeId(nodes[k]) in objs
    ensures LineString(objs, nodes).Ok? ==>
      var ps := LineString(objs, nodes).value;
      |ps| == |nodes| &&
      forall k :: 0 <= k < |nodes| ==> ps[k] == Position(objs[NodeId(nodes[k])].lon, objs[NodeId(nodes[k])].lat)
  {
    if nodes != [] {
      var init := nodes[..|nodes| - 1];
      LineStringPositions(objs, init);
      assert forall k :: 0 <= k < |init| ==> init[k] == nodes[k];
    }
  }

  // ------------------------------------------------------------- members

  /** The members of a route relation, read in order. */
  function Members(objs: map<OsmId, OsmObj>, refs: seq<Member>): Result<Route, ExtractError> {
    if refs == [] then Ok(Route([], []))
    else
      match Members(objs, refs[..|refs| - 1])
      case Err(e) => Err(e)
      case Ok(route) => AddMember(objs, refs[|refs| - 1], route)
  }

  /** One member: a role-"" way adds its line string (other role-"" objects
      are skipped, a missing one panics); a role-"stop" member adds its node
      id and must be a node; any other role is ignored. */
  function AddMember(objs: map<OsmId, OsmObj>, m: Member, route: Route): Result<Route, ExtractError> {
    if m.role == "" then
      if m.member !in objs then Err(Panicked)
      else if objs[m.member].Way? then
        match LineString(objs, objs[m.member].nodes)
        case Err(e) => Err(e)
        case Ok(ps) => Ok(route.(strings := route.strings + [ps]))
      else Ok(route)
    else if m.role == "stop" then
      if m.member.NodeId? then Ok(route.(stops := route.stops + [m.member.id]))
      else Err(StopNotNode)
    else Ok(route)
  }

  lemma {:induction false} MembersStuck(objs: map<OsmId, OsmObj>, refs: seq<Member>, k: nat)
    requires k <= |refs| && Members(objs, refs[..k]).Err?
    ensures Members(objs, refs) == Members(objs, refs[..k])
  {
    if k < |refs| {
      var init := refs[..|refs| - 1];
      assert init[..k] == refs[..k];
      MembersStuck(objs, init, k);
    } else {
      assert refs[..k] == refs;
    }
  }

  /** The node ids of the stop members, in member order. */
  function StopIds(refs: seq<Member>): seq<int> {
    if refs == [] then []
    else
      var m := refs[|refs| - 1];
      StopIds(refs[..|refs| - 1]) + (if m.role == "stop" then [m.member.id] else [])
  }

  /** The role-"" members that are ways, in member order. */
  function WayMembers(objs: map<OsmId, OsmObj>, refs: seq<Member>): (ws: seq<OsmId>)
    ensures forall k :: 0 <= k < |ws| ==> ws[k] in objs && objs[ws[k]].Way?
  {
    if refs == [] then []
    else
      var m := refs[|refs| - 1];
      WayMembers(objs, refs[..|refs| - 1]) +
        (if m.role == "" && m.member in objs && objs[m.member].Way? then [m.member] else [])
  }

  /** Reading the members succeeds with exactly the stop ids as stations and
      the line string of each role-"" way member, in member order, and every
      stop member is then a node. */
  lemma {:induction false} MembersRead(objs: map<OsmId, OsmObj>, refs: seq<Member>)
    requires Members(objs, refs).Ok?
    ensures Members(objs, refs).value.stops == StopIds(refs)
    ensures |Members(objs, refs).value.strings| == |WayMembers(objs, refs)|
    ensures forall k :: 0 <= k < |WayMembers(objs, refs)| ==>
      LineString(objs, objs[WayMembers(objs, refs)[k]].nodes) == Ok(Members(objs, refs).value.strings[k])
    ensures forall k :: 0 <= k < |refs| && refs[k].role == "stop" ==> refs[k].member.NodeId?
  {
    if refs != [] {
      var init := refs[..|refs| - 1];
      MembersRead(objs, init);
      assert forall k :: 0 <= k < |init| ==> init[k] == refs[k];
    }
  }

  /** A member that stops the reading of a relation. */
  predicate MemberFails(objs: map<OsmId, OsmObj>, m: Member) {
    if m.role == "" then
      m.member !in objs || (objs[m.member].Way? && LineString(objs, objs[m.member].nodes).Err?)
    else m.role == "stop" && !m.member.NodeId?
  }

  /** Reading the members fails exactly when one of them fails. */
  lemma {:induction false} MembersFail(objs: map<OsmId, OsmObj>, refs: seq<Member>)
    ensures Members(objs, refs).Err? <==> exists k :: 0 <= k < |refs| && MemberFails(objs, refs[k])
  {
    if refs != [] {
      var init := refs[..|refs| - 1];
      MembersFail(objs, init);
      if Members(objs, refs).Err? && Members(objs, init).Ok? {
        assert MemberFails(objs, refs[|refs| - 1]);
      }
      if exists k :: 0 <= k < |init| && MemberFails(objs, init[k]) {
        var k :| 0 <= k < |init| && MemberFails(objs, init[k]);
        assert refs[k] == init[k];
      }
      if exists k :: 0 <= k < |refs| && MemberFails(objs, refs[k]) {
        var k :| 0 <= k < |refs| && MemberFails(objs, refs[k]);
        if k < |init| {
          assert init[k] == refs[k];
        }
      }
    }
  }

  // ------------------------------------------------------------- objects

  /** One object of the extract: a tram stop gives a station, a route
      relation whose name parses gives a line, anything else nothing. */
  function Classify(objs: map<OsmId, OsmObj>, id: OsmId): Result<Contribution, ExtractError>
    requires id in objs
  {
    match objs[id]
    case Node(tags, lon, lat) =>
      if !Tagged(tags, "railway", "tram_stop") then Ok(Nothing)
      else if !id.NodeId? then Err(Panicked)
      else if "name" !in tags then Err(NodeWithoutName)
      else Ok(AddStation(Station(id.id, tags["name"], Position(lon, lat))))
    case Way(_) => Ok(Nothing)
    case Relation(tags, refs) =>
      if "route" !in tags then Ok(Nothing)
      else
        match Members(objs, refs)
        case Err(e) => Err(e)
        case Ok(route) =>
          if "name" !in tags then Err(NameTagMissing)
          else RouteLine(tags["name"], route)
  }

  /** The line of a route relation named `name`: skipped when the name does
      not match, an error when the captured number is not a `u8`. */
  function RouteLine(name: string, route: Route): Result<Contribution, ExtractError> {
    match ParseCaptures(name)
    case None => Ok(Nothing)
    case Some(caps) =>
      match ParseU8(caps.number)
      case None => Err(LineNumberUnparseable)
      case Some(n) => Ok(AddLine(TransportLine(n as int, caps.from, caps.to, MultiLineString(route.strings), route.stops)))
  }

  /** A line comes from a route relation whose name spells it out along the
      grammar, with a number that parses as a `u8`, and whose members give
      its geometry and its stations. */
  lemma LineFromRoute(objs: map<OsmId, OsmObj>, id: OsmId, line: TransportLine)
    requires id in objs && Classify(objs, id) == Ok(AddLine(line))
    ensures IsRoute(objs[id]) && "name" in objs[id].tags && Parse(objs[id].tags["name"]).Some?
    ensures var sp := Parse(objs[id].tags["name"]).value;
      && Matches(objs[id].tags["name"], sp) && sp.from == line.from && sp.to == line.to
      && line.number < 256 && ParseU8(sp.number) == Some(line.number as u8)
    ensures line.geometry.MultiLineString? && Members(objs, objs[id].refs) == Ok(Route(line.geometry.lines, line.stations))
  {
    ParseSound(objs[id].tags["name"]);
  }

  /** A route relation whose name does not match the grammar is skipped, not
      an error. */
  lemma UnmatchedNameSkipped(objs: map<OsmId, OsmObj>, id: OsmId)
    requires id in objs && IsRoute(objs[id]) && Members(objs, objs[id].refs).Ok?
    requires "name" in objs[id].tags && forall sp :: !Matches(objs[id].tags["name"], sp)
    ensures Classify(objs, id) == Ok(Nothing)
  {
    var name := objs[id].tags["name"];
    if Parse(name).Some? {
      ParseSound(name);
    }
  }

  /** A route relation whose name matches, but whose reported number is not
      a `u8`, stops the extraction, whatever other splits the name has. */
  lemma BadNumberFails(objs: map<OsmId, OsmObj>, id: OsmId)
    requires id in objs && IsRoute(objs[id]) && Members(objs, objs[id].refs).Ok?
    requires "name" in objs[id].tags && Parse(objs[id].tags["name"]).Some?
    requires ParseU8(Parse(objs[id].tags["name"]).value.number).None?
    ensures Classify(objs, id) == Err(LineNumberUnparseable)
  {
  }

  /** "Tram 1: A: B => C" also splits with number "1", which parses, but the
      reported number is "1: A": the relation stops the extraction. */
  lemma BadNumberExample()
    ensures var name := "Tram 1: A: B => C";
      var objs := map[RelationId(7) := Relation(map["route" := "tram", "name" := name], [])];
      && Matches(name, Split("1", "A: B", false, None, "C")) && ParseU8("1") == Some(1)
      && Classify(objs, RelationId(7)) == Err(LineNumberUnparseable)
  {
    var name := "Tram 1: A: B => C";
    var objs := map[RelationId(7) := Relation(map["route" := "tram", "name" := name], [])];
    GreedyNumberExample();
    ParseAccepts();
    ParseRejectsNonDigits();
    BadNumberFails(objs, RelationId(7));
  }

  /** The two missing-name errors, and the skipped objects. */
  lemma ClassifyCases(objs: map<OsmId, OsmObj>, id: OsmId)
    requires id in objs
    ensures IsTramStop(objs[id]) && id.NodeId? && "name" !in objs[id].tags ==> Classify(objs, id) == Err(NodeWithoutName)
    ensures IsRoute(objs[id]) && Members(objs, objs[id].refs).Ok? && "name" !in objs[id].tags ==>
      Classify(objs, id) == Err(NameTagMissing)
    ensures !IsTramStop(objs[id]) && !IsRoute(objs[id]) ==> Classify(objs, id) == Ok(Nothing)
    ensures Classify(objs, id).Ok? && Classify(objs, id).value.AddStation? ==>
      IsTramStop(objs[id]) && id == NodeId(Classify(objs, id).value.station.id)
  {
  }

  // ------------------------------------------------------------- the pass

  function Apply(acc: Extracted, c: Contribution): Extracted {
    match c
    case Nothing => acc
    case AddStation(s) => acc.(stations := acc.stations[s.id := s])
    case AddLine(line) => acc.(lines := acc.lines + [line])
  }

  /** The pass over the objects in `ids`, stopping at the first error. */
  function Extract(objs: map<OsmId, OsmObj>, ids: seq<OsmId>): Result<Extracted, ExtractError>
    requires forall i :: 0 <= i < |ids| ==> ids[i] in objs
  {
    if ids == [] then Ok(Extracted(map[], []))
    else
      match Extract(objs, ids[..|ids| - 1])
      case Err(e) => Err(e)
      case Ok(acc) =>
        match Classify(objs, ids[|ids| - 1])
        case Err(e) => Err(e)
        case Ok(c) => Ok(Apply(acc, c))
  }

  /** One more object visited by the pass. */
  lemma ExtractStep(objs: map<OsmId, OsmObj>, ids: seq<OsmId>, i: nat)
    requires forall i :: 0 <= i < |ids| ==> ids[i] in objs
    requires i < |ids|
    ensures Extract(objs, ids[..i + 1]) ==
      match Extract(objs, ids[..i])
      case Err(e) => Err(e)
      case Ok(acc) =>
        match Classify(objs, ids[i])
        case Err(e) => Err(e)
        case Ok(c) => Ok(Apply(acc, c))
  {
    assert ids[..i + 1][..i] == ids[..i];
  }

  lemma {:induction false} ExtractStuck(objs: map<OsmId, OsmObj>, ids: seq<OsmId>, k: nat)
    requires forall i :: 0 <= i < |ids| ==> ids[i] in objs
    requires k <= |ids| && Extract(objs, ids[..k]).Err?
    ensures Extract(objs, ids) == Extract(objs, ids[..k])
  {
    if k < |ids| {
      var init := ids[..|ids| - 1];
      assert init[..k] == ids[..k];
      ExtractStuck(objs, init, k);
    } else {
      assert ids[..k] == ids;
    }
  }

  /** The pass fails with the error of the first object that fails, and
      succeeds when none does. */
  lemma {:induction false} ExtractFails(objs: map<OsmId, OsmObj>, ids: seq<OsmId>)
    requires forall i :: 0 <= i < |ids| ==> ids[i] in objs
    ensures Extract(objs, ids).Err? ==> exists k ::
      && 0 <= k < |ids| && Classify(objs, ids[k]) == Err(Extract(objs, ids).error)
      && forall j :: 0 <= j < k ==> Classify(objs, ids[j]).Ok?
    ensures (forall k :: 0 <= k < |ids| ==> Classify(objs, ids[k]).Ok?) ==> Extract(objs, ids).Ok?
  {
    if ids != [] {
      var init := ids[..|ids| - 1];
      ExtractFails(objs, init);
      assert forall k :: 0 <= k < |init| ==> init[k] == ids[k];
      if Extract(objs, ids).Err? && Extract(objs, init).Ok? {
        assert Classify(objs, ids[|ids| - 1]) == Err(Extract(objs, ids).error);
        assert forall j :: 0 <= j < |init| ==> Classify(objs, ids[j]).Ok? by {
          if exists j :: 0 <= j < |init| && Classify(objs, init[j]).Err? {
            var j :| 0 <= j < |init| && Classify(objs, init[j]).Err?;
            ExtractAborts(objs, init, j);
          }
        }
      }
    }
  }

  /** Any failing object stops the whole pass. */
  lemma ExtractAborts(objs: map<OsmId, OsmObj>, ids: seq<OsmId>, k: nat)
    requires forall i :: 0 <= i < |ids| ==> ids[i] in objs
    requires k < |ids| && Classify(objs, ids[k]).Err?
    ensures Extract(objs, ids).Err?
  {
    var prefix := ids[..k + 1];
    assert prefix[..k] == ids[..k] && prefix[k] == ids[k];
    ExtractStuck(objs, ids, k + 1);
  }

  /** The stations are exactly the tram stops among the objects visited,
      each under its node id, with its name and `[lon, lat]`. */
  lemma {:induction false} ExtractStations(objs: map<OsmId, OsmObj>, ids: seq<OsmId>, n: int)
    requires forall i :: 0 <= i < |ids| ==> ids[i] in objs
    requires forall i, j :: 0 <= i < j < |ids| ==> ids[i] != ids[j]
    requires Extract(objs, ids).Ok?
    ensures n in Extract(objs, ids).value.stations <==> NodeId(n) in ids && IsTramStop(objs[NodeId(n)])
    ensures n in Extract(objs, ids).value.stations ==>
      var o := objs[NodeId(n)];
      "name" in o.tags && Extract(objs, ids).value.stations[n] == Station(n, o.tags["name"], Position(o.lon, o.lat))
  {
    if ids != [] {
      var init, last := ids[..|ids| - 1], ids[|ids| - 1];
      assert forall k :: 0 <= k < |init| ==> init[k] == ids[k];
      ExtractStations(objs, init, n);
      assert NodeId(n) in ids <==> NodeId(n) in init || last == NodeId(n);
      if last == NodeId(n) {
        assert NodeId(n) !in init;
      }
    }
  }

  /** The outcome of each visited object, in visiting order. */
  function Outcomes(objs: map<OsmId, OsmObj>, ids: seq<OsmId>): (r: seq<Result<Contribution, ExtractError>>)
    requires forall i :: 0 <= i < |ids| ==> ids[i] in objs
    ensures |r| == |ids|
  {
    seq(|ids|, i requires 0 <= i < |ids| && ids[i] in objs => Classify(objs, ids[i]))
  }

  /** The pass over given outcomes: `Extract` once each object is
      classified. */
  function Fold(outs: seq<Result<Contribution, ExtractError>>): Result<Extracted, ExtractError> {
    if outs == [] then Ok(Extracted(map[], []))
    else
      match Fold(outs[..|outs| - 1])
      case Err(e) => Err(e)
      case Ok(acc) =>
        match outs[|outs| - 1]
        case Err(e) => Err(e)
        case Ok(c) => Ok(Apply(acc, c))
  }

  lemma OutcomesPrefix(objs: map<OsmId, OsmObj>, ids: seq<OsmId>)
    requires ids != [] && forall i :: 0 <= i < |ids| ==> ids[i] in objs
    ensures Outcomes(objs, ids)[..|ids| - 1] == Outcomes(objs, ids[..|ids| - 1])
    ensures Outcomes(objs, ids)[|ids| - 1] == Classify(objs, ids[|ids| - 1])
  {
  }

  lemma {:induction false} ExtractIsFold(objs: map<OsmId, OsmObj>, ids: seq<OsmId>)
    requires forall i :: 0 <= i < |ids| ==> ids[i] in objs
    ensures Extract(objs, ids) == Fold(Outcomes(objs, ids))
  {
    if ids != [] {
      ExtractIsFold(objs, ids[..|ids| - 1]);
      OutcomesPrefix(objs, ids);
    }
  }

  /** The lines of a successful pass are exactly the lines the outcomes
      bring. */
  lemma {:induction false} FoldLines(outs: seq<Result<Contribution, ExtractError>>, line: TransportLine)
    requires Fold(outs).Ok?
    ensures line in Fold(outs).value.lines <==> Ok(AddLine(line)) in outs
  {
    if outs != [] {
      var init := outs[..|outs| - 1];
      FoldLines(init, line);
      assert outs == init + [outs[|outs| - 1]];
    }
  }

  /** The lines are exactly the lines the visited objects contribute. */
  lemma ExtractLines(objs: map<OsmId, OsmObj>, ids: seq<OsmId>, line: TransportLine)
    requires forall i :: 0 <= i < |ids| ==> ids[i] in objs
    requires Extract(objs, ids).Ok?
    ensures line in Extract(objs, ids).value.lines <==>
      exists k :: 0 <= k < |ids| && Classify(objs, ids[k]) == Ok(AddLine(line))
  {
    var outs := Outcomes(objs, ids);
    ExtractIsFold(objs, ids);
    FoldLines(outs, line);
    if Ok(AddLine(line)) in outs {
      var k :| 0 <= k < |outs| && outs[k] == Ok(AddLine(line));
      assert Classify(objs, ids[k]) == Ok(AddLine(line));
    }
    if exists k :: 0 <= k < |ids| && Classify(objs, ids[k]) == Ok(AddLine(line)) {
      var k :| 0 <= k < |ids| && Classify(objs, ids[k]) == Ok(AddLine(line));
      assert outs[k] == Ok(AddLine(line));
    }
  }

  // ---------------------------------------------------------- the loops

  /** The node loop of one way. */
  method CollectLineString(objs: map<OsmId, OsmObj>, nodes: seq<int>) returns (r: Result<seq<Position>, ExtractError>)
    ensures r == LineString(objs, nodes)
  {
    var ps: seq<Position> := [];
    var i := 0;
    while i < |nodes|
      invariant i <= |nodes|
      invariant LineString(objs, nodes[..i]) == Ok(ps)
    {
      assert nodes[..i + 1][..i] == nodes[..i];
      var id := NodeId(nodes[i]);
      if id !in objs {
        LineStringStuck(objs, nodes, i + 1);
        return Err(Panicked);
      }
      if objs[id].Node? {
        ps := ps + [Position(objs[id].lon, objs[id].lat)];
      }
      i := i + 1;
    }
    assert nodes[..i] == nodes;
    r := Ok(ps);
  }

  /** The member loop of one relation. */
  method CollectMembers(objs: map<OsmId, OsmObj>, refs: seq<Member>) returns (r: Result<Route, ExtractError>)
    ensures r == Members(objs, refs)
  {
    var strings: seq<seq<Position>> := [];
    var stops: seq<int> := [];
    var i := 0;
    while i < |refs|
      invariant i <= |refs|
      invariant Members(objs, refs[..i]) == Ok(Route(strings, stops))
    {
      assert refs[..i + 1][..i] == refs[..i];
      var m := refs[i];
      if m.role == "" {
        if m.member !in objs {
          MembersStuck(objs, refs, i + 1);
          return Err(Panicked);
        }
        if objs[m.member].Way? {
          var ls := CollectLineString(objs, objs[m.member].nodes);
          if ls.Err? {
            MembersStuck(objs, refs, i + 1);
            return Err(ls.error);
          }
          strings := strings + [ls.value];
        }
      } else if m.role == "stop" {
        if !m.member.NodeId? {
          MembersStuck(objs, refs, i + 1);
          return Err(StopNotNode);
        }
        stops := stops + [m.member.id];
      }
      i := i + 1;
    }
    assert refs[..i] == refs;
    r := Ok(Route(strings, stops));
  }

  /** The body of the object loop for one object. */
  method Visit(objs: map<OsmId, OsmObj>, id: OsmId) returns (r: Result<Contribution, ExtractError>)
    requires id in objs
    ensures r == Classify(objs, id)
  {
    var obj := objs[id];
    if obj.Node? {
      if !Tagged(obj.tags, "railway", "tram_stop") {
        return Ok(Nothing);
      }
      if !id.NodeId? {
        return Err(Panicked);
      }
      if "name" !in obj.tags {
        return Err(NodeWithoutName);
      }
      return Ok(AddStation(Station(id.id, obj.tags["name"], Position(obj.lon, obj.lat))));
    } else if obj.Relation? {
      if "route" !in obj.tags {
        return Ok(Nothing);
      }
      var route := CollectMembers(objs, obj.refs);
      if route.Err? {
        return Err(route.error);
      }
      if "name" !in obj.tags {
        return Err(NameTagMissing);
      }
      var caps := ParseCaptures(obj.tags["name"]);
      if caps.None? {
        return Ok(Nothing);
      }
      var n := ParseU8(caps.value.number);
      if n.None? {
        return Err(LineNumberUnparseable);
      }
      var line := TransportLine(n.value as int, caps.value.from, caps.value.to, MultiLineString(route.value.strings), route.value.stops);
      return Ok(AddLine(line));
    }
    return Ok(Nothing);
  }

  /** `extract_transport_lines` between reading the extract and writing the
      JSON: the object loop, then the sort. It fails exactly when the pass
      fails, with the same error; otherwise it yields the pass's stations
      and the pass's lines, sorted. */
  method ExtractTransportLines(objs: map<OsmId, OsmObj>, ids: seq<OsmId>) returns (r: Result<Extracted, ExtractError>)
    requires IterationOrder(objs, ids)
    ensures r.Err? <==> Extract(objs, ids).Err?
    ensures r.Err? ==> r == Extract(objs, ids)
    ensures r.Ok? ==> r.value.stations == Extract(objs, ids).value.stations
    ensures r.Ok? ==> Sorted(r.value.lines) && multiset(r.value.lines) == multiset(Extract(objs, ids).value.lines)
  {
    var stations: map<int, Station> := map[];
    var lines: seq<TransportLine> := [];
    var i := 0;
    while i < |ids|
      invariant i <= |ids|
      invariant Extract(objs, ids[..i]) == Ok(Extracted(stations, lines))
    {
      ExtractStep(objs, ids, i);
      var c := Visit(objs, ids[i]);
      if c.Err? {
        ExtractStuck(objs, ids, i + 1);
        return Err(c.error);
      }
      match c.value {
        case Nothing =>
        case AddStation(s) =>
          stations := stations[s.id := s];
        case AddLine(line) =>
          lines := lines + [line];
      }
      i := i + 1;
    }
    assert ids[..i] == ids;
    var a := new TransportLine[|lines|](k requires 0 <= k < |lines| => lines[k]);
    assert a[..] == lines;
    Sort(a);
    r := Ok(Extracted(stations, a[..]));
  }

  /** Sorted lines run by number first. */
  lemma SortedByNumber(lines: seq<TransportLine>, p: nat, q: nat)
    requires Sorted(lines) && p < q < |lines|
    ensures lines[p].number <= lines[q].number
    ensures lines[p].number == lines[q].number && lines[p].from != lines[q].from ==>
      CompareStr(lines[p].from, lines[q].from) == Less
  {
    assert LineLeq(lines[p], lines[q]);
    CompareStrEqual(lines[p].from, lines[q].from);
  }
}
