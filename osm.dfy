/** The OpenStreetMap objects the extractor reads, as osmpbfreader hands
    them over: a map from object id to object, iterated in ascending id
    order (a `BTreeMap`). Ids order by kind first (node, way, relation, the
    declaration order of `OsmId`'s variants), then by number. */
module Osm {

  datatype OsmId = NodeId(id: int) | WayId(id: int) | RelationId(id: int)

  /** A relation member: the member's id and its role in the relation. */
  datatype Member = Member(member: OsmId, role: string)

  /** Node coordinates are exact reals; the fixed-point decoding of the PBF
      format is not modelled. */
  datatype OsmObj =
    | Node(tags: map<string, string>, lon: real, lat: real)
    | Way(nodes: seq<int>)
    | Relation(tags: map<string, string>, refs: seq<Member>)

  function KindRank(id: OsmId): nat {
    match id
    case NodeId(_) => 0
    case WayId(_) => 1
    case RelationId(_) => 2
  }

  /** The derived `Ord` of `OsmId`. */
  predicate IdLess(a: OsmId, b: OsmId) {
    KindRank(a) < KindRank(b) || (KindRank(a) == KindRank(b) && a.id < b.id)
  }

  /** `ids` is the iteration order of `objs`: every key once, ascending. */
  predicate IterationOrder(objs: map<OsmId, OsmObj>, ids: seq<OsmId>) {
    && (forall i, j :: 0 <= i < j < |ids| ==> IdLess(ids[i], ids[j]))
    && (forall id :: id in objs ==> id in ids)
    && (forall i :: 0 <= i < |ids| ==> ids[i] in objs)
  }

  /** Every object is stored under an id of its own kind, as osmpbfreader
      keys objects by `obj.id()`. */
  predicate KindsAgree(objs: map<OsmId, OsmObj>) {
    forall id :: id in objs ==>
      (id.NodeId? <==> objs[id].Node?) && (id.WayId? <==> objs[id].Way?)
  }

  /** `tags.get(key) == Some(value)`. */
  predicate Tagged(tags: map<string, string>, key: string, value: string) {
    key in tags && tags[key] == value
  }

  /** The iteration order visits no key twice. */
  lemma IterationDistinct(objs: map<OsmId, OsmObj>, ids: seq<OsmId>, i: nat, j: nat)
    requires IterationOrder(objs, ids) && i < j < |ids|
    ensures ids[i] != ids[j]
  {
  }

  /** A map has exactly one iteration order. */
  lemma {:induction false} IterationOrderUnique(objs: map<OsmId, OsmObj>, ids: seq<OsmId>, ids': seq<OsmId>)
    requires IterationOrder(objs, ids) && IterationOrder(objs, ids')
    ensures ids == ids'
  {
    IterationUnique(ids, ids');
  }

  lemma {:induction false} IterationUnique(ids: seq<OsmId>, ids': seq<OsmId>)
    requires forall i, j :: 0 <= i < j < |ids| ==> IdLess(ids[i], ids[j])
    requires forall i, j :: 0 <= i < j < |ids'| ==> IdLess(ids'[i], ids'[j])
    requires forall id :: id in ids <==> id in ids'
    ensures ids == ids'
  {
    assert ids != [] ==> ids[0] in ids;
    assert ids' != [] ==> ids'[0] in ids';
    if ids != [] && ids' != [] {
      var x, y := ids[0], ids'[0];
      LeastFirst(ids, ids');
      LeastFirst(ids', ids);
      forall id ensures id in ids[1..] <==> id in ids'[1..] {
        if id in ids[1..] {
          var m :| 0 <= m < |ids[1..]| && ids[1..][m] == id;
          assert ids[m + 1] == id && IdLess(x, id) && id in ids;
          var k' :| 0 <= k' < |ids'| && ids'[k'] == id;
          assert ids'[1..][k' - 1] == id;
        }
        if id in ids'[1..] {
          var m :| 0 <= m < |ids'[1..]| && ids'[1..][m] == id;
          assert ids'[m + 1] == id && IdLess(y, id) && id in ids';
          var k' :| 0 <= k' < |ids| && ids[k'] == id;
          assert ids[1..][k' - 1] == id;
        }
      }
      IterationUnique(ids[1..], ids'[1..]);
      assert ids == [x] + ids[1..] && ids' == [y] + ids'[1..];
    }
  }

  /** The first id of an ascending order is the least key. */
  lemma LeastFirst(ids: seq<OsmId>, ids': seq<OsmId>)
    requires ids != [] && ids' != []
    requires forall i, j :: 0 <= i < j < |ids'| ==> IdLess(ids'[i], ids'[j])
    requires forall id :: id in ids <==> id in ids'
    ensures !IdLess(ids[0], ids'[0])
  {
    var x := ids[0];
    assert x in ids;
    var i :| 0 <= i < |ids'| && ids'[i] == x;
    if i > 0 {
      assert IdLess(ids'[0], ids'[i]);
    }
  }
}
