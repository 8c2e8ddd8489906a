/** The shared data model of the map front end (`Station`, `TransportLine`,
    `TransportData`) and the derived line key `transportLineId`. */
module TransportData {
  import opened Geo
  import opened Numerals

  datatype Station = Station(id: int, name: string, position: Position)

  /** `number` is a non-negative integer (the extractor writes a `u8`);
      `stations` lists the node ids of the stops in route order. */
  datatype TransportLine = TransportLine(number: nat, from: string, to: string, geometry: Geometry, stations: seq<int>)

  /** `stations` is the JSON object keyed by node id, given as its entries in
      the object's property enumeration order, which is the order
      `Object.values` visits them in. */
  datatype TransportData = TransportData(stations: seq<(int, Station)>, lines: seq<TransportLine>)

  /** `Object.values(data.stations)`. */
  function StationValues(entries: seq<(int, Station)>): (values: seq<Station>)
    ensures |values| == |entries|
    ensures forall i :: 0 <= i < |entries| ==> values[i] == entries[i].1
  {
    seq(|entries|, i requires 0 <= i < |entries| => entries[i].1)
  }

  /** `${line.number}${line.from}${line.to}`. */
  function TransportLineId(line: TransportLine): string {
    Decimal(line.number) + line.from + line.to
  }

  /** The key starts with the decimal number, ends with the destination, and is
      exactly as long as its three parts. */
  lemma IdShape(line: TransportLine)
    ensures var id, d := TransportLineId(line), Decimal(line.number);
      && |id| == |d| + |line.from| + |line.to|
      && id[..|d|] == d
      && id[|d|..|d| + |line.from|] == line.from
      && id[|id| - |line.to|..] == line.to
  {
  }

  /** Only number, origin and destination enter the key. */
  lemma IdIgnoresRoute(line: TransportLine, geometry: Geometry, stations: seq<int>)
    ensures TransportLineId(line.(geometry := geometry, stations := stations)) == TransportLineId(line)
  {
  }

  /** The key is not injective: line 1 from "2A" to "B" and line 12 from "A"
      to "B" both have the key "12AB", so one selection can match two lines. */
  lemma IdNotInjective(geometry: Geometry)
    ensures var a, b := TransportLine(1, "2A", "B", geometry, []), TransportLine(12, "A", "B", geometry, []);
      a != b && TransportLineId(a) == "12AB" && TransportLineId(b) == "12AB"
  {
    assert Decimal(12) == "12" by {
      assert Decimal(12) == Decimal(1) + [DigitChar(2)];
    }
  }

  lemma DecimalInjective(m: nat, n: nat)
    requires Decimal(m) == Decimal(n)
    ensures m == n
  {
    DecimalValue(m);
    DecimalValue(n);
  }

  /** Lines with the same origin and destination have the same key exactly
      when they have the same number. */
  lemma IdSameEnds(a: TransportLine, b: TransportLine)
    requires a.from == b.from && a.to == b.to
    ensures TransportLineId(a) == TransportLineId(b) <==> a.number == b.number
  {
    var da, db := Decimal(a.number), Decimal(b.number);
    var rest := a.from + a.to;
    assert TransportLineId(a) == da + rest && TransportLineId(b) == db + rest;
    if TransportLineId(a) == TransportLineId(b) {
      assert |da| == |db|;
      assert da == (da + rest)[..|da|] == (db + rest)[..|db|] == db;
      DecimalInjective(a.number, b.number);
    }
  }

  /** When origin and destination together do not start with a digit, the key
      determines the number: the number is the key's longest digit prefix. */
  lemma IdDeterminesNumber(a: TransportLine, b: TransportLine)
    requires a.from + a.to == [] || !IsDigit((a.from + a.to)[0])
    requires b.from + b.to == [] || !IsDigit((b.from + b.to)[0])
    requires TransportLineId(a) == TransportLineId(b)
    ensures a.number == b.number && a.from + a.to == b.from + b.to
  {
    var da, db := Decimal(a.number), Decimal(b.number);
    var ra, rb := a.from + a.to, b.from + b.to;
    var id := TransportLineId(a);
    assert id == da + ra && id == db + rb;
    if |da| < |db| {
      // The shorter rendering would be followed by a digit, but `ra` starts with none.
      DigitFollows(da, ra, db, rb);
      assert false;
    } else if |db| < |da| {
      // Likewise with the roles swapped.
      DigitFollows(db, rb, da, ra);
      assert false;
    }
    assert da == id[..|da|] == db;
    DecimalInjective(a.number, b.number);
    assert ra == id[|da|..] == rb;
  }

  /** If a digit string is a proper prefix of a longer one, what follows the
      shorter one starts with a digit. */
  lemma DigitFollows(short: string, rest: string, long: string, tail: string)
    requires short + rest == long + tail
    requires AllDigits(long) && |short| < |long|
    ensures rest != [] && IsDigit(rest[0])
  {
    assert (short + rest)[|short|] == long[|short|];
  }
}
