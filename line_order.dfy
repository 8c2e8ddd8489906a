/** The ordering the extractor sorts its lines by: the `Ord` that
    `derivative` generates for `TransportLine`, which compares `number`, then
    `from`, then `to`, then `stations`, and ignores `geometry`; and the
    in-place sort of the line vector. Strings compare as Rust compares
    `String`s, byte by byte in UTF-8, which orders them like their sequences
    of code points. */
module LineOrder {
  import opened Geo
  import opened TransportData

  datatype Ordering = Less | Equal | Greater

  function Flip(o: Ordering): Ordering {
    match o
    case Less => Greater
    case Equal => Equal
    case Greater => Less
  }

  /** `Ordering::then`: the first comparison decides unless it is `Equal`. */
  function Then(first: Ordering, next: Ordering): Ordering {
    if first == Equal then next else first
  }

  function CompareInt(a: int, b: int): (o: Ordering)
    ensures o == Equal <==> a == b
    ensures o == Less <==> a < b
  {
    if a < b then Less else if a == b then Equal else Greater
  }

  /** Lexicographic comparison of integer sequences: `Vec<NodeId>`'s `Ord`. */
  function CompareSeq(a: seq<int>, b: seq<int>): Ordering {
    if a == [] && b == [] then Equal
    else if a == [] then Less
    else if b == [] then Greater
    else Then(CompareInt(a[0], b[0]), CompareSeq(a[1..], b[1..]))
  }

  /** The code points of a string. */
  function Codes(s: string): (r: seq<int>)
    ensures |r| == |s|
    ensures forall i :: 0 <= i < |s| ==> r[i] == s[i] as int
  {
    seq(|s|, i requires 0 <= i < |s| => s[i] as int)
  }

  function CompareStr(a: string, b: string): Ordering {
    CompareSeq(Codes(a), Codes(b))
  }

  /** The derived `Ord::cmp` of `TransportLine`. */
  function CompareLines(x: TransportLine, y: TransportLine): Ordering {
    Then(CompareInt(x.number, y.number),
      Then(CompareStr(x.from, y.from),
        Then(CompareStr(x.to, y.to), CompareSeq(x.stations, y.stations))))
  }

  predicate LineLeq(x: TransportLine, y: TransportLine) {
    CompareLines(x, y) != Greater
  }

  /** Every pair in order, as `sort` leaves the vector. */
  predicate Sorted(s: seq<TransportLine>) {
    forall p, q :: 0 <= p < q < |s| ==> LineLeq(s[p], s[q])
  }

  /** Every neighbouring pair in order. */
  predicate AdjacentSorted(s: seq<TransportLine>) {
    forall k :: 0 < k < |s| ==> LineLeq(s[k - 1], s[k])
  }

  lemma {:induction false} CompareSeqFlip(a: seq<int>, b: seq<int>)
    ensures CompareSeq(b, a) == Flip(CompareSeq(a, b))
  {
    if a != [] && b != [] {
      CompareSeqFlip(a[1..], b[1..]);
    }
  }

  lemma {:induction false} CompareSeqEqual(a: seq<int>, b: seq<int>)
    ensures CompareSeq(a, b) == Equal <==> a == b
  {
    if a != [] && b != [] {
      CompareSeqEqual(a[1..], b[1..]);
      if a[0] == b[0] && a[1..] == b[1..] {
        assert a == [a[0]] + a[1..] && b == [b[0]] + b[1..];
      }
    }
  }

  lemma {:induction false} CompareSeqTrans(a: seq<int>, b: seq<int>, c: seq<int>)
    requires CompareSeq(a, b) != Greater && CompareSeq(b, c) != Greater
    ensures CompareSeq(a, c) != Greater
  {
    if a != [] && b != [] && c != [] {
      if a[0] == b[0] && b[0] == c[0] {
        CompareSeqTrans(a[1..], b[1..], c[1..]);
      }
    }
  }

  lemma CodesInjective(a: string, b: string)
    requires Codes(a) == Codes(b)
    ensures a == b
  {
    assert |a| == |b|;
    forall i | 0 <= i < |a| ensures a[i] == b[i] {
      assert Codes(a)[i] == Codes(b)[i];
    }
  }

  lemma CompareStrEqual(a: string, b: string)
    ensures CompareStr(a, b) == Equal <==> a == b
  {
    CompareSeqEqual(Codes(a), Codes(b));
    if Codes(a) == Codes(b) {
      CodesInjective(a, b);
    }
  }

  /** Swapping the arguments flips the result. */
  lemma CompareLinesFlip(x: TransportLine, y: TransportLine)
    ensures CompareLines(y, x) == Flip(CompareLines(x, y))
  {
    CompareSeqFlip(Codes(x.from), Codes(y.from));
    CompareSeqFlip(Codes(x.to), Codes(y.to));
    CompareSeqFlip(x.stations, y.stations);
  }

  /** Two lines compare `Equal` exactly when they agree on everything but
      their geometry. */
  lemma CompareLinesEqual(x: TransportLine, y: TransportLine)
    ensures CompareLines(x, y) == Equal <==>
      x.number == y.number && x.from == y.from && x.to == y.to && x.stations == y.stations
  {
    CompareStrEqual(x.from, y.from);
    CompareStrEqual(x.to, y.to);
    CompareSeqEqual(x.stations, y.stations);
  }

  /** The ordering never looks at the geometry. */
  lemma CompareIgnoresGeometry(x: TransportLine, y: TransportLine, g: Geometry)
    ensures CompareLines(x.(geometry := g), y) == CompareLines(x, y)
    ensures CompareLines(x, y.(geometry := g)) == CompareLines(x, y)
  {
  }

  /** Any two lines are comparable. */
  lemma LineLeqTotal(x: TransportLine, y: TransportLine)
    ensures LineLeq(x, y) || LineLeq(y, x)
  {
    CompareLinesFlip(x, y);
  }

  lemma LineLeqTrans(x: TransportLine, y: TransportLine, z: TransportLine)
    requires LineLeq(x, y) && LineLeq(y, z)
    ensures LineLeq(x, z)
  {
    CompareStrEqual(x.from, y.from);
    CompareStrEqual(y.from, z.from);
    CompareStrEqual(x.to, y.to);
    CompareStrEqual(y.to, z.to);
    if x.number == z.number {
      assert x.number == y.number;
      var f1, f2 := CompareStr(x.from, y.from), CompareStr(y.from, z.from);
      CompareSeqTrans(Codes(x.from), Codes(y.from), Codes(z.from));
      if f1 == Equal && f2 == Equal {
        CompareSeqTrans(Codes(x.to), Codes(y.to), Codes(z.to));
        if CompareStr(x.to, y.to) == Equal && CompareStr(y.to, z.to) == Equal {
          CompareSeqTrans(x.stations, y.stations, z.stations);
        } else {
          LineToTrans(x, y, z);
        }
      } else {
        LineFromTrans(x, y, z);
      }
    }
  }

  lemma LineFromTrans(x: TransportLine, y: TransportLine, z: TransportLine)
    requires x.number == y.number == z.number
    requires LineLeq(x, y) && LineLeq(y, z)
    requires CompareStr(x.from, y.from) != Equal || CompareStr(y.from, z.from) != Equal
    ensures LineLeq(x, z)
  {
    CompareStrEqual(x.from, y.from);
    CompareStrEqual(y.from, z.from);
    CompareStrEqual(x.from, z.from);
    CompareSeqTrans(Codes(x.from), Codes(y.from), Codes(z.from));
    CompareSeqFlip(Codes(x.from), Codes(z.from));
    if x.from == z.from {
      CompareSeqFlip(Codes(x.from), Codes(y.from));
    }
  }

  lemma LineToTrans(x: TransportLine, y: TransportLine, z: TransportLine)
    requires x.number == y.number == z.number && x.from == y.from == z.from
    requires LineLeq(x, y) && LineLeq(y, z)
    requires CompareStr(x.to, y.to) != Equal || CompareStr(y.to, z.to) != Equal
    ensures LineLeq(x, z)
  {
    CompareStrEqual(x.from, x.from);
    CompareStrEqual(x.to, y.to);
    CompareStrEqual(y.to, z.to);
    CompareStrEqual(x.to, z.to);
    CompareSeqTrans(Codes(x.to), Codes(y.to), Codes(z.to));
    if x.to == z.to {
      CompareSeqFlip(Codes(x.to), Codes(y.to));
    }
  }

  /** Neighbouring pairs in order put every pair in order. */
  lemma {:induction false} AdjacentToSorted(s: seq<TransportLine>)
    requires AdjacentSorted(s)
    ensures Sorted(s)
  {
    if |s| > 1 {
      var init := s[..|s| - 1];
      assert AdjacentSorted(init) by {
        forall k | 0 < k < |init| ensures LineLeq(init[k - 1], init[k]) {
          assert init[k - 1] == s[k - 1] && init[k] == s[k];
        }
      }
      AdjacentToSorted(init);
      forall p, q | 0 <= p < q < |s| ensures LineLeq(s[p], s[q]) {
        if q < |s| - 1 {
          assert s[p] == init[p] && s[q] == init[q];
        } else if p < q - 1 {
          assert s[p] == init[p] && s[q - 1] == init[q - 1];
          LineLeqTrans(s[p], s[q - 1], s[q]);
        }
      }
    }
  }

  /** The inner loop's state: `a[..n]` is in order except, possibly, at the
      pair `(j - 1, j)` where the line being inserted sits; and the lines on
      either side of that gap are in order with each other. */
  ghost predicate Inserting(s: seq<TransportLine>, n: nat, j: nat)
  {
    && j < n <= |s|
    && (forall k :: 0 < k < n && k != j ==> LineLeq(s[k - 1], s[k]))
    && (0 < j < n - 1 ==> LineLeq(s[j - 1], s[j + 1]))
  }

  /** The inner loop starts with the new line at the end of an ordered
      prefix. */
  lemma InsertStart(s: seq<TransportLine>, i: nat)
    requires i < |s| && AdjacentSorted(s[..i])
    ensures Inserting(s, i + 1, i)
  {
    forall k | 0 < k < i + 1 && k != i ensures LineLeq(s[k - 1], s[k]) {
      assert s[k - 1] == s[..i][k - 1] && s[k] == s[..i][k];
    }
  }

  /** Swapping two neighbours below `n` leaves the lines from `n` on. */
  lemma SwapKeepsTail(s: seq<TransportLine>, j: nat, n: nat)
    requires 0 < j < n <= |s|
    ensures s[j - 1 := s[j]][j := s[j - 1]][n..] == s[n..]
  {
  }

  /** Swapping the inserted line one place down keeps the inner loop's
      state. */
  lemma SwapDown(s: seq<TransportLine>, n: nat, j: nat)
    requires Inserting(s, n, j) && 0 < j && !LineLeq(s[j - 1], s[j])
    ensures Inserting(s[j - 1 := s[j]][j := s[j - 1]], n, j - 1)
  {
    LineLeqTotal(s[j - 1], s[j]);
  }

  /** The inner loop stops once the inserted line is in place. */
  lemma InsertDone(s: seq<TransportLine>, n: nat, j: nat)
    requires Inserting(s, n, j) && (j == 0 || LineLeq(s[j - 1], s[j]))
    ensures AdjacentSorted(s[..n])
  {
  }

  /** Swapping two neighbours keeps the same lines. */
  lemma SwapSame(s: seq<TransportLine>, j: nat)
    requires 0 < j < |s|
    ensures multiset(s[j - 1 := s[j]][j := s[j - 1]]) == multiset(s)
  {
  }

  /** `slice::sort` on the line vector: afterwards the lines are in order and
      are the same lines as before. Insertion by swapping neighbours. */
  method Sort(a: array<TransportLine>)
    modifies a
    ensures Sorted(a[..])
    ensures multiset(a[..]) == multiset(old(a[..]))
  {
    var i := 0;
    while i < a.Length
      invariant i <= a.Length
      invariant AdjacentSorted(a[..i])
      invariant multiset(a[..]) == multiset(old(a[..]))
    {
      Insert(a, i);
      i := i + 1;
    }
    AdjacentToSorted(a[..]);
  }

  /** Moves `a[i]` down past the lines that compare greater than it. */
  method Insert(a: array<TransportLine>, i: nat)
    requires i < a.Length && AdjacentSorted(a[..i])
    modifies a
    ensures AdjacentSorted(a[..i + 1])
    ensures multiset(a[..]) == multiset(old(a[..]))
    ensures a[i + 1..] == old(a[i + 1..])
  {
    var j := i;
    InsertStart(a[..], i);
    while 0 < j && !LineLeq(a[j - 1], a[j])
      invariant 0 <= j <= i
      invariant Inserting(a[..], i + 1, j)
      invariant multiset(a[..]) == multiset(old(a[..]))
      invariant a[i + 1..] == old(a[i + 1..])
    {
      ghost var before := a[..];
      SwapDown(before, i + 1, j);
      SwapSame(before, j);
      SwapKeepsTail(before, j, i + 1);
      a[j - 1], a[j] := a[j], a[j - 1];
      assert a[..] == before[j - 1 := before[j]][j := before[j - 1]];
      j := j - 1;
    }
    InsertDone(a[..], i + 1, j);
    assert a[..][..i + 1] == a[..i + 1];
  }
}
