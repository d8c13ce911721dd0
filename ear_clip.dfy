/**
 * Ear-clipping triangulation of a simple polygon into index triples. The
 * geometric ear test is a parameter: only the index bookkeeping is modelled.
 */
module EarClip {
  import opened Geometry
  import Tiles

  /** Twice the signed area's summand for edge i → i+1 (mod n). */
  function EdgeCross(polygon: seq<Vec2>, i: nat): real
    requires i < |polygon|
  {
    var j := (i + 1) % |polygon|;
    polygon[i].x * polygon[j].y - polygon[j].x * polygon[i].y
  }

  function CrossSum(polygon: seq<Vec2>, k: nat): real
    requires k <= |polygon|
  {
    if k == 0 then 0.0 else CrossSum(polygon, k - 1) + EdgeCross(polygon, k - 1)
  }

  /** The shoelace signed area: positive for counter-clockwise polygons. */
  function SignedArea(polygon: seq<Vec2>): real
  {
    CrossSum(polygon, |polygon|) * 0.5
  }

  /** 0, 1, …, n-1. */
  function Range(n: nat): (r: seq<nat>)
    ensures |r| == n && forall k :: 0 <= k < n ==> r[k] == k
  {
    seq(n, k requires 0 <= k < n => k)
  }

  function Reverse(s: seq<nat>): (r: seq<nat>)
    ensures |r| == |s| && forall k :: 0 <= k < |s| ==> r[k] == s[|s| - 1 - k]
  {
    seq(|s|, k requires 0 <= k < |s| => s[|s| - 1 - k])
  }

  predicate Distinct(s: seq<nat>)
  {
    forall a, b :: 0 <= a < b < |s| ==> s[a] != s[b]
  }

  /** Triangle t of an index list: three distinct polygon vertices. */
  predicate GoodTriangle(result: seq<nat>, t: nat, n: nat)
    requires 3 * t + 2 < |result|
  {
    result[3 * t] < n && result[3 * t + 1] < n && result[3 * t + 2] < n &&
    result[3 * t] != result[3 * t + 1] && result[3 * t + 1] != result[3 * t + 2] && result[3 * t] != result[3 * t + 2]
  }

  /** The cyclic neighbours of position i are three different positions of a list of at least three. */
  lemma Neighbours(n: nat, i: nat)
    requires 3 <= n && i < n
    ensures i % n == i
    ensures (i + n - 1) % n == (if i == 0 then n - 1 else i - 1)
    ensures (i + 1) % n == (if i == n - 1 then 0 else i + 1)
  {
    Tiles.DivModUnique(i, n, 0, i);
    if i == 0 {
      Tiles.DivModUnique(i + n - 1, n, 0, n - 1);
    } else {
      Tiles.DivModUnique(i + n - 1, n, 1, i - 1);
    }
    if i == n - 1 {
      Tiles.DivModUnique(i + 1, n, 1, 0);
    } else {
      Tiles.DivModUnique(i + 1, n, 0, i + 1);
    }
  }

  /** Cutting one entry out of a list of distinct vertices leaves distinct vertices. */
  lemma CutKeepsDistinct(indices: seq<nat>, j: nat, n: nat)
    requires j < |indices| && Distinct(indices) && forall k :: 0 <= k < |indices| ==> indices[k] < n
    ensures var r := indices[..j] + indices[j + 1..];
      |r| == |indices| - 1 && Distinct(r) && forall k :: 0 <= k < |r| ==> r[k] < n
  {
    var r := indices[..j] + indices[j + 1..];
    forall a, b | 0 <= a < b < |r|
      ensures r[a] != r[b]
    {
      var a' := if a < j then a else a + 1;
      var b' := if b < j then b else b + 1;
      assert r[a] == indices[a'] && r[b] == indices[b'] && a' < b';
    }
  }

  /** Appending a good triangle keeps every triangle good. */
  lemma EmitTriangle(result: seq<nat>, n: nat, x: nat, y: nat, z: nat)
    requires |result| % 3 == 0 && forall t :: 0 <= t < |result| / 3 ==> GoodTriangle(result, t, n)
    requires x < n && y < n && z < n && x != y && y != z && x != z
    ensures var r := result + [x, y, z];
      |r| % 3 == 0 && forall t :: 0 <= t < |r| / 3 ==> GoodTriangle(r, t, n)
  {
    var r := result + [x, y, z];
    forall t | 0 <= t < |r| / 3
      ensures GoodTriangle(r, t, n)
    {
      if t < |result| / 3 {
        assert GoodTriangle(result, t, n);
        assert r[3 * t] == result[3 * t] && r[3 * t + 1] == result[3 * t + 1] && r[3 * t + 2] == result[3 * t + 2];
      } else {
        assert 3 * t == |result|;
      }
    }
  }

  /** The starting vertex order: 0..n-1, reversed for a clockwise polygon. */
  function StartOrder(polygon: seq<Vec2>): (r: seq<nat>)
    ensures |r| == |polygon| && Distinct(r) && forall k :: 0 <= k < |r| ==> r[k] < |polygon|
  {
    if SignedArea(polygon) < 0.0 then Reverse(Range(|polygon|)) else Range(|polygon|)
  }

  /** The polygon's points visited in the given index order. */
  function Pick(polygon: seq<Vec2>, order: seq<nat>): (r: seq<Vec2>)
    requires forall k :: 0 <= k < |order| ==> order[k] < |polygon|
    ensures |r| == |order| && forall k :: 0 <= k < |order| ==> r[k] == polygon[order[k]]
  {
    seq(|order|, k requires 0 <= k < |order| => polygon[order[k]])
  }

  /** The polygon's points in reverse order. */
  function Reversed(polygon: seq<Vec2>): (r: seq<Vec2>)
    ensures |r| == |polygon| && forall k :: 0 <= k < |r| ==> r[k] == polygon[|polygon| - 1 - k]
  {
    Pick(polygon, Reverse(Range(|polygon|)))
  }

  /** An edge that does not wrap around joins vertex i to vertex i+1. */
  lemma InnerEdgeCross(polygon: seq<Vec2>, i: nat)
    requires i + 1 < |polygon|
    ensures EdgeCross(polygon, i) == polygon[i].x * polygon[i + 1].y - polygon[i + 1].x * polygon[i].y
  {
    assert (i + 1) % |polygon| == i + 1;
  }

  /** Edge i of the reversed polygon is edge n-2-i of the original traversed backwards. */
  lemma EdgeCrossReversed(polygon: seq<Vec2>, i: nat)
    requires i + 1 < |polygon|
    ensures EdgeCross(Reversed(polygon), i) == -EdgeCross(polygon, |polygon| - 2 - i)
  {
    var n := |polygon|;
    var r := Reversed(polygon);
    InnerEdgeCross(r, i);
    InnerEdgeCross(polygon, n - 2 - i);
    assert r[i] == polygon[n - 1 - i] && r[i + 1] == polygon[n - 2 - i];
  }

  /** Summing the reversed edges gives the original sum over the matching edges, negated. */
  lemma {:induction false} ReversedCrossSum(polygon: seq<Vec2>, k: nat)
    requires 0 < |polygon| && k < |polygon|
    ensures CrossSum(Reversed(polygon), k) ==
      -(CrossSum(polygon, |polygon| - 1) - CrossSum(polygon, |polygon| - 1 - k))
  {
    if k > 0 {
      var n := |polygon|;
      ReversedCrossSum(polygon, k - 1);
      EdgeCrossReversed(polygon, k - 1);
      assert CrossSum(polygon, n - k) == CrossSum(polygon, n - 1 - k) + EdgeCross(polygon, n - 1 - k);
    }
  }

  /** The closing edge joins the last vertex back to the first. */
  lemma ClosingEdgeCross(polygon: seq<Vec2>)
    requires polygon != []
    ensures var n := |polygon|;
      EdgeCross(polygon, n - 1) == polygon[n - 1].x * polygon[0].y - polygon[0].x * polygon[n - 1].y
  {
    assert (|polygon| - 1 + 1) % |polygon| == 0;
  }

  /** The closing edge of the reversed polygon is the original closing edge traversed backwards. */
  lemma ClosingEdgeReversed(polygon: seq<Vec2>)
    requires polygon != []
    ensures EdgeCross(Reversed(polygon), |polygon| - 1) == -EdgeCross(polygon, |polygon| - 1)
  {
    var n := |polygon|;
    var r := Reversed(polygon);
    ClosingEdgeCross(r);
    ClosingEdgeCross(polygon);
    assert r[n - 1] == polygon[0] && r[0] == polygon[n - 1];
  }

  /** Reversing a polygon negates its signed area. */
  lemma ReverseNegatesArea(polygon: seq<Vec2>)
    ensures SignedArea(Reversed(polygon)) == -SignedArea(polygon)
  {
    if polygon != [] {
      var n := |polygon|;
      ReversedCrossSum(polygon, n - 1);
      ClosingEdgeReversed(polygon);
    }
  }

  /** The starting order visits the polygon counter-clockwise: its signed area is never negative. */
  lemma StartOrderCounterClockwise(polygon: seq<Vec2>)
    ensures SignedArea(Pick(polygon, StartOrder(polygon))) >= 0.0
  {
    if SignedArea(polygon) < 0.0 {
      ReverseNegatesArea(polygon);
    } else {
      assert Pick(polygon, Range(|polygon|)) == polygon;
    }
  }

  /** One pass of the clipping loop: the remaining vertices, the new cursor and the triangle emitted. */
  datatype Pass = Pass(indices: seq<nat>, cursor: nat, emitted: seq<nat>)

  function ClipPass(isEar: (seq<nat>, nat, nat, nat) -> bool, indices: seq<nat>, i: nat): (p: Pass)
    requires 3 <= |indices| && i < |indices|
    ensures 2 <= |p.indices| && p.cursor < |p.indices|
  {
    var n := |indices|;
    var prev := indices[(i + n - 1) % n];
    var curr := indices[i % n];
    var next := indices[(i + 1) % n];
    if isEar(indices, prev, curr, next) then
      var rest := indices[..i % n] + indices[i % n + 1..];
      Pass(rest, i % |rest|, [prev, curr, next])
    else
      Pass(indices, (i + 1) % n, [])
  }

  /**
   * The clipping loop from the given remaining vertices, cursor, safety
   * counter and triangles so far.
   */
  function Clip(isEar: (seq<nat>, nat, nat, nat) -> bool, indices: seq<nat>, i: nat, counter: nat, result: seq<nat>): seq<nat>
    requires 2 <= |indices| && i < |indices|
    decreases counter
  {
    if |indices| <= 2 || counter == 0 then result
    else
      var p := ClipPass(isEar, indices, i);
      Clip(isEar, p.indices, p.cursor, counter - 1, result + p.emitted)
  }

  /** A pass either keeps the vertices, or removes one and emits a good triangle of three of them. */
  lemma PassGood(isEar: (seq<nat>, nat, nat, nat) -> bool, indices: seq<nat>, i: nat, result: seq<nat>, n: nat)
    requires 3 <= |indices| <= n && i < |indices|
    requires Distinct(indices) && forall k :: 0 <= k < |indices| ==> indices[k] < n
    requires |result| % 3 == 0 && forall t :: 0 <= t < |result| / 3 ==> GoodTriangle(result, t, n)
    ensures var p := ClipPass(isEar, indices, i);
      Distinct(p.indices) && (forall k :: 0 <= k < |p.indices| ==> p.indices[k] < n) &&
      |p.emitted| == 3 * (|indices| - |p.indices|) && |p.indices| >= |indices| - 1 &&
      forall t :: 0 <= t < |result + p.emitted| / 3 ==> GoodTriangle(result + p.emitted, t, n)
  {
    var m := |indices|;
    var pi := if i == 0 then m - 1 else i - 1;
    var ni := if i == m - 1 then 0 else i + 1;
    var ear := isEar(indices, indices[pi], indices[i], indices[ni]);
    var p := ClipPass(isEar, indices, i);
    assert p.indices == (if ear then indices[..i] + indices[i + 1..] else indices) &&
           p.emitted == (if ear then [indices[pi], indices[i], indices[ni]] else []) by {
      Neighbours(m, i);
    }
    if ear {
      EarGood(indices, i, pi, ni, result, n);
    } else {
      assert result + [] == result;
    }
  }

  /** Cutting vertex `i` keeps the rest distinct and its triangle with its neighbours is good. */
  lemma EarGood(indices: seq<nat>, i: nat, pi: nat, ni: nat, result: seq<nat>, n: nat)
    requires 3 <= |indices| <= n && i < |indices| && pi < |indices| && ni < |indices|
    requires pi != i && ni != i && pi != ni
    requires Distinct(indices) && forall k :: 0 <= k < |indices| ==> indices[k] < n
    requires |result| % 3 == 0 && forall t :: 0 <= t < |result| / 3 ==> GoodTriangle(result, t, n)
    ensures var rest := indices[..i] + indices[i + 1..];
      Distinct(rest) && (forall k :: 0 <= k < |rest| ==> rest[k] < n) && |rest| == |indices| - 1
    ensures var r := result + [indices[pi], indices[i], indices[ni]];
      |r| % 3 == 0 && forall t :: 0 <= t < |r| / 3 ==> GoodTriangle(r, t, n)
  {
    DistinctAt(indices, pi, i);
    DistinctAt(indices, i, ni);
    DistinctAt(indices, pi, ni);
    EmitTriangle(result, n, indices[pi], indices[i], indices[ni]);
    CutKeepsDistinct(indices, i, n);
  }

  lemma DistinctAt(s: seq<nat>, a: nat, b: nat)
    requires Distinct(s) && a < |s| && b < |s| && a != b
    ensures s[a] != s[b]
  {
    if a > b {
      assert s[b] != s[a];
    }
  }

  /** The triangle indices `triangulate` returns. */
  function Triangulation(polygon: seq<Vec2>, isEar: (seq<nat>, nat, nat, nat) -> bool): seq<nat>
  {
    if |polygon| < 3 then [] else Clip(isEar, StartOrder(polygon), 0, |polygon| * |polygon|, [])
  }

  /** The loop keeps its triangles good and emits one per removed vertex. */
  lemma {:induction false} ClipGood(isEar: (seq<nat>, nat, nat, nat) -> bool, indices: seq<nat>, i: nat, counter: nat,
                                    result: seq<nat>, n: nat)
    requires 2 <= |indices| <= n && i < |indices|
    requires Distinct(indices) && forall k :: 0 <= k < |indices| ==> indices[k] < n
    requires |result| == 3 * (n - |indices|)
    requires forall t :: 0 <= t < |result| / 3 ==> GoodTriangle(result, t, n)
    ensures var r := Clip(isEar, indices, i, counter, result);
      |r| % 3 == 0 && |r| / 3 <= n - 2 && forall t :: 0 <= t < |r| / 3 ==> GoodTriangle(r, t, n)
    decreases counter
  {
    if !(|indices| <= 2 || counter == 0) {
      PassGood(isEar, indices, i, result, n);
      var p := ClipPass(isEar, indices, i);
      ClipGood(isEar, p.indices, p.cursor, counter - 1, result + p.emitted, n);
    }
  }

  /**
   * Fewer than three points give no triangles; otherwise at most n - 2
   * triangles, each of three distinct vertices of the polygon.
   */
  lemma TriangulationGood(polygon: seq<Vec2>, isEar: (seq<nat>, nat, nat, nat) -> bool)
    ensures var r := Triangulation(polygon, isEar);
      (|polygon| < 3 ==> r == []) && |r| % 3 == 0 &&
      (|polygon| >= 3 ==> |r| / 3 <= |polygon| - 2) &&
      forall t :: 0 <= t < |r| / 3 ==> GoodTriangle(r, t, |polygon|)
  {
    if |polygon| >= 3 {
      ClipGood(isEar, StartOrder(polygon), 0, |polygon| * |polygon|, [], |polygon|);
    }
  }

  /**
   * `triangulate(polygon:)`. `isEar(indices, prev, curr, next)` is the
   * convexity and empty-triangle test on the remaining vertices.
   */
  method Triangulate(polygon: seq<Vec2>, isEar: (seq<nat>, nat, nat, nat) -> bool) returns (result: seq<nat>)
    ensures result == Triangulation(polygon, isEar)
  {
    if |polygon| < 3 {
      return [];
    }
    var indices := StartIndices(polygon);
    result := ClipLoop(isEar, indices, 0, |indices| * |indices|, []);
  }

  /** The clipping loop, run until two vertices remain or the safety counter runs out. */
  method ClipLoop(isEar: (seq<nat>, nat, nat, nat) -> bool, indices0: seq<nat>, i0: nat, counter: nat, result0: seq<nat>)
    returns (result: seq<nat>)
    requires 2 <= |indices0| && i0 < |indices0|
    ensures result == Clip(isEar, indices0, i0, counter, result0)
  {
    var indices := indices0;
    var i: nat := i0;
    var safetyCounter: nat := counter;
    result := result0;
    while |indices| > 2 && safetyCounter > 0
      invariant 2 <= |indices| && i < |indices|
      invariant Clip(isEar, indices, i, safetyCounter, result) == Clip(isEar, indices0, i0, counter, result0)
      decreases safetyCounter
    {
      ghost var p := ClipPass(isEar, indices, i);
      assert Clip(isEar, indices, i, safetyCounter, result) ==
             Clip(isEar, p.indices, p.cursor, safetyCounter - 1, result + p.emitted);
      safetyCounter := safetyCounter - 1;
      var emitted;
      indices, i, emitted := ClipOnce(isEar, indices, i);
      result := result + emitted;
    }
  }

  /** The body of the clipping loop: test the ear at the cursor and clip it if it is one. */
  method ClipOnce(isEar: (seq<nat>, nat, nat, nat) -> bool, indices0: seq<nat>, i0: nat)
    returns (indices: seq<nat>, i: nat, emitted: seq<nat>)
    requires 3 <= |indices0| && i0 < |indices0|
    ensures Pass(indices, i, emitted) == ClipPass(isEar, indices0, i0)
  {
    indices, i, emitted := indices0, i0, [];
    var n := |indices|;
    var prev := indices[(i + n - 1) % n];
    var curr := indices[i % n];
    var next := indices[(i + 1) % n];
    if isEar(indices, prev, curr, next) {
      emitted := [prev, curr, next];
      indices := indices[..i % n] + indices[i % n + 1..];
      if |indices| > 0 {
        i := i % |indices|;
      }
    } else {
      i := (i + 1) % n;
    }
  }

  /** The working copy of the vertex indices, reversed for a clockwise polygon. */
  method StartIndices(polygon: seq<Vec2>) returns (indices: seq<nat>)
    ensures indices == StartOrder(polygon)
  {
    indices := Range(|polygon|);
    if SignedArea(polygon) < 0.0 {
      indices := Reverse(indices);
    }
  }
}
