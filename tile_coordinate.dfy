/**
 * Slippy-map tile numbering: wrapping and clamping a raw tile position, and
 * the square of tiles around a centre.
 */
module Tiles {

  datatype TileCoordinate = TileCoordinate(x: int, y: int, zoom: int)

  /** 2^zoom, the number of tiles along each axis. */
  function Pow2(zoom: nat): (n: nat)
    ensures n >= 1
  {
    if zoom == 0 then 1 else 2 * Pow2(zoom - 1)
  }

  /** Swift's `%`: the remainder takes the sign of the dividend. */
  function Rem(a: int, n: int): (r: int)
    requires n > 0
    ensures -n < r < n
    ensures a >= 0 ==> r == a % n
  {
    if a >= 0 then a % n else -((-a) % n)
  }

  /** Euclidean division is unique: a quotient and remainder in [0, n) are `/` and `%`. */
  lemma DivModUnique(a: int, n: int, q: int, r: int)
    requires n > 0 && a == n * q + r && 0 <= r < n
    ensures a % n == r && a / n == q
  {
    var q0 := a / n;
    var r0 := a % n;
    assert a == n * q0 + r0;
    MulSub(n, q, q0);
    if q > q0 {
      MulMono(n, 1, q - q0);
      assert false;
    } else if q < q0 {
      MulSub(n, q0, q);
      MulMono(n, 1, q0 - q);
      assert false;
    }
  }

  lemma MulSub(n: int, a: int, b: int)
    ensures n * (a - b) == n * a - n * b
  {
  }

  /** Swift's remainder plus n, taken mod n, is the mathematical remainder. */
  lemma RemNegative(a: int, n: int)
    requires n > 0
    ensures (Rem(a, n) + n) % n == a % n
    ensures a < 0 && Rem(a, n) < 0 ==> Rem(a, n) + n == a % n
    ensures a < 0 && Rem(a, n) == 0 ==> a % n == 0
  {
    if a >= 0 {
      DivModUnique(a % n + n, n, 1, a % n);
    } else {
      var q := (-a) / n;
      var m := (-a) % n;
      assert -a == n * q + m;
      if m == 0 {
        DivModUnique(a, n, -q, 0);
        DivModUnique(n, n, 1, 0);
      } else {
        DivModUnique(a, n, -q - 1, n - m);
        DivModUnique(n - m, n, 0, n - m);
      }
    }
  }

  /** The x wrap of `visibleTiles`: ((t % n) + n) % n, always the mathematical t mod n. */
  function Wrap(t: int, n: int): (r: int)
    requires n > 0
    ensures 0 <= r < n && r == t % n
  {
    RemNegative(t, n);
    Rem(Rem(t, n) + n, n)
  }

  /**
   * `tileFor` after its trigonometry: `rawX` and `rawY` are the floored tile
   * positions. x wraps into [0, n), y is clamped into [0, n - 1].
   */
  function TileFor(rawX: int, rawY: int, zoom: nat): (t: TileCoordinate)
    ensures var n := Pow2(zoom);
      t.zoom == zoom && 0 <= t.x < n && 0 <= t.y <= n - 1 && t.x == rawX % n
    ensures 0 <= rawY <= Pow2(zoom) - 1 ==> t.y == rawY
    ensures rawY < 0 ==> t.y == 0
    ensures rawY > Pow2(zoom) - 1 ==> t.y == Pow2(zoom) - 1
  {
    var n := Pow2(zoom);
    var maxTile := n - 1;
    var x := Rem(rawX, n);
    RemNegative(rawX, n);
    assert x >= 0 ==> x == rawX % n;
    var x' := if x < 0 then x + n else x;
    var y := if rawY < maxTile then rawY else maxTile;
    TileCoordinate(x', if 0 > y then 0 else y, zoom)
  }

  /** The tiles of row `ty`, dx running from -radius to radius. */
  function Row(cx: int, ty: int, zoom: nat, radius: nat): (r: seq<TileCoordinate>)
    ensures |r| == 2 * radius + 1
  {
    seq(2 * radius + 1, j requires 0 <= j < 2 * radius + 1 => TileCoordinate(Wrap(cx + j - radius, Pow2(zoom)), ty, zoom))
  }

  predicate RowInRange(ty: int, zoom: nat)
  {
    0 <= ty <= Pow2(zoom) - 1
  }

  /** Row m of the square (dy = m - radius) lies on the map. */
  predicate RowOnMap(center: TileCoordinate, zoom: nat, radius: nat, m: nat)
  {
    RowInRange(center.y + m - radius, zoom)
  }

  /** The rows dy = -radius .. -radius + rows - 1 around `center`, skipping rows off the map. */
  function Rows(center: TileCoordinate, zoom: nat, radius: nat, rows: nat): seq<TileCoordinate>
  {
    if rows == 0 then []
    else
      Rows(center, zoom, radius, rows - 1) +
        (if RowOnMap(center, zoom, radius, rows - 1) then Row(center.x, center.y + rows - 1 - radius, zoom, radius) else [])
  }

  /** How many of those rows lie on the map. */
  function RowsInRange(center: TileCoordinate, zoom: nat, radius: nat, rows: nat): (c: nat)
    ensures c <= rows
  {
    if rows == 0 then 0
    else RowsInRange(center, zoom, radius, rows - 1) + (if RowOnMap(center, zoom, radius, rows - 1) then 1 else 0)
  }

  /** `visibleTiles`: the (2r+1)-wide square around the tile under the centre. */
  function VisibleTiles(rawX: int, rawY: int, zoom: nat, radius: nat): seq<TileCoordinate>
  {
    Rows(TileFor(rawX, rawY, zoom), zoom, radius, 2 * radius + 1)
  }

  lemma MulSucc(w: int, c: int)
    ensures w * (c + 1) == w * c + w
  {
  }

  lemma MulMono(w: nat, a: nat, b: nat)
    requires a <= b
    ensures w * a <= w * b
  {
  }

  /** The listed count is (2r+1) per row on the map. */
  lemma {:induction false} RowsCount(center: TileCoordinate, zoom: nat, radius: nat, rows: nat)
    ensures |Rows(center, zoom, radius, rows)| == (2 * radius + 1) * RowsInRange(center, zoom, radius, rows)
  {
    if rows > 0 {
      RowsCount(center, zoom, radius, rows - 1);
      MulSucc(2 * radius + 1, RowsInRange(center, zoom, radius, rows - 1));
    }
  }

  /** A tile that exists at the given zoom. */
  predicate OnMap(t: TileCoordinate, zoom: nat)
  {
    t.zoom == zoom && 0 <= t.x < Pow2(zoom) && 0 <= t.y <= Pow2(zoom) - 1
  }

  /** Every listed tile is on the map, at the requested zoom. */
  lemma {:induction false} RowsOnMap(center: TileCoordinate, zoom: nat, radius: nat, rows: nat)
    ensures forall k :: 0 <= k < |Rows(center, zoom, radius, rows)| ==> OnMap(Rows(center, zoom, radius, rows)[k], zoom)
  {
    if rows > 0 {
      RowsOnMap(center, zoom, radius, rows - 1);
      var prev := Rows(center, zoom, radius, rows - 1);
      var r := Rows(center, zoom, radius, rows);
      if RowOnMap(center, zoom, radius, rows - 1) {
        var last := Row(center.x, center.y + rows - 1 - radius, zoom, radius);
        assert r == prev + last;
        forall k | 0 <= k < |r|
          ensures OnMap(r[k], zoom)
        {
          if k < |prev| {
            assert r[k] == prev[k];
            assert OnMap(prev[k], zoom);
          } else {
            var j := k - |prev|;
            assert r[k] == last[j];
            assert last[j].x == Wrap(center.x + j - radius, Pow2(zoom));
            assert last[j].y == center.y + rows - 1 - radius;
            assert last[j].zoom == zoom;
            assert OnMap(last[j], zoom);
          }
        }
      } else {
        assert r == prev;
      }
    }
  }

  /** `visibleTiles` lists at most (2r+1)^2 tiles, all on the map at the requested zoom. */
  lemma VisibleTilesBounds(rawX: int, rawY: int, zoom: nat, radius: nat)
    ensures |VisibleTiles(rawX, rawY, zoom, radius)| <= (2 * radius + 1) * (2 * radius + 1)
    ensures forall k :: 0 <= k < |VisibleTiles(rawX, rawY, zoom, radius)| ==> OnMap(VisibleTiles(rawX, rawY, zoom, radius)[k], zoom)
  {
    var center := TileFor(rawX, rawY, zoom);
    RowsCount(center, zoom, radius, 2 * radius + 1);
    RowsOnMap(center, zoom, radius, 2 * radius + 1);
    MulMono(2 * radius + 1, RowsInRange(center, zoom, radius, 2 * radius + 1), 2 * radius + 1);
  }

  /**
   * When every row is on the map, tile (dx, dy) sits at position
   * (dy + r)(2r + 1) + (dx + r): rows by ascending dy, each by ascending dx.
   */
  lemma TileAtRowMajor(center: TileCoordinate, zoom: nat, radius: nat, rows: nat, row: nat, col: nat)
    requires forall m: nat :: m < rows ==> RowOnMap(center, zoom, radius, m)
    requires row < rows && col < 2 * radius + 1
    ensures |Rows(center, zoom, radius, rows)| == rows * (2 * radius + 1)
    ensures row * (2 * radius + 1) + col < rows * (2 * radius + 1)
    ensures Rows(center, zoom, radius, rows)[row * (2 * radius + 1) + col] ==
      TileCoordinate(Wrap(center.x + col - radius, Pow2(zoom)), center.y + row - radius, zoom)
  {
    AllRowsCount(center, zoom, radius, rows);
    AllRowsCount(center, zoom, radius, row);
    RowMajorIndex(row, col, 2 * radius + 1, rows);
    RowMajor(center, zoom, radius, rows, row, col);
  }

  /** Row `row`'s tiles follow the tiles of the rows before it. */
  lemma {:induction false} RowMajor(center: TileCoordinate, zoom: nat, radius: nat, rows: nat, row: nat, col: nat)
    requires forall m: nat :: m < rows ==> RowOnMap(center, zoom, radius, m)
    requires row < rows && col < 2 * radius + 1
    ensures |Rows(center, zoom, radius, row)| + col < |Rows(center, zoom, radius, rows)|
    ensures Rows(center, zoom, radius, rows)[|Rows(center, zoom, radius, row)| + col] ==
      Row(center.x, center.y + row - radius, zoom, radius)[col]
  {
    var prev := Rows(center, zoom, radius, rows - 1);
    var last := Row(center.x, center.y + rows - 1 - radius, zoom, radius);
    assert Rows(center, zoom, radius, rows) == prev + last by {
      assert RowOnMap(center, zoom, radius, rows - 1);
    }
    var at := |Rows(center, zoom, radius, row)| + col;
    if row < rows - 1 {
      RowMajor(center, zoom, radius, rows - 1, row, col);
      assert (prev + last)[at] == prev[at];
    } else {
      assert (prev + last)[at] == last[col];
    }
  }

  /** Position `row * w + col` lies inside `rows` rows of width `w`, and in the last row exactly when `row` is the last. */
  lemma RowMajorIndex(row: nat, col: nat, w: nat, rows: nat)
    requires row < rows && col < w
    ensures row * w + col < rows * w
    ensures row < rows - 1 ==> row * w + col < (rows - 1) * w
    ensures row == rows - 1 ==> row * w + col == (rows - 1) * w + col
  {
    MulSucc(w, row);
    MulMono(w, row + 1, rows);
    if row < rows - 1 {
      MulMono(w, row + 1, rows - 1);
    }
  }

  lemma {:induction false} AllRowsCount(center: TileCoordinate, zoom: nat, radius: nat, rows: nat)
    requires forall m: nat :: m < rows ==> RowOnMap(center, zoom, radius, m)
    ensures |Rows(center, zoom, radius, rows)| == rows * (2 * radius + 1)
  {
    if rows > 0 {
      AllRowsCount(center, zoom, radius, rows - 1);
      assert RowOnMap(center, zoom, radius, rows - 1);
      MulSucc(2 * radius + 1, rows - 1);
    }
  }

  /** The nested loops of `visibleTiles`. */
  method ListVisibleTiles(rawX: int, rawY: int, zoom: nat, radius: nat) returns (tiles: seq<TileCoordinate>)
    ensures tiles == VisibleTiles(rawX, rawY, zoom, radius)
  {
    var center := TileFor(rawX, rawY, zoom);
    var n := Pow2(zoom);
    var maxTile := n - 1;
    tiles := [];
    var dy := -(radius as int);
    while dy <= radius
      invariant -(radius as int) <= dy <= radius + 1
      invariant tiles == Rows(center, zoom, radius, dy + radius)
    {
      var ty := center.y + dy;
      if ty >= 0 && ty <= maxTile {
        ghost var before := tiles;
        var dx := -(radius as int);
        while dx <= radius
          invariant -(radius as int) <= dx <= radius + 1
          invariant tiles == before + Row(center.x, ty, zoom, radius)[..dx + radius]
        {
          var tx := center.x + dx;
          tx := Rem(Rem(tx, n) + n, n);
          assert tx == Wrap(center.x + (dx + radius) - radius, n);
          assert Row(center.x, ty, zoom, radius)[..dx + radius + 1] ==
            Row(center.x, ty, zoom, radius)[..dx + radius] + [TileCoordinate(tx, ty, zoom)];
          tiles := tiles + [TileCoordinate(tx, ty, zoom)];
          dx := dx + 1;
        }
        assert Row(center.x, ty, zoom, radius)[..dx + radius] == Row(center.x, ty, zoom, radius);
      }
      dy := dy + 1;
    }
  }
}
