/**
 * The map-tile texture cache: a hit refreshes the tile's place in the LRU
 * order, a miss starts one download, and a finished download is cached with
 * the oldest tiles evicted beyond 300.
 */
module MapTiles {
  import opened Wrappers
  import opened Text
  import opened Tiles
  import opened Themes
  import opened TileCache

  const MaxCacheSize: nat := 300

  /** A decoded tile texture, identified by the label the loader gives it. */
  datatype Texture = Texture(name: string)

  /**
   * How a tile download ended: the request threw, or a response arrived with
   * an HTTP status (absent when the response was not HTTP), a byte count and
   * whether the texture loader accepted the bytes.
   */
  datatype Download = Thrown | Received(status: Option<int>, byteCount: nat, loads: bool)

  /** The download yields a texture: an HTTP status other than 200, empty data and a loader failure all fail. */
  predicate Succeeded(d: Download)
  {
    d.Received? && (d.status.None? || d.status.value == 200) && d.byteCount > 0 && d.loads
  }

  function TileLabel(tile: TileCoordinate): string
  {
    "Tile " + IntToString(tile.zoom) + "/" + IntToString(tile.x) + "/" + IntToString(tile.y)
  }

  function Clamp(x: int, lo: int, hi: int): int
  {
    if x < lo then lo else if x > hi then hi else x
  }

  function ClampReal(x: real, lo: real, hi: real): real
  {
    if x < lo then lo else if x > hi then hi else x
  }

  /**
   * `zoomLevel(forCameraDistance:)`. `curve` stands for the rounded
   * `15 - log2(d)`, which the model does not compute.
   */
  function ZoomLevel(distance: real, curve: real -> int): (z: int)
    ensures 6 <= z <= 12
  {
    Clamp(curve(ClampReal(distance, 10.0, 1000.0)), 6, 12)
  }

  /** Distances outside [10, 1000] give the zoom of the nearer end. */
  lemma ZoomBeyondRange(distance: real, curve: real -> int)
    ensures distance >= 1000.0 ==> ZoomLevel(distance, curve) == ZoomLevel(1000.0, curve)
    ensures distance <= 10.0 ==> ZoomLevel(distance, curve) == ZoomLevel(10.0, curve)
  {
  }

  /** With a curve that falls as distance grows, a closer camera never gets a coarser zoom. */
  lemma CloserIsFiner(near: real, far: real, curve: real -> int)
    requires near <= far
    requires forall a: real, b: real :: a <= b ==> curve(b) <= curve(a)
    ensures ZoomLevel(far, curve) <= ZoomLevel(near, curve)
  {
    var n := ClampReal(near, 10.0, 1000.0);
    var f := ClampReal(far, 10.0, 1000.0);
    assert n <= f;
    assert curve(f) <= curve(n);
  }

  class MapTileManager {
    var cache: map<TileCoordinate, Texture>
    /** Oldest first; the most recently used tile is last. */
    var cacheOrder: seq<TileCoordinate>
    var pendingRequests: set<TileCoordinate>
    var currentTheme: Theme
    /** The URLs downloads were started for, in order. */
    var requested: seq<string>

    /** The cache invariant: order and cache agree, at most 300 tiles, and no cached tile is pending. */
    ghost predicate Valid()
      reads this
    {
      Lru(cache, cacheOrder) && |cacheOrder| <= MaxCacheSize && pendingRequests !! cache.Keys
    }

    constructor ()
      ensures Valid()
      ensures cache == map[] && cacheOrder == [] && pendingRequests == {} && currentTheme == Day && requested == []
    {
      cache := map[];
      cacheOrder := [];
      pendingRequests := {};
      currentTheme := Day;
      requested := [];
    }

    /** `texture(for:)`: the cached texture, or None while it loads. */
    method TextureFor(tile: TileCoordinate) returns (tex: Option<Texture>)
      modifies this
      ensures cache == old(cache) && currentTheme == old(currentTheme)
      ensures tile in cache ==>
        (tex == Some(cache[tile]) && cacheOrder == Touch(old(cacheOrder), tile)
         && pendingRequests == old(pendingRequests) && requested == old(requested))
      ensures tile !in cache && tile !in old(pendingRequests) ==>
        (tex.None? && cacheOrder == old(cacheOrder)
         && pendingRequests == old(pendingRequests) + {tile} && requested == old(requested) + [TileURL(tile, currentTheme)])
      ensures tile !in cache && tile in old(pendingRequests) ==>
        (tex.None? && cacheOrder == old(cacheOrder)
         && pendingRequests == old(pendingRequests) && requested == old(requested))
      ensures old(Valid()) ==> Valid()
    {
      tex := None;
      var shouldFetch := false;
      if tile in cache {
        TouchTile(tile);
        tex := Some(cache[tile]);
      } else if tile !in pendingRequests {
        pendingRequests := pendingRequests + {tile};
        shouldFetch := true;
      }
      if shouldFetch {
        FetchTile(tile);
      }
    }

    /** A cache hit moves the tile to the most recently used end of the order. */
    method TouchTile(tile: TileCoordinate)
      requires tile in cache
      modifies this`cacheOrder
      ensures cacheOrder == Touch(old(cacheOrder), tile)
      ensures old(Valid()) ==> Valid()
    {
      if tile in cacheOrder {
        var idx := FirstIndex(cacheOrder, tile);
        TouchMovesToBack(cacheOrder, tile);
        cacheOrder := cacheOrder[..idx] + cacheOrder[idx + 1..] + [tile];
      }
      if old(Valid()) {
        TouchKeepsLru(cache, old(cacheOrder), tile);
      }
    }

    /** Starting a download: only the request itself is recorded. */
    method FetchTile(tile: TileCoordinate)
      modifies this`requested
      ensures requested == old(requested) + [TileURL(tile, currentTheme)]
    {
      var url := TileURL(tile, currentTheme);
      requested := requested + [url];
    }

    /** A download for `tile` finished with `outcome`. */
    method CompleteFetch(tile: TileCoordinate, outcome: Download)
      modifies this`cache, this`cacheOrder, this`pendingRequests
      ensures pendingRequests == old(pendingRequests) - {tile}
      ensures !Succeeded(outcome) ==> cache == old(cache) && cacheOrder == old(cacheOrder)
      ensures Succeeded(outcome) ==>
        (cache, cacheOrder) == Store(old(cache), old(cacheOrder), tile, Texture(TileLabel(tile)), MaxCacheSize)
      ensures old(Valid()) && tile !in old(cache) ==> Valid()
      ensures old(Valid()) && Succeeded(outcome) && tile !in old(cache) ==> tile in cache && cacheOrder[|cacheOrder| - 1] == tile
    {
      if outcome.Thrown? {
        pendingRequests := pendingRequests - {tile};
        return;
      }
      if outcome.status.Some? && outcome.status.value != 200 {
        pendingRequests := pendingRequests - {tile};
        return;
      }
      if outcome.byteCount == 0 {
        pendingRequests := pendingRequests - {tile};
        return;
      }
      if !outcome.loads {
        pendingRequests := pendingRequests - {tile};
        return;
      }
      var texture := Texture(TileLabel(tile));
      pendingRequests := pendingRequests - {tile};
      cache := cache[tile := texture];
      cacheOrder := cacheOrder + [tile];
      cache, cacheOrder := EvictOldest(cache, cacheOrder, MaxCacheSize);
      if old(Valid()) && tile !in old(cache) {
        StoreKeepsLru(old(cache), old(cacheOrder), tile, texture, MaxCacheSize);
        EvictKeepsNewest(old(cache)[tile := texture], old(cacheOrder) + [tile], MaxCacheSize);
      }
    }

    /** `clearCache`: drops every texture, the order and the pending set. */
    method ClearCache()
      modifies this`cache, this`cacheOrder, this`pendingRequests
      ensures cache == map[] && cacheOrder == [] && pendingRequests == {}
      ensures Valid()
    {
      cache := map[];
      cacheOrder := [];
      pendingRequests := {};
    }

    /** `switchTheme`: later downloads use the new theme's server, and nothing cached survives. */
    method SwitchTheme(theme: Theme)
      modifies this`cache, this`cacheOrder, this`pendingRequests, this`currentTheme
      ensures currentTheme == theme
      ensures cache == map[] && cacheOrder == [] && pendingRequests == {}
      ensures Valid()
    {
      currentTheme := theme;
      ClearCache();
    }
  }
}
