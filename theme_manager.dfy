/**
 * The three visual themes, their colour tables, the persisted selection and
 * the map-tile server each theme uses.
 */
module Themes {
  import opened Wrappers
  import opened Text
  import opened Geometry
  import opened Tiles

  datatype Theme = Day | Night | Retro

  /** `Theme.allCases`, in declaration order. */
  const AllCases: seq<Theme> := [Day, Night, Retro]

  function RawValue(t: Theme): string
  {
    match t
    case Day => "day"
    case Night => "night"
    case Retro => "retro"
  }

  /** `Theme(rawValue:)`. */
  function FromRaw(s: string): (r: Option<Theme>)
    ensures r.Some? ==> RawValue(r.value) == s
  {
    if s == "day" then Some(Day) else if s == "night" then Some(Night) else if s == "retro" then Some(Retro) else None
  }

  /** Every theme's raw value reads back as that theme. */
  lemma RawRoundTrip(t: Theme)
    ensures FromRaw(RawValue(t)) == Some(t)
  {
    assert "night" != "day" by { assert "night"[0] != "day"[0]; }
    assert "retro" != "day" && "retro" != "night" by { assert "retro"[0] != "day"[0] && "retro"[0] != "night"[0]; }
  }

  datatype Rgb = Rgb(r: real, g: real, b: real)

  datatype ThemeConfig = ThemeConfig(
    clearColor: Rgb, placeholderColor: Color, isWireframe: bool, aircraftTint: Color, trailTint: Color,
    labelTextColor: Color, labelBgColor: Color, airportLabelColor: Color, altLineColor: Color,
    airspaceClassBColor: Color, airspaceClassCColor: Color, airspaceClassDColor: Color)

  /** `ThemeManager.configs`; a match rather than a dictionary, so every theme has an entry. */
  function Config(t: Theme): (c: ThemeConfig)
    ensures c.isWireframe <==> t == Retro
    ensures t == Retro ==> c.aircraftTint == c.trailTint == c.labelTextColor == Color(0.0, 1.0, 0.0, 1.0)
  {
    match t
    case Day => ThemeConfig(
      Rgb(0.529, 0.808, 0.922), Color(0.831, 0.867, 0.831, 1.0), false, Color(1.0, 1.0, 1.0, 1.0), Color(1.0, 1.0, 1.0, 1.0),
      Color(1.0, 1.0, 1.0, 1.0), Color(0.0, 0.0, 0.0, 0.6), Color(0.0, 0.4, 0.8, 1.0), Color(0.5, 0.5, 0.5, 0.3),
      Color(0.27, 0.40, 1.0, 0.06), Color(0.60, 0.27, 1.0, 0.06), Color(0.27, 0.67, 1.0, 0.06))
    case Night => ThemeConfig(
      Rgb(0.039, 0.039, 0.102), Color(0.102, 0.165, 0.227, 1.0), false, Color(1.0, 1.0, 1.0, 1.0), Color(1.0, 1.0, 1.0, 1.0),
      Color(0.0, 1.0, 1.0, 1.0), Color(0.0, 0.0, 0.2, 0.7), Color(0.4, 0.733, 1.0, 1.0), Color(0.5, 0.5, 0.5, 0.3),
      Color(0.33, 0.47, 1.0, 0.08), Color(0.67, 0.33, 1.0, 0.08), Color(0.33, 0.73, 1.0, 0.08))
    case Retro => ThemeConfig(
      Rgb(0.0, 0.031, 0.0), Color(0.0, 0.067, 0.0, 1.0), true, Color(0.0, 1.0, 0.0, 1.0), Color(0.0, 1.0, 0.0, 1.0),
      Color(0.0, 1.0, 0.0, 1.0), Color(0.0, 0.1, 0.0, 0.6), Color(0.0, 1.0, 0.0, 1.0), Color(0.0, 1.0, 0.0, 0.3),
      Color(0.0, 1.0, 0.0, 0.03), Color(0.0, 1.0, 0.0, 0.03), Color(0.0, 1.0, 0.0, 0.03))
  }

  /** The theme after `t` in day → night → retro → day. */
  function Next(t: Theme): (n: Theme)
    ensures n != t
  {
    var idx := IndexOf(t);
    AllCases[(idx + 1) % |AllCases|]
  }

  function IndexOf(t: Theme): (i: nat)
    ensures i < |AllCases| && AllCases[i] == t
  {
    match t
    case Day => 0
    case Night => 1
    case Retro => 2
  }

  /** Three steps of the cycle return to the start, visiting every theme. */
  lemma CycleOfThree(t: Theme)
    ensures Next(Next(Next(t))) == t
    ensures {t, Next(t), Next(Next(t))} == {Day, Night, Retro}
  {
  }

  function Abs(x: int): nat { if x < 0 then -x else x }

  /** The tile server's host and style path for a theme, on one of the subdomains a, b, c. */
  function TileHost(theme: Theme, subdomain: string): string
  {
    match theme
    case Day => "https://" + subdomain + ".basemaps.cartocdn.com/light_all/"
    case Night => "https://" + subdomain + ".basemaps.cartocdn.com/dark_all/"
    case Retro => "https://" + subdomain + ".tile.openstreetmap.org/"
  }

  function TilePath(tile: TileCoordinate): string
  {
    IntToString(tile.zoom) + "/" + IntToString(tile.x) + "/" + IntToString(tile.y) + ".png"
  }

  /** The first n characters and the tail of a concatenation come from its parts. */
  lemma ConcatParts(a: string, b: string, n: nat)
    requires n < |a|
    ensures (a + b)[..n] == a[..n] && (a + b)[n] == a[n] && (a + b)[|a|..] == b
  {
  }

  /** `tileURL(for:theme:)`. */
  function TileURL(tile: TileCoordinate, theme: Theme): (url: string)
    ensures |url| > 8 && url[..8] == "https://" && url[8] == "abc"[Abs(tile.x) % 3]
    ensures |url| >= |TilePath(tile)| && url[|url| - |TilePath(tile)|..] == TilePath(tile)
  {
    var subdomains := ["a", "b", "c"];
    var subdomain := subdomains[Abs(tile.x) % 3];
    var host, path := TileHost(theme, subdomain), TilePath(tile);
    assert |host| > 8 && host[..8] == "https://" && host[8] == subdomain[0];
    ConcatParts(host, path, 8);
    host + path
  }

  /** The hosts differ at position 10 (basemaps or tile) and, for the two CARTO styles, at 32 (light or dark). */
  lemma HostsDiffer(sub: string)
    requires |sub| == 1
    ensures |TileHost(Day, sub)| > 32 && |TileHost(Night, sub)| > 32 && |TileHost(Retro, sub)| > 10
    ensures TileHost(Day, sub)[10] == 'b' && TileHost(Night, sub)[10] == 'b' && TileHost(Retro, sub)[10] == 't'
    ensures TileHost(Day, sub)[32] == 'l' && TileHost(Night, sub)[32] == 'd'
  {
  }

  /** The three themes fetch the same tile from three different places. */
  lemma ThemesUseDifferentServers(tile: TileCoordinate)
    ensures TileURL(tile, Day) != TileURL(tile, Night)
    ensures TileURL(tile, Day) != TileURL(tile, Retro)
    ensures TileURL(tile, Night) != TileURL(tile, Retro)
  {
    var sub := ["a", "b", "c"][Abs(tile.x) % 3];
    var path := TilePath(tile);
    HostsDiffer(sub);
    var day, night, retro := TileHost(Day, sub), TileHost(Night, sub), TileHost(Retro, sub);
    assert TileURL(tile, Day) == day + path && TileURL(tile, Night) == night + path && TileURL(tile, Retro) == retro + path;
    assert (day + path)[10] != (retro + path)[10] && (night + path)[10] != (retro + path)[10];
    assert (day + path)[32] != (night + path)[32];
  }

  /** Tiles spread over the subdomains by the remainder of |x| by 3. */
  lemma NeighboursUseNextSubdomain(tile: TileCoordinate, theme: Theme)
    requires tile.x >= 0
    ensures var next := TileCoordinate(tile.x + 1, tile.y, tile.zoom);
      TileURL(next, theme)[8] == "abc"[(Abs(tile.x) + 1) % 3]
  {
  }

  class ThemeManager {
    var current: Theme
    /** The value stored under "selectedTheme". */
    var saved: Option<string>
    /** Themes announced to the `.themeChanged` observers and the callback, oldest first. */
    var announced: seq<Theme>

    /** `init`: the saved theme when it names one, else day. */
    constructor (stored: Option<string>)
      ensures current == (if stored.Some? && FromRaw(stored.value).Some? then FromRaw(stored.value).value else Day)
      ensures saved == stored && announced == []
    {
      current := if stored.Some? && FromRaw(stored.value).Some? then FromRaw(stored.value).value else Day;
      saved := stored;
      announced := [];
    }

    /** Assigning `current`: only a different theme is saved and announced. */
    method SetCurrent(t: Theme)
      modifies this
      ensures current == t
      ensures t == old(current) ==> saved == old(saved) && announced == old(announced)
      ensures t != old(current) ==> saved == Some(RawValue(t)) && announced == old(announced) + [t]
    {
      var oldValue := current;
      current := t;
      if current == oldValue {
        return;
      }
      saved := Some(RawValue(current));
      announced := announced + [current];
    }

    /** `cycleTheme`. */
    method CycleTheme()
      modifies this
      ensures current == Next(old(current))
      ensures saved == Some(RawValue(current)) && announced == old(announced) + [current]
    {
      var idx := IndexOf(current);
      var nextIdx := (idx + 1) % |AllCases|;
      SetCurrent(AllCases[nextIdx]);
    }
  }
}
