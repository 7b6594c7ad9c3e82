/**
 * ThemeService: the current theme, its colours and the stored custom
 * palette, with the ThemeChanged notifications it raises. Palettes are
 * opaque values compared by value.
 */
module Theming {
  import opened Wrappers

  /** ThemeType. A C# enum can hold a value with no name: `Undefined`. */
  datatype ThemeType = Light | Dark | Blue | Green | Purple | Custom | Undefined(value: int)

  /** A colour palette: the five built-in ones, or one a caller built. */
  datatype ColorPalette = LightPalette | DarkPalette | BluePalette | GreenPalette | PurplePalette | UserPalette(id: nat)

  /** The arguments of one raised ThemeChanged event. */
  datatype ThemeChangedEvent = ThemeChanged(theme: ThemeType, colors: ColorPalette)

  /** The palette each built-in theme always uses. */
  function BuiltInPalette(t: ThemeType): (p: ColorPalette)
    requires !t.Custom? && !t.Undefined?
    ensures !p.UserPalette?
    ensures t != Light ==> p != LightPalette
  {
    match t
    case Light => LightPalette
    case Dark => DarkPalette
    case Blue => BluePalette
    case Green => GreenPalette
    case Purple => PurplePalette
  }

  /** Distinct built-in themes have distinct palettes. */
  lemma BuiltInPalettesDistinct(t: ThemeType, u: ThemeType)
    requires !t.Custom? && !t.Undefined? && !u.Custom? && !u.Undefined?
    ensures BuiltInPalette(t) == BuiltInPalette(u) <==> t == u
  {
  }

  class ThemeService {
    var currentTheme: ThemeType
    var currentColors: ColorPalette
    var customColors: Option<ColorPalette>
    /** Every ThemeChanged event raised so far. */
    ghost var themeChanged: seq<ThemeChangedEvent>

    /** The colours shown are always the palette of the current theme. */
    ghost predicate Valid()
      reads this
    {
      currentColors == GetThemeColors(currentTheme)
    }

    /** A new service shows the Light theme with its palette and has raised nothing. */
    constructor ()
      ensures Valid()
      ensures currentTheme == Light && currentColors == LightPalette
      ensures customColors == None && themeChanged == []
    {
      currentTheme := Light;
      customColors := None;
      currentColors := LightPalette;
      themeChanged := [];
    }

    /**
     * `GetThemeColors`: total, reads the state and changes nothing. A built-in
     * theme has its own palette; Custom has the stored palette, or Light when
     * none was stored; a value with no name falls back to Light.
     */
    function GetThemeColors(t: ThemeType): (p: ColorPalette)
      reads this
      ensures !t.Custom? && !t.Undefined? ==> p == BuiltInPalette(t)
      ensures t.Custom? ==> p == customColors.GetOr(LightPalette)
      ensures t.Undefined? ==> p == LightPalette
    {
      match t
      case Light => LightPalette
      case Dark => DarkPalette
      case Blue => BluePalette
      case Green => GreenPalette
      case Purple => PurplePalette
      case Custom => customColors.GetOr(LightPalette)
      case Undefined(_) => LightPalette
    }

    /** `SetTheme`: nothing happens for the current theme; otherwise switch and raise one event with the new state. */
    method SetTheme(t: ThemeType)
      requires Valid()
      modifies this
      ensures Valid()
      ensures t == old(currentTheme) ==> unchanged(this)
      ensures t != old(currentTheme) ==>
        && currentTheme == t
        && currentColors == GetThemeColors(t)
        && customColors == old(customColors)
        && themeChanged == old(themeChanged) + [ThemeChanged(t, currentColors)]
    {
      if currentTheme == t {
        return;
      }
      currentTheme := t;
      currentColors := GetThemeColors(t);
      OnThemeChanged();
    }

    /** `SetCustomTheme`: always stores the palette, switches to Custom and raises an event. */
    method SetCustomTheme(p: ColorPalette)
      requires Valid()
      modifies this
      ensures Valid()
      ensures customColors == Some(p) && currentTheme == Custom && currentColors == p
      ensures GetThemeColors(Custom) == p
      ensures themeChanged == old(themeChanged) + [ThemeChanged(Custom, p)]
    {
      customColors := Some(p);
      currentTheme := Custom;
      currentColors := p;
      OnThemeChanged();
    }

    /** `OnThemeChanged`: raises the current theme and colours. */
    method OnThemeChanged()
      modifies this`themeChanged
      ensures themeChanged == old(themeChanged) + [ThemeChanged(currentTheme, currentColors)]
    {
      themeChanged := themeChanged + [ThemeChanged(currentTheme, currentColors)];
    }
  }
}
