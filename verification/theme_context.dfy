/**
 * Light/dark appearance: which palette is shown, given the chosen theme and the
 * system's colour scheme, and how the chosen theme changes.
 */
module Theme {
  import opened Wrappers

  /**
   * The chosen theme is kept as the raw string: a saved preference is adopted without
   * checking that it is one of the three theme names.
   */
  const LIGHT: string := "light"
  const DARK: string := "dark"
  const SYSTEM: string := "system"

  predicate IsThemeType(t: string) {
    t == LIGHT || t == DARK || t == SYSTEM
  }

  /** What the platform reports as its colour scheme; `Unknown` stands for null. */
  datatype ColorScheme = SchemeLight | SchemeDark | SchemeUnknown

  datatype Palette = Palette(
    background: string,
    card: string,
    text: string,
    secondaryText: string,
    border: string,
    primary: string,
    secondary: string,
    success: string,
    danger: string,
    warning: string,
    checkbox: string,
    tabBar: string,
    tabBarBorder: string)

  const LightTheme := Palette("#FFFFFF", "#F9FAFB", "#000000", "#666666", "#E5E7EB", "#6366f1",
                              "#4F46E5", "#10b981", "#ef4444", "#f59e0b", "#FFFFFF", "#FFFFFF", "#F0F0F0")

  const DarkTheme := Palette("#121212", "#1E1E1E", "#FFFFFF", "#A3A3A3", "#2C2C2C", "#818CF8",
                             "#6366F1", "#34D399", "#F87171", "#FBBF24", "#2C2C2C", "#1E1E1E", "#2C2C2C")

  /** What the context hands to every consumer. */
  datatype ContextValue = ContextValue(theme: string, colors: Palette, isDark: bool)

  function IsDarkFor(theme: string, scheme: ColorScheme): (r: bool)
    ensures theme != SYSTEM ==> (r <==> theme == DARK)
    ensures theme == SYSTEM ==> (r <==> scheme == SchemeDark)
  {
    theme == DARK || (theme == SYSTEM && scheme == SchemeDark)
  }

  function ColorsFor(isDark: bool): (r: Palette)
    ensures r == DarkTheme <==> isDark
    ensures r == LightTheme <==> !isDark
  {
    if isDark then DarkTheme else LightTheme
  }

  function ContextFor(theme: string, scheme: ColorScheme): (r: ContextValue)
    ensures r.theme == theme
    ensures r.isDark <==> theme == DARK || (theme == SYSTEM && scheme == SchemeDark)
    ensures r.colors == DarkTheme <==> r.isDark
  {
    var dark := IsDarkFor(theme, scheme);
    ContextValue(theme, ColorsFor(dark), dark)
  }

  /** The value consumers see when no provider is mounted. */
  const DEFAULT_CONTEXT := ContextValue(LIGHT, LightTheme, false)

  /** Dark mode depends on the system scheme only under the `system` theme, and then follows it. */
  lemma DarknessFollowsSchemeOnlyUnderSystem(theme: string, s1: ColorScheme, s2: ColorScheme)
    ensures theme != SYSTEM ==> IsDarkFor(theme, s1) == IsDarkFor(theme, s2)
    ensures IsDarkFor(SYSTEM, s1) <==> s1 == SchemeDark
    ensures IsDarkFor(theme, s1) ==> theme == DARK || theme == SYSTEM
    ensures IsDarkFor(DARK, s1) && !IsDarkFor(LIGHT, s1)
  {
  }

  /** The palette shown tells the modes apart: no colour of one palette is the same entry of the other. */
  lemma PaletteMatchesMode(a: bool, b: bool)
    ensures ColorsFor(a) == ColorsFor(b) <==> a == b
    ensures a != b ==>
      && ColorsFor(a).background != ColorsFor(b).background && ColorsFor(a).text != ColorsFor(b).text
      && ColorsFor(a).primary != ColorsFor(b).primary && ColorsFor(a).danger != ColorsFor(b).danger
  {
  }

  /** The context a provider-less consumer sees is what a provider would give for `light`. */
  lemma DefaultContextIsLight(scheme: ColorScheme)
    ensures DEFAULT_CONTEXT == ContextFor(LIGHT, scheme)
    ensures !DEFAULT_CONTEXT.isDark && DEFAULT_CONTEXT.colors == LightTheme
  {
  }

  /** `theme === 'light' ? 'dark' : 'light'`, as written in the provider. */
  function ToggleTarget(theme: string): (r: string)
    ensures IsThemeType(r) && r != SYSTEM
    ensures r == DARK <==> theme == LIGHT
  {
    if theme == LIGHT then DARK else LIGHT
  }

  /** Between the two explicit themes, toggling twice gets back to the start. */
  lemma ToggleTwiceRestores(theme: string)
    requires theme == LIGHT || theme == DARK
    ensures ToggleTarget(ToggleTarget(theme)) == theme
  {
  }

  /** From an explicit theme, toggling flips dark mode whatever the system scheme. */
  lemma ToggleFlipsExplicitTheme(theme: string, scheme: ColorScheme)
    requires theme == LIGHT || theme == DARK
    ensures IsDarkFor(ToggleTarget(theme), scheme) == !IsDarkFor(theme, scheme)
  {
  }

  /**
   * Under `system` with a light (or unreported) system scheme, the written toggle picks
   * `light`: dark mode stays off, so the switch bound to `isDark` springs back.
   */
  lemma ToggleFromLightSystemKeepsLight(scheme: ColorScheme)
    requires scheme != SchemeDark
    ensures !IsDarkFor(SYSTEM, scheme)
    ensures !IsDarkFor(ToggleTarget(SYSTEM), scheme)
  {
  }

  /** Toggle to the opposite of what is shown. */
  function CorrectedToggleTarget(theme: string, scheme: ColorScheme): (r: string)
    ensures IsThemeType(r) && r != SYSTEM
    ensures IsDarkFor(r, scheme) == !IsDarkFor(theme, scheme)
  {
    if IsDarkFor(theme, scheme) then LIGHT else DARK
  }

  /** The correction only differs from the written rule when the theme is not explicit. */
  lemma CorrectedToggleAgreesOnExplicitThemes(theme: string, scheme: ColorScheme)
    requires theme == LIGHT || theme == DARK
    ensures CorrectedToggleTarget(theme, scheme) == ToggleTarget(theme)
  {
  }

  /** The provider's state: the chosen theme. Storage reads and writes are passed in as outcomes. */
  class ThemeProvider {
    var theme: string

    constructor ()
      ensures theme == SYSTEM
    {
      theme := SYSTEM;
    }

    /** The context value rendered under the given system scheme. */
    function Value(scheme: ColorScheme): (r: ContextValue)
      reads this
      ensures r.theme == theme
      ensures r.isDark <==> theme == DARK || (theme == SYSTEM && scheme == SchemeDark)
      ensures r.colors == (if r.isDark then DarkTheme else LightTheme)
    {
      ContextFor(theme, scheme)
    }

    /**
     * Adopts a saved preference: a non-empty string replaces the theme unchecked; nothing
     * saved (or a failed read, `None`) keeps the current theme.
     */
    method LoadTheme(saved: Option<string>)
      modifies this
      ensures saved.Some? && saved.value != "" ==> theme == saved.value
      ensures saved.None? || saved.value == "" ==> theme == old(theme)
    {
      if saved.Some? && saved.value != "" {
        theme := saved.value;
      }
    }

    /** Saves `newTheme`; the theme changes only if the write succeeded. */
    method SetTheme(newTheme: string, writeSucceeded: bool)
      requires IsThemeType(newTheme)
      modifies this
      ensures theme == if writeSucceeded then newTheme else old(theme)
    {
      if writeSucceeded {
        theme := newTheme;
      }
    }

    /** `toggleTheme` as written: saves `dark` from `light` and `light` from anything else. */
    method ToggleTheme(writeSucceeded: bool)
      modifies this
      ensures theme == if writeSucceeded then ToggleTarget(old(theme)) else old(theme)
      ensures theme != SYSTEM || old(theme) == SYSTEM
    {
      SetTheme(ToggleTarget(theme), writeSucceeded);
    }

    /** The corrected toggle: inverts dark mode as shown under `scheme`, through `SetTheme`. */
    method CorrectedToggleTheme(scheme: ColorScheme, writeSucceeded: bool)
      modifies this
      ensures writeSucceeded ==> Value(scheme).isDark == !old(Value(scheme)).isDark
      ensures theme == if writeSucceeded then CorrectedToggleTarget(old(theme), scheme) else old(theme)
    {
      SetTheme(CorrectedToggleTarget(theme, scheme), writeSucceeded);
    }
  }
}
