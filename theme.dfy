/** The theme provider: the chosen theme ('light', 'dark' or 'system'), its
    resolution against the operating system's preference, and its
    persistence in `localStorage` under `theme`. */
module Theme {
  import opened Common
  import opened WebStorage

  const THEME_KEY := "theme"

  datatype Theme = Light | Dark | System
  datatype Resolved = ResolvedLight | ResolvedDark

  function ThemeName(t: Theme): string {
    match t
    case Light => "light"
    case Dark => "dark"
    case System => "system"
  }

  function ResolvedName(r: Resolved): string {
    match r
    case ResolvedLight => "light"
    case ResolvedDark => "dark"
  }

  /** The whitelist check of the mount effect: a stored value is adopted
      only when it is one of the three theme names. */
  function ParseStored(stored: Option<string>): (t: Option<Theme>)
    ensures t.Some? <==> stored.Some? && stored.value in {"light", "dark", "system"}
    ensures t.Some? ==> ThemeName(t.value) == stored.value
  {
    if stored == Some("light") then Some(Light)
    else if stored == Some("dark") then Some(Dark)
    else if stored == Some("system") then Some(System)
    else None
  }

  /** What `setTheme` stores is read back by the next mount. */
  lemma StoredThemeReadsBack(t: Theme)
    ensures ParseStored(Some(ThemeName(t))) == Some(t)
  {
  }

  /** `updateResolvedTheme`: 'system' follows the media query, the other two
      themes are themselves. */
  function Resolve(t: Theme, systemDark: bool): (r: Resolved)
    ensures r == ResolvedDark <==> t == Dark || (t == System && systemDark)
    ensures t != System ==> ResolvedName(r) == ThemeName(t)
  {
    match t
    case System => if systemDark then ResolvedDark else ResolvedLight
    case Light => ResolvedLight
    case Dark => ResolvedDark
  }

  /** What `useTheme` returns; `live` is false for the no-op setter. */
  datatype ThemeView = ThemeView(theme: Theme, resolved: Resolved, live: bool)

  const DEFAULT_VIEW := ThemeView(System, ResolvedLight, false)

  /** `useTheme`: the provider's value, or the defaults when there is none. */
  function UseTheme(context: Option<ThemeView>): (v: ThemeView)
    ensures context.None? ==> v == DEFAULT_VIEW
    ensures context.Some? ==> v == context.value
  {
    context.GetOr(DEFAULT_VIEW)
  }

  class ThemeProvider {
    var theme: Theme
    var resolved: Resolved
    var mounted: bool
    /** The `data-theme` attribute of the document element, once set. */
    var dataTheme: Option<string>
    const store: Storage

    constructor (store: Storage)
      ensures this.store == store
      ensures theme == System && resolved == ResolvedLight && !mounted
      ensures dataTheme.None?
    {
      this.store := store;
      theme := System;
      resolved := ResolvedLight;
      mounted := false;
      dataTheme := None;
    }

    /** The context value the provider renders: none before it mounts. */
    function Context(): (c: Option<ThemeView>)
      reads this
      ensures !mounted ==> UseTheme(c) == DEFAULT_VIEW
      ensures mounted ==> UseTheme(c) == ThemeView(theme, resolved, true)
    {
      if mounted then Some(ThemeView(theme, resolved, true)) else None
    }

    /** The mount effect: adopt a whitelisted stored theme. */
    method Mount()
      modifies this
      ensures mounted
      ensures theme == ParseStored(store.GetItem(THEME_KEY)).GetOr(old(theme))
      ensures resolved == old(resolved) && dataTheme == old(dataTheme)
    {
      mounted := true;
      var stored := store.GetItem(THEME_KEY);
      if stored.Some? && stored.value in ["light", "dark", "system"] {
        theme := ParseStored(stored).value;
      }
    }

    /** The resolution effect, also run on every change of the media query;
        it does nothing before mount. */
    method UpdateResolvedTheme(systemDark: bool)
      modifies this
      ensures theme == old(theme) && mounted == old(mounted)
      ensures !mounted ==> resolved == old(resolved) && dataTheme == old(dataTheme)
      ensures mounted ==>
        resolved == Resolve(theme, systemDark) && dataTheme == Some(ResolvedName(resolved))
    {
      if !mounted {
        return;
      }
      resolved := Resolve(theme, systemDark);
      dataTheme := Some(ResolvedName(resolved));
    }

    /** `setTheme`: sets the theme and stores exactly its name. */
    method SetTheme(t: Theme)
      modifies this, store
      ensures theme == t
      ensures store.items == old(store.items)[THEME_KEY := ThemeName(t)]
      ensures resolved == old(resolved) && mounted == old(mounted) && dataTheme == old(dataTheme)
    {
      theme := t;
      store.SetItem(THEME_KEY, ThemeName(t));
    }
  }

  /** A theme set in one page load is the theme of the next one. */
  method SetThenRemount(p: ThemeProvider, t: Theme) returns (next: ThemeProvider)
    modifies p, p.store
    ensures next.theme == t && next.mounted && next.store == p.store
  {
    p.SetTheme(t);
    next := new ThemeProvider(p.store);
    next.Mount();
  }
}
