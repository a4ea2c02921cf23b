/** The inline script of the root layout, run before hydration: it sets the
    document's `data-theme` from the stored theme and the OS preference. */
module Layout {
  import opened Common
  import opened Theme

  /** What the script reads; `Threw` covers storage or media-query access
      that throws, which the script swallows. */
  datatype ScriptInput = ScriptInput(stored: Option<string>, systemDark: bool)

  /** The document theme the script sets; None when it threw and set nothing. */
  function PreHydrationTheme(input: Call<ScriptInput>): (r: Option<Resolved>)
    ensures input.Threw? <==> r.None?
    ensures input.Returned? && input.value.stored == Some("dark") ==> r == Some(ResolvedDark)
    ensures input.Returned? && input.value.stored in {None, Some(""), Some("system")} ==>
              r == Some(if input.value.systemDark then ResolvedDark else ResolvedLight)
    ensures input.Returned? && input.value.stored.Some? &&
            input.value.stored.value !in {"", "dark", "system"} ==>
              r == Some(ResolvedLight)
  {
    match input
    case Threw(_) => None
    case Returned(ScriptInput(theme, systemDark)) =>
      var falsy := theme.None? || theme.value == "";
      var dark := theme == Some("dark") || (theme == Some("system") && systemDark)
                  || (falsy && systemDark);
      Some(if dark then ResolvedDark else ResolvedLight)
  }

  /** The theme the provider settles on after mounting over the same storage. */
  function ProviderTheme(stored: Option<string>, systemDark: bool): Resolved {
    Resolve(ParseStored(stored).GetOr(System), systemDark)
  }

  /** The script agrees with the provider exactly when the stored value is
      absent, empty or one of the three names, or the OS is not dark: a
      stray stored string under a dark OS is light before hydration and
      dark after. */
  lemma ScriptAgreesWithProvider(stored: Option<string>, systemDark: bool)
    ensures PreHydrationTheme(Returned(ScriptInput(stored, systemDark)))
              == Some(ProviderTheme(stored, systemDark))
            <==> stored.None? || stored.value in {"", "light", "dark", "system"} || !systemDark
  {
  }
}
