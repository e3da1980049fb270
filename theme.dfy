/**
 * The theme controller: the colour scheme is the string `"dark"` or `"light"`, read at start-up
 * from the stored preference or, failing that, from the system's dark-mode preference, and
 * flipped by the toggle button.
 */
module Theme {
  import opened Wrappers

  const Dark := "dark"
  const Light := "light"

  predicate IsTheme(t: string) {
    t == Dark || t == Light
  }

  /**
   * The initial theme: a stored value that is exactly `"dark"` or `"light"` is used as it is;
   * anything else (nothing stored, or some other string) defers to the system preference.
   */
  function InitialTheme(saved: Option<string>, prefersDark: bool): (t: string)
    ensures IsTheme(t)
    ensures saved.Some? && IsTheme(saved.value) ==> t == saved.value
    ensures !(saved.Some? && IsTheme(saved.value)) ==> (t == Dark <==> prefersDark)
  {
    if saved.Some? && (saved.value == Dark || saved.value == Light) then saved.value
    else if prefersDark then Dark
    else Light
  }

  /** The toggle's updater: dark becomes light, and anything else becomes dark. */
  function Toggle(t: string): (r: string)
    ensures IsTheme(r)
    ensures r == Light <==> t == Dark
  {
    if t == Dark then Light else Dark
  }

  /** Toggling a valid theme always changes it, and toggling twice gives it back. */
  lemma ToggleFlips(t: string)
    requires IsTheme(t)
    ensures Toggle(t) != t
    ensures Toggle(Toggle(t)) == t
  {
  }

  /**
   * The value written to storage after a change is the one read back after a reload,
   * whatever the system preference is then.
   */
  lemma ReloadRestoresTheme(t: string, prefersDark: bool)
    requires IsTheme(t)
    ensures InitialTheme(Some(t), prefersDark) == t
  {
  }
}
