/**
 * The two-valued colour preference. The page reads it from storage key
 * `theme` once at start-up and writes it back on every toggle.
 */
module Theme {
  import opened Wrappers

  /**
   * `localStorage.getItem('theme') || 'light'`: an absent value, and also an
   * empty stored string (falsy in the script's language), give "light";
   * any other stored string is used as it is, even one that is neither
   * "light" nor "dark".
   */
  function InitialTheme(stored: Option<string>): (t: string)
    ensures stored == None ==> t == "light"
    ensures stored == Some("") ==> t == "light"
    ensures stored.Some? && stored.value != "" ==> t == stored.value
    ensures t != ""
  {
    match stored
    case None => "light"
    case Some(s) => if s == "" then "light" else s
  }

  /** The toggle: "light" becomes "dark", every other value becomes "light". */
  function Toggled(current: string): (t: string)
    ensures t == "light" || t == "dark"
    ensures t == "dark" <==> current == "light"
  {
    if current == "light" then "dark" else "light"
  }

  /** On the two values the toggle is an involution. */
  lemma ToggleTwice(t: string)
    requires t == "light" || t == "dark"
    ensures Toggled(Toggled(t)) == t
  {
  }

  /** Whatever the start value, after the first toggle the theme alternates. */
  lemma ToggleAlternates(t: string)
    ensures Toggled(Toggled(t)) != Toggled(t)
    ensures Toggled(Toggled(Toggled(t))) == Toggled(t)
  {
  }

  /** A value the toggle wrote is read back unchanged by the next start-up. */
  lemma ToggledSurvivesReload(current: string)
    ensures InitialTheme(Some(Toggled(current))) == Toggled(current)
  {
  }
}
