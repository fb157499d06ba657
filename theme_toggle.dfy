/**
  The theme toggle button: which theme a click selects, given the stored
  theme setting and the theme it currently resolves to, and which mode the
  button's label offers.
 */
module ThemeToggle {

  /** The theme a click on the toggle sets (`toggleTheme`). */
  function NextTheme(theme: string, resolvedTheme: string): (next: string)
    ensures next == "light" || next == "dark"
    ensures next != "system"
    ensures theme == "light" ==> next == "dark"
    ensures theme != "system" && theme != "light" ==> next == "light"
    ensures theme == "system" ==> (next == "light" <==> resolvedTheme == "dark")
  {
    if theme == "system" then
      (if resolvedTheme == "dark" then "light" else "dark")
    else if theme == "light" then "dark"
    else "light"
  }

  /** The mode the button's `aria-label` offers to switch to. */
  function AriaTarget(resolvedTheme: string): (mode: string)
    ensures mode == "light" || mode == "dark"
    ensures mode == "light" <==> resolvedTheme == "dark"
  {
    if resolvedTheme == "dark" then "light" else "dark"
  }

  /** While the setting follows the system, the label names exactly the theme a click sets. */
  lemma SystemToggleMatchesLabel(resolvedTheme: string)
    ensures NextTheme("system", resolvedTheme) == AriaTarget(resolvedTheme)
  {
  }

  /**
    Once the setting is explicit, clicking twice restores it, and after the
    first click the setting is never "system" again.
   */
  lemma ToggleTwiceRestores(theme: string, resolved1: string, resolved2: string)
    requires theme == "light" || theme == "dark"
    ensures NextTheme(theme, resolved1) != theme
    ensures NextTheme(NextTheme(theme, resolved1), resolved2) == theme
  {
  }

  /**
    After a click the setting is explicit; once it resolves to itself, the
    label again names exactly the theme the following click sets.
   */
  lemma LabelAgreesAfterClick(theme: string, resolvedTheme: string, later: string)
    ensures var next := NextTheme(theme, resolvedTheme);
      AriaTarget(next) == NextTheme(next, later)
  {
  }
}
