/** The theme attribute of the page: its default on load and `toggleTheme`. */
module Theme {
  import opened Repos

  /** `localStorage.getItem('theme') || 'dark'`: a missing or empty stored value gives `dark`. */
  function InitialTheme(saved: Option<string>): (t: string)
    ensures t != ""
    ensures saved.Some? && saved.value != "" ==> t == saved.value
    ensures saved == None || saved == Some("") ==> t == "dark"
  {
    match saved
    case Some(s) => if s != "" then s else "dark"
    case None => "dark"
  }

  /** `toggleTheme`: `light` becomes `dark`; anything else, a missing attribute included, becomes `light`. */
  function NextTheme(current: Option<string>): (t: string)
    ensures t == "light" || t == "dark"
    ensures t == "dark" <==> current == Some("light")
  {
    if current == Some("light") then "dark" else "light"
  }

  /** From any starting attribute, the first toggle lands on `light` or `dark` and every later
      toggle swaps the two. */
  lemma ToggleAlternates(current: Option<string>)
    ensures NextTheme(Some(NextTheme(current))) != NextTheme(current)
    ensures NextTheme(Some(NextTheme(Some(NextTheme(current))))) == NextTheme(current)
  {
  }
}
