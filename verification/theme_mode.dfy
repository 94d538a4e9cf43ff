/** src/contexts/ThemeModeContext.tsx of the web client: the light or dark
    colour mode, kept in the browser's storage under `themeMode`. */
module ThemeModeContext {
  import opened Wrappers

  const Light: string := "light"
  const Dark: string := "dark"

  /** The mode of the context when no provider is present. */
  const DefaultMode: string := Light

  /** The mode a provider starts in: the stored value when it is non-empty,
      taken as it is without checking it names a mode, else light. */
  function InitialMode(stored: Option<string>): (mode: string)
    ensures stored.Some? && stored.value != "" ==> mode == stored.value
    ensures stored.None? || stored.value == "" ==> mode == DefaultMode
  {
    if stored.Some? && stored.value != "" then stored.value else Light
  }

  /** The toggle: light becomes dark, and every other value becomes light. */
  function NextMode(mode: string): (next: string)
    ensures next == Dark <==> mode == Light
    ensures next == Light <==> mode != Light
  {
    if mode == Light then Dark else Light
  }

  /** Toggling twice from light or dark returns to it; from any other
      stored value it settles on dark. */
  lemma ToggleTwice(mode: string)
    ensures mode == Light || mode == Dark ==> NextMode(NextMode(mode)) == mode
    ensures mode != Light && mode != Dark ==> NextMode(NextMode(mode)) == Dark
  {
  }

  /** The provider's state; `stored` is the `themeMode` storage entry. */
  class ThemeModeProvider {
    var mode: string
    var stored: Option<string>

    constructor(storedMode: Option<string>)
      ensures mode == InitialMode(storedMode)
      ensures stored == storedMode
    {
      mode := InitialMode(storedMode);
      stored := storedMode;
    }

    /** `toggleMode`: flips the mode and stores the new one. */
    method Toggle()
      modifies this
      ensures mode == NextMode(old(mode))
      ensures stored == Some(mode)
      ensures mode == Light || mode == Dark
    {
      var next := NextMode(mode);
      stored := Some(next);
      mode := next;
    }
  }
}
