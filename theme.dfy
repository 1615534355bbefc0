/** The appearance store of src/stores/theme.ts: one dark-mode flag. */
module Theme {

  class ThemeStore {
    var isDark: bool

    /** The store starts in light mode. */
    constructor ()
      ensures !isDark
    {
      isDark := false;
    }

    /** `toggle`: flips the flag and nothing else. */
    method Toggle()
      modifies this`isDark
      ensures isDark == !old(isDark)
    {
      isDark := !isDark;
    }
  }

  /** Toggling twice gives back the original mode. */
  method ToggleTwice(t: ThemeStore)
    modifies t
    ensures t.isDark == old(t.isDark)
  {
    t.Toggle();
    t.Toggle();
  }
}
