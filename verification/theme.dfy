/**
 * The dark-mode preference of the page (the `useDarkMode` hook of
 * src/Portfolio.jsx). The flag lives in React state and is mirrored to
 * browser-local storage under the key "darkMode" as the string form of the
 * boolean; at start-up the stored string is read back.
 */
module Theme {
  import opened Wrappers

  /** The string JavaScript stores for a boolean (`String(b)`). */
  function Serialize(b: bool): (s: string)
    ensures Parse(Some(s)) == b
  {
    if b then "true" else "false"
  }

  /**
   * Reading the stored value back: `savedMode === "true" || false`.
   * Only the exact string "true" turns dark mode on; a missing key
   * (getItem returns null) and every other string read as light mode.
   */
  function Parse(saved: Option<string>): (dark: bool)
    ensures saved.None? ==> !dark
    ensures dark ==> saved == Some("true")
  {
    saved == Some("true")
  }

  /** Storing a flag and reading it back on a fresh load gives the same flag. */
  lemma ParseSerialize(b: bool)
    ensures Parse(Some(Serialize(b))) == b
  {
  }

  /** No stored string other than "true" (for example "TRUE", "1", "yes") means dark mode. */
  lemma ParseOnlyTrue(s: string)
    requires s != "true"
    ensures !Parse(Some(s))
  {
  }

  /** Two different flags are never stored as the same string. */
  lemma SerializeInjective(a: bool, b: bool)
    requires Serialize(a) == Serialize(b)
    ensures a == b
  {
    assert |Serialize(a)| == |Serialize(b)|;
  }

  /**
   * The hook's state: the flag and what local storage holds. The effect
   * that writes the flag runs after every change, so between events the
   * stored value is the serialised flag.
   */
  class ThemeStore {
    var isDarkMode: bool
    var stored: Option<string>

    ghost predicate Valid()
      reads this
    {
      stored == Some(Serialize(isDarkMode))
    }

    /** Mount: parse what storage holds, then the effect writes the flag back. */
    constructor (saved: Option<string>)
      ensures Valid()
      ensures isDarkMode == Parse(saved)
    {
      var dark := Parse(saved);
      isDarkMode := dark;
      stored := Some(Serialize(dark));
    }

    /** The theme button: `setIsDarkMode(!isDarkMode)`, followed by the storing effect. */
    method Toggle()
      modifies this
      ensures Valid()
      ensures isDarkMode == !old(isDarkMode)
      ensures Parse(stored) == isDarkMode
    {
      isDarkMode := !isDarkMode;
      stored := Some(Serialize(isDarkMode));
      ParseSerialize(isDarkMode);
    }
  }
}
