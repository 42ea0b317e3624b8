/** The dark-mode flag (`setupTheme`, main.js 68-76, and `toggleDarkMode`,
    main.js 78-85): the `dark-mode` class on the body, its persisted copy in
    local storage under "darkMode", and the labels of the theme buttons. */
module Theme {

  const DarkModeKey: string := "darkMode"
  /** Label shown while dark mode is on (a sun) and while it is off (a moon). */
  const SunLabel: string := "\U{2600}\U{FE0F}"
  const MoonLabel: string := "\U{1F319}"

  /** `localStorage.getItem('darkMode') === 'true'`: only the exact string
      "true" counts; a missing key or any other text reads as light mode. */
  predicate StoredDark(storage: map<string, string>) {
    DarkModeKey in storage && storage[DarkModeKey] == "true"
  }

  /** `localStorage.setItem(key, b)` stores the boolean as text. */
  function StoredText(b: bool): string {
    if b then "true" else "false"
  }

  function ToggleLabel(dark: bool): string {
    if dark then SunLabel else MoonLabel
  }

  /** Writing a flag and reading it back gives the flag. */
  lemma StoredRoundTrip(storage: map<string, string>, b: bool)
    ensures StoredDark(storage[DarkModeKey := StoredText(b)]) == b
  {
    assert "false" != "true" by { assert "false"[0] != "true"[0]; }
  }

  /** The part of the page the theme code touches. */
  class ThemeDocument {
    /** 'dark-mode' is in `document.body.classList` */
    var darkMode: bool
    /** `localStorage` */
    var storage: map<string, string>
    /** the text of every `.theme-toggle` button, in document order */
    var toggleLabels: seq<string>

    /** A freshly loaded page: the body has no class yet. */
    constructor (stored: map<string, string>, labels: seq<string>)
      ensures !darkMode && storage == stored && toggleLabels == labels
    {
      darkMode := false;
      storage := stored;
      toggleLabels := labels;
    }

    /** Set every theme button's label. */
    method SetLabels(text: string)
      modifies this
      ensures |toggleLabels| == |old(toggleLabels)|
      ensures forall k :: 0 <= k < |toggleLabels| ==> toggleLabels[k] == text
      ensures darkMode == old(darkMode) && storage == old(storage)
    {
      var labels := toggleLabels;
      var i := 0;
      while i < |labels|
        invariant 0 <= i <= |labels| == |old(toggleLabels)|
        invariant forall k :: 0 <= k < i ==> labels[k] == text
      {
        labels := labels[i := text];
        i := i + 1;
      }
      toggleLabels := labels;
    }

    /** `setupTheme`: adds the class when the stored flag is "true" (it never
        removes it) and labels the buttons by the stored flag. */
    method SetupTheme()
      modifies this
      ensures storage == old(storage)
      ensures darkMode == (old(darkMode) || StoredDark(storage))
      ensures |toggleLabels| == |old(toggleLabels)|
      ensures forall k :: 0 <= k < |toggleLabels| ==> toggleLabels[k] == ToggleLabel(StoredDark(storage))
    {
      var isDarkMode := DarkModeKey in storage && storage[DarkModeKey] == "true";
      if isDarkMode {
        darkMode := true;
      }
      SetLabels(if isDarkMode then SunLabel else MoonLabel);
    }

    /** `toggleDarkMode`: flips the class, stores the new state and relabels
        the buttons by it. Afterwards the stored flag agrees with the class. */
    method ToggleDarkMode()
      modifies this
      ensures darkMode == !old(darkMode)
      ensures storage == old(storage)[DarkModeKey := StoredText(darkMode)]
      ensures StoredDark(storage) == darkMode
      ensures |toggleLabels| == |old(toggleLabels)|
      ensures forall k :: 0 <= k < |toggleLabels| ==> toggleLabels[k] == ToggleLabel(darkMode)
    {
      darkMode := !darkMode;
      var isDarkMode := darkMode;
      storage := storage[DarkModeKey := if isDarkMode then "true" else "false"];
      StoredRoundTrip(old(storage), isDarkMode);
      SetLabels(if isDarkMode then SunLabel else MoonLabel);
    }
  }

  /** Load a page, toggle, then reload with the stored flag: the reloaded
      page comes up in the mode the toggle chose, which is the opposite of
      the one first stored. */
  method ToggleSurvivesReload(stored: map<string, string>, labels: seq<string>)
    returns (toggled: bool, reloaded: bool)
    ensures toggled == !StoredDark(stored)
    ensures reloaded == toggled
  {
    var page := new ThemeDocument(stored, labels);
    page.SetupTheme();
    page.ToggleDarkMode();
    toggled := page.darkMode;
    var next := new ThemeDocument(page.storage, labels);
    next.SetupTheme();
    reloaded := next.darkMode;
  }
}
