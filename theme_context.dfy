/** `ThemeContext` (src/context/ThemeContext.tsx): the dark-mode switch. The provider
    keeps one boolean, restores it from `localStorage` under `darkMode` when it mounts,
    writes it back with `JSON.stringify` whenever it changes, and hands `isDarkMode`
    and `toggleDarkMode` to its consumers through the context. */
module ThemeContext {
  import opened Wrappers
  import Storage

  const DarkModeKey := "darkMode"
  const MissingProvider := "useTheme must be used within a ThemeProvider"

  /** `JSON.stringify` of a boolean. */
  function Stringify(b: bool): (text: string)
    ensures |text| > 0
  {
    if b then "true" else "false"
  }

  /** The whitespace `JSON.parse` skips around a value (section 2 of RFC 8259). */
  predicate IsJsonWhitespace(c: char) {
    c == ' ' || c == '\t' || c == '\n' || c == '\r'
  }

  predicate AllWhitespace(w: string) {
    forall i :: 0 <= i < |w| ==> IsJsonWhitespace(w[i])
  }

  function TrimStart(s: string): (t: string)
    ensures |t| <= |s| && t == s[|s| - |t|..]
    ensures |t| > 0 ==> !IsJsonWhitespace(t[0])
    decreases |s|
  {
    if |s| > 0 && IsJsonWhitespace(s[0]) then TrimStart(s[1..]) else s
  }

  function TrimEnd(s: string): (t: string)
    ensures |t| <= |s| && t == s[..|t|]
    ensures |t| > 0 ==> !IsJsonWhitespace(t[|t| - 1])
    decreases |s|
  {
    if |s| > 0 && IsJsonWhitespace(s[|s| - 1]) then TrimEnd(s[..|s| - 1]) else s
  }

  /** `JSON.parse` on a text holding a boolean literal, possibly padded with whitespace;
      `None` for every other text, which `JSON.parse` either rejects or reads as a value
      that is not a boolean. */
  function ParseBoolean(text: string): Option<bool> {
    var core := TrimEnd(TrimStart(text));
    if core == "true" then Some(true)
    else if core == "false" then Some(false)
    else None
  }

  lemma {:induction false} TrimStartSkips(w: string, s: string)
    requires AllWhitespace(w)
    requires |s| > 0 && !IsJsonWhitespace(s[0])
    ensures TrimStart(w + s) == s
    decreases |w|
  {
    if |w| == 0 {
      assert w + s == s;
    } else {
      assert (w + s)[0] == w[0];
      assert (w + s)[1..] == w[1..] + s;
      TrimStartSkips(w[1..], s);
    }
  }

  lemma {:induction false} TrimEndSkips(s: string, w: string)
    requires AllWhitespace(w)
    requires |s| > 0 && !IsJsonWhitespace(s[|s| - 1])
    ensures TrimEnd(s + w) == s
    decreases |w|
  {
    if |w| == 0 {
      assert s + w == s;
    } else {
      var u := s + w;
      assert u[|u| - 1] == w[|w| - 1];
      assert u[..|u| - 1] == s + w[..|w| - 1];
      TrimEndSkips(s, w[..|w| - 1]);
    }
  }

  /** `JSON.parse(JSON.stringify(b))` is `b`, whatever whitespace surrounds the literal. */
  lemma ParseStringify(b: bool, before: string, after: string)
    requires AllWhitespace(before) && AllWhitespace(after)
    ensures ParseBoolean(before + Stringify(b) + after) == Some(b)
  {
    var lit := Stringify(b);
    assert before + lit + after == before + (lit + after);
    assert (lit + after)[0] == lit[0];
    TrimStartSkips(before, lit + after);
    TrimEndSkips(lit, after);
  }

  /** The mode the provider starts in: `saved ? JSON.parse(saved) : false`. No stored item
      and the empty string are falsy and give light mode; a stored boolean is restored;
      `None` for a stored text that does not parse to a boolean. */
  function InitialDarkMode(saved: Option<string>): (r: Option<bool>)
    ensures saved.None? || saved == Some("") ==> r == Some(false)
    ensures saved.Some? && saved.value != "" ==> r == ParseBoolean(saved.value)
  {
    match saved
    case None => Some(false)
    case Some(text) => if text == "" then Some(false) else ParseBoolean(text)
  }

  /** What the provider writes is what it reads back on the next mount. */
  lemma ReloadRestores(b: bool)
    ensures InitialDarkMode(Some(Stringify(b))) == Some(b)
  {
    var lit := Stringify(b);
    assert "" + lit == lit && lit + "" == lit;
    TrimStartSkips("", lit);
    TrimEndSkips(lit, "");
  }

  /** The two palettes of src/theme.ts, which are not part of this model beyond their names. */
  datatype Palette = Light | Dark

  /** The context's value. */
  datatype ContextValue = ContextValue(isDarkMode: bool)

  class ThemeProvider {
    var isDarkMode: bool
    const storage: Storage.LocalStorage

    /** The stored item restores the mode when a reload would find it again. */
    predicate Persisted()
      reads this, storage
    {
      InitialDarkMode(storage.GetItem(DarkModeKey)) == Some(isDarkMode)
    }

    /** Mounting: the state initialiser reads the stored mode, and the effect then writes it
        back under `darkMode`, leaving every other item alone. */
    constructor (storage: Storage.LocalStorage)
      requires InitialDarkMode(storage.GetItem(DarkModeKey)).Some?
      modifies storage
      ensures this.storage == storage
      ensures isDarkMode == InitialDarkMode(old(storage.GetItem(DarkModeKey))).value
      ensures storage.items == old(storage.items)[DarkModeKey := Stringify(isDarkMode)]
      ensures Persisted()
    {
      var saved := storage.GetItem(DarkModeKey);
      var initial := InitialDarkMode(saved).value;
      this.storage := storage;
      isDarkMode := initial;
      storage.SetItem(DarkModeKey, Stringify(initial));
      ReloadRestores(initial);
    }

    /** `toggleDarkMode`, followed by the effect its change of state triggers: the mode is
        negated and the new mode is stored. */
    method ToggleDarkMode()
      modifies this, storage
      ensures isDarkMode == !old(isDarkMode)
      ensures storage.items == old(storage.items)[DarkModeKey := Stringify(isDarkMode)]
      ensures Persisted()
    {
      isDarkMode := !isDarkMode;
      storage.SetItem(DarkModeKey, Stringify(isDarkMode));
      ReloadRestores(isDarkMode);
    }

    /** `currentTheme`: the dark palette exactly when dark mode is on. */
    function CurrentTheme(): (p: Palette)
      reads this
      ensures p == Dark <==> isDarkMode
    {
      if isDarkMode then Dark else Light
    }

    function Context(): ContextValue
      reads this
    {
      ContextValue(isDarkMode)
    }
  }

  /** `useTheme`: the provider's value, or the error it throws outside a provider. */
  function UseTheme(context: Option<ContextValue>): (r: Result<ContextValue>)
    ensures r.Err? <==> context.None?
    ensures r.Err? ==> r.message == MissingProvider
    ensures r.Ok? ==> r.value == context.value
  {
    match context
    case Some(value) => Ok(value)
    case None => Err(MissingProvider)
  }
}
