/** The blog front end's theme hook (frontend/src/hooks/useTheme.ts:1-33): initial
    resolution, toggling, and the effect that puts the theme class on the root element and
    persists the theme. */
module Theme {
  import opened Wrappers

  const ThemeKey: string := "theme"
  const LightClass: string := "app-container--light"
  const DarkClass: string := "app-container--dark"

  /** `` `app-container--${theme}` `` */
  function ThemeClass(theme: string): string
  {
    "app-container--" + theme
  }

  /** The initial state (:9-15): the stored value when it is present and non-empty, taken
      as it is; otherwise the system preference. */
  function InitialTheme(stored: Option<string>, prefersDark: bool): (t: string)
    ensures stored.Some? && stored.value != "" ==> t == stored.value
    ensures stored.None? || stored.value == "" ==> t == (if prefersDark then "dark" else "light")
    ensures t != ""
  {
    if stored.Some? && stored.value != "" then stored.value
    else if prefersDark then "dark" else "light"
  }

  /** `toggleTheme`'s updater (:28): `'light'` becomes `'dark'`, everything else `'light'`. */
  function Toggle(theme: string): (r: string)
    ensures r == "light" || r == "dark"
    ensures r == "dark" <==> theme == "light"
  {
    if theme == "light" then "dark" else "light"
  }

  /** Toggling twice restores `'light'` and `'dark'`; any other stored value ends as
      `'dark'`. */
  lemma ToggleTwice(theme: string)
    ensures theme == "light" || theme == "dark" ==> Toggle(Toggle(theme)) == theme
    ensures theme != "light" && theme != "dark" ==> Toggle(Toggle(theme)) == "dark"
  {
  }

  predicate NoDuplicates(tokens: seq<string>)
  {
    forall i, j :: 0 <= i < j < |tokens| ==> tokens[i] != tokens[j]
  }

  /** ASCII white space as the DOM defines it: tab, line feed, form feed, carriage return,
      space. */
  predicate IsAsciiWhitespace(c: char)
  {
    c == '\t' || c == '\n' || c == '\U{000C}' || c == '\r' || c == ' '
  }

  /** A string `classList.add` accepts: non-empty and free of ASCII white space. Any other
      token makes it throw before it changes anything. */
  predicate IsToken(t: string)
  {
    t != "" && forall k :: 0 <= k < |t| ==> !IsAsciiWhitespace(t[k])
  }

  /** What a `DOMTokenList` holds: tokens, each at most once. */
  predicate IsTokenList(tokens: seq<string>)
  {
    NoDuplicates(tokens) && forall t :: t in tokens ==> IsToken(t)
  }

  /** The effect completes exactly when the theme's class is a token, that is when the theme
      holds no ASCII white space; `'light'` and `'dark'` always do. */
  lemma {:induction false} ThemeClassIsToken(theme: string)
    ensures IsToken(ThemeClass(theme)) <==> forall k :: 0 <= k < |theme| ==> !IsAsciiWhitespace(theme[k])
    ensures theme == "light" || theme == "dark" ==> IsToken(ThemeClass(theme))
  {
    var t := ThemeClass(theme);
    assert forall k :: 0 <= k < |theme| ==> t[15 + k] == theme[k];
    assert forall k :: 0 <= k < 15 ==> t[k] == "app-container--"[k];
  }

  /** `classList.remove(token)` */
  function Remove(tokens: seq<string>, token: string): (r: seq<string>)
    ensures forall c :: c in r <==> c in tokens && c != token
    ensures NoDuplicates(tokens) ==> NoDuplicates(r)
  {
    if tokens == [] then []
    else if tokens[0] == token then Remove(tokens[1..], token)
    else
      var rest := Remove(tokens[1..], token);
      assert NoDuplicates(tokens) ==> tokens[0] !in tokens[1..];
      [tokens[0]] + rest
  }

  /** `classList.add(token)` */
  function Add(tokens: seq<string>, token: string): (r: seq<string>)
    ensures forall c :: c in r <==> c in tokens || c == token
    ensures NoDuplicates(tokens) ==> NoDuplicates(r)
  {
    if token in tokens then tokens else tokens + [token]
  }

  /** The root element's classes after the effect for `theme` (:20-21). The two removals
      always happen; the add throws for a class that is not a token, and then the classes
      stay as the removals left them. */
  function AppliedClasses(tokens: seq<string>, theme: string): seq<string>
  {
    var cleared := Remove(Remove(tokens, LightClass), DarkClass);
    if IsToken(ThemeClass(theme)) then Add(cleared, ThemeClass(theme)) else cleared
  }

  /** After the effect the root carries the light class exactly when the theme is
      `'light'` and the dark class exactly when it is `'dark'`, so for these two themes
      exactly one of them; it carries the theme's own class exactly when the add succeeded
      or it was there before; every other class is kept; a token list stays one. */
  lemma AppliedClassesShape(tokens: seq<string>, theme: string)
    ensures var r := AppliedClasses(tokens, theme);
      && (LightClass in r <==> theme == "light")
      && (DarkClass in r <==> theme == "dark")
      && (ThemeClass(theme) in r <==> IsToken(ThemeClass(theme)) || ThemeClass(theme) in tokens)
      && (forall c :: c != LightClass && c != DarkClass && c != ThemeClass(theme) ==> (c in r <==> c in tokens))
      && (IsTokenList(tokens) ==> IsTokenList(r))
  {
    var r := AppliedClasses(tokens, theme);
    assert LightClass == ThemeClass("light");
    assert DarkClass == ThemeClass("dark");
    assert forall t :: ThemeClass(t)[..15] == "app-container--" && ThemeClass(t)[15..] == t;
    ThemeClassIsToken("light");
    ThemeClassIsToken("dark");
  }

  /** The hook's theme, the root element's class list and `localStorage`. */
  class ThemeHook {
    var theme: string
    var rootClasses: seq<string>
    var storage: map<string, string>

    /** The root's classes form a `DOMTokenList`. */
    ghost predicate Valid()
      reads this
    {
      IsTokenList(rootClasses)
    }

    /** Mounting (:9-15): `stored` is `localStorage.getItem('theme')`, `prefersDark` the
        `prefers-color-scheme: dark` media query. */
    constructor (storage: map<string, string>, prefersDark: bool, rootClasses: seq<string>)
      requires IsTokenList(rootClasses)
      ensures Valid()
      ensures theme == InitialTheme(if ThemeKey in storage then Some(storage[ThemeKey]) else None, prefersDark)
      ensures this.storage == storage && this.rootClasses == rootClasses
    {
      this.storage := storage;
      this.rootClasses := rootClasses;
      theme := InitialTheme(if ThemeKey in storage then Some(storage[ThemeKey]) else None, prefersDark);
    }

    /** `toggleTheme` (:27-29) */
    method ToggleTheme()
      requires Valid()
      modifies this
      ensures Valid()
      ensures theme == Toggle(old(theme))
      ensures rootClasses == old(rootClasses) && storage == old(storage)
    {
      theme := Toggle(theme);
    }

    /** The effect that runs after each theme change (:17-25): the root's theme classes are
        replaced and the theme is persisted under `'theme'`, no other key touched. A theme
        holding ASCII white space (a stored value is taken unchecked, :11) makes the add
        throw (:21): `completed` is false, the removals stay and nothing is persisted. */
    method ApplyTheme() returns (completed: bool)
      requires Valid()
      modifies this
      ensures Valid()
      ensures completed <==> forall k :: 0 <= k < |theme| ==> !IsAsciiWhitespace(theme[k])
      ensures rootClasses == AppliedClasses(old(rootClasses), theme)
      ensures storage == if completed then old(storage)[ThemeKey := theme] else old(storage)
      ensures theme == old(theme)
    {
      AppliedClassesShape(rootClasses, theme);
      ThemeClassIsToken(theme);
      rootClasses := Remove(rootClasses, LightClass);
      rootClasses := Remove(rootClasses, DarkClass);
      completed := IsToken(ThemeClass(theme));
      if completed {
        rootClasses := Add(rootClasses, ThemeClass(theme));
        storage := storage[ThemeKey := theme];
      }
    }
  }

  /** Persisting and reloading: whatever theme the effect stored is the theme the next
      mount resolves to, whatever the system preference. */
  lemma PersistedThemeIsRestored(storage: map<string, string>, theme: string, prefersDark: bool)
    requires theme != ""
    ensures var saved := storage[ThemeKey := theme];
      InitialTheme(Some(saved[ThemeKey]), prefersDark) == theme
  {
  }
}
