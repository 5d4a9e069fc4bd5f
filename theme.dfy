/** The light/dark theme: which theme a page starts in, how it is shown on the document
    root's class list, how it is remembered in local storage, and how it is switched. */
module Theme {
  import opened Wrappers
  import Seqs
  import Storage

  datatype ThemeName = Light | Dark

  const ThemeStorageKey := "theme"
  const DefaultTheme := Light
  const LightClass := "light"
  const DarkClass := "dark"

  /** The class name, and the stored value, of a theme. */
  function ClassName(t: ThemeName): string {
    if t == Light then LightClass else DarkClass
  }

  /** `isValidTheme`: the stored value is `'light'` or `'dark'`. */
  predicate IsValidTheme(value: Option<string>) {
    value == Some(LightClass) || value == Some(DarkClass)
  }

  /** The theme a stored value names, if it names one. */
  function ParseTheme(value: Option<string>): (r: Option<ThemeName>)
    ensures r.Some? <==> IsValidTheme(value)
    ensures r.Some? ==> value == Some(ClassName(r.value))
  {
    if value == Some(LightClass) then Some(Light)
    else if value == Some(DarkClass) then Some(Dark)
    else None
  }

  /** What is stored for a theme reads back as that theme. */
  lemma ParseStoredTheme(t: ThemeName)
    ensures ParseTheme(Some(ClassName(t))) == Some(t)
  {
  }

  /** `getStoredTheme`: nothing outside a browser window, otherwise the stored theme if the
      stored value is a valid one. */
  function StoredTheme(hasWindow: bool, items: map<string, string>): Option<ThemeName> {
    if !hasWindow then None else ParseTheme(Storage.Lookup(items, ThemeStorageKey))
  }

  /** `getInitialTheme`: the stored theme, or light. */
  function InitialTheme(hasWindow: bool, items: map<string, string>): ThemeName {
    StoredTheme(hasWindow, items).GetOr(DefaultTheme)
  }

  /** The initial theme is the stored one exactly when a valid theme is stored in a browser
      window; a missing or unknown value, or no window at all, gives light. */
  lemma InitialThemeCases(hasWindow: bool, items: map<string, string>)
    ensures hasWindow && IsValidTheme(Storage.Lookup(items, ThemeStorageKey)) ==>
      Some(ClassName(InitialTheme(hasWindow, items))) == Storage.Lookup(items, ThemeStorageKey)
    ensures !(hasWindow && IsValidTheme(Storage.Lookup(items, ThemeStorageKey))) ==>
      InitialTheme(hasWindow, items) == Light
  {
  }

  /** Logging out (`clearAll`) leaves the remembered theme in place. */
  lemma LogoutKeepsTheme(hasWindow: bool, items: map<string, string>)
    ensures InitialTheme(hasWindow, Storage.Cleared(items)) == InitialTheme(hasWindow, items)
  {
    assert Storage.Lookup(Storage.Cleared(items), ThemeStorageKey) == Storage.Lookup(items, ThemeStorageKey);
  }

  /** `getOppositeTheme`. */
  function Opposite(t: ThemeName): (r: ThemeName)
    ensures r != t
  {
    if t == Light then Dark else Light
  }

  /** Toggling twice returns to the theme one started with. */
  lemma OppositeInvolution(t: ThemeName)
    ensures Opposite(Opposite(t)) == t
  {
  }

  /** A class other than the two theme classes. */
  function NotThemeClass(c: string): bool {
    c != LightClass && c != DarkClass
  }

  /** `classList.remove('light', 'dark')`. */
  function WithoutThemeClasses(classes: seq<string>): seq<string> {
    Seqs.Filter(NotThemeClass, classes)
  }

  /** The class list after `applyThemeToDocument(t)`: both theme classes removed, then the
      class of `t` added at the end. */
  function Applied(classes: seq<string>, t: ThemeName): seq<string> {
    WithoutThemeClasses(classes) + [ClassName(t)]
  }

  /** The document shows `t` and no other theme: its class is there once, at the end, the
      other theme's class is gone, and every other class is kept in its order. */
  lemma AppliedThemeIsExclusive(classes: seq<string>, t: ThemeName)
    ensures ClassName(t) in Applied(classes, t)
    ensures ClassName(Opposite(t)) !in Applied(classes, t)
    ensures forall i :: 0 <= i < |Applied(classes, t)| && !NotThemeClass(Applied(classes, t)[i]) ==>
      i == |Applied(classes, t)| - 1
    ensures WithoutThemeClasses(Applied(classes, t)) == WithoutThemeClasses(classes)
  {
    var kept := WithoutThemeClasses(classes);
    var r := Applied(classes, t);
    assert r == kept + [ClassName(t)];
    assert r[|kept|] == ClassName(t);
    forall i | 0 <= i < |kept|
      ensures NotThemeClass(r[i])
    {
      assert r[i] == kept[i];
    }
    assert !NotThemeClass(ClassName(Opposite(t)));
    assert ClassName(Opposite(t)) != ClassName(t);
    ThemeClassesRemoved(classes, t);
  }

  /** Removing the theme classes from a class list with a theme applied gives back the
      class list without theme classes that one started from. */
  lemma ThemeClassesRemoved(classes: seq<string>, t: ThemeName)
    ensures WithoutThemeClasses(Applied(classes, t)) == WithoutThemeClasses(classes)
  {
    var kept := WithoutThemeClasses(classes);
    Seqs.FilterAppend(NotThemeClass, kept, [ClassName(t)]);
    assert Seqs.Filter(NotThemeClass, [ClassName(t)]) == [];
    Seqs.FilterIdempotent(NotThemeClass, classes);
  }

  /** Applying one theme after another leaves the document as if only the last had been
      applied. */
  lemma LastAppliedWins(classes: seq<string>, first: ThemeName, second: ThemeName)
    ensures Applied(Applied(classes, first), second) == Applied(classes, second)
  {
    AppliedThemeIsExclusive(classes, first);
  }

  /** The root element of the document and its class list. A DOM class list holds each name
      at most once; here it is a sequence, taken to be duplicate-free as the browser keeps
      it. A repeated non-theme class, which the browser would never hold, is kept as it is. */
  class DocumentRoot {
    var classList: seq<string>

    constructor (classes: seq<string>)
      ensures classList == classes
    {
      classList := classes;
    }

    /** `applyThemeToDocument`. */
    method ApplyTheme(t: ThemeName)
      modifies this
      ensures classList == Applied(old(classList), t)
    {
      classList := WithoutThemeClasses(classList);
      classList := classList + [ClassName(t)];
    }
  }

  /** `ThemeProvider`: the current theme, with the document root it is shown on and the
      storage it is remembered in. */
  class ThemeProvider {
    var theme: ThemeName
    const root: DocumentRoot
    const store: Storage.LocalStorage

    /** The document shows the current theme and the storage remembers it. */
    ghost predicate Valid()
      reads this, root, store
    {
      && root.classList == Applied(root.classList, theme)
      && Storage.Lookup(store.items, ThemeStorageKey) == Some(ClassName(theme))
    }

    /** `persistTheme`. */
    static method PersistTheme(store: Storage.LocalStorage, t: ThemeName)
      modifies store
      ensures store.items == old(store.items)[ThemeStorageKey := ClassName(t)]
    {
      store.SetItem(ThemeStorageKey, ClassName(t));
    }

    /** The first render and its effects, in the order React runs them. The state starts as
        light; the first effect shows the initial theme and schedules it as the new state; the
        second effect, still seeing the light state of this render, shows and stores light;
        when the initial theme differs from light, the re-render runs the second effect again
        with it. Afterwards the document shows the initial theme and the storage holds it. */
    constructor (r: DocumentRoot, s: Storage.LocalStorage)
      modifies r, s
      ensures root == r && store == s
      ensures theme == InitialTheme(true, old(s.items))
      ensures r.classList == Applied(old(r.classList), theme)
      ensures s.items == old(s.items)[ThemeStorageKey := ClassName(theme)]
      ensures Valid()
    {
      theme := DefaultTheme;
      root := r;
      store := s;
      new;
      // first effect
      var initial := InitialTheme(true, store.items);
      root.ApplyTheme(initial);
      var scheduled := initial;
      // second effect, with the state of the first render
      root.ApplyTheme(theme);
      PersistTheme(store, theme);
      LastAppliedWins(old(r.classList), initial, theme);
      // the scheduled state takes effect; an unchanged state does not re-render
      if scheduled != theme {
        theme := scheduled;
        root.ApplyTheme(theme);
        PersistTheme(store, theme);
        LastAppliedWins(old(r.classList), DefaultTheme, theme);
      }
      AppliedThemeIsExclusive(old(r.classList), theme);
      LastAppliedWins(old(r.classList), theme, theme);
    }

    /** `toggleTheme`: the opposite theme becomes current, and its effect shows and stores it. */
    method ToggleTheme()
      modifies this, root, store
      ensures theme == Opposite(old(theme))
      ensures root.classList == Applied(old(root.classList), theme)
      ensures store.items == old(store.items)[ThemeStorageKey := ClassName(theme)]
      ensures Valid()
    {
      theme := Opposite(theme);
      root.ApplyTheme(theme);
      PersistTheme(store, theme);
      LastAppliedWins(old(root.classList), theme, theme);
    }

    /** `setTheme`: a different theme becomes current and its effect shows and stores it; the
        same theme changes nothing, as React skips the update and the effect. */
    method SetTheme(newTheme: ThemeName)
      modifies this, root, store
      ensures theme == newTheme
      ensures old(theme) == newTheme ==> root.classList == old(root.classList) && store.items == old(store.items)
      ensures old(theme) != newTheme ==>
        && root.classList == Applied(old(root.classList), theme)
        && store.items == old(store.items)[ThemeStorageKey := ClassName(theme)]
      ensures old(Valid()) ==> Valid()
    {
      if newTheme != theme {
        theme := newTheme;
        root.ApplyTheme(theme);
        PersistTheme(store, theme);
        LastAppliedWins(old(root.classList), theme, theme);
      }
    }
  }
}
