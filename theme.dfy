/**
 * Theme persistence of the web app: the validated read and the write of the
 * stored theme, the theme cookie, the system preference, the `data-theme`
 * attribute of the root element, and the two places that use them, the
 * server layout (which reads the cookie) and the theme switcher.
 */
module ThemePersistence {
  import opened Wrappers
  import JsText

  datatype Theme = Light | Dark | Auto

  function Name(t: Theme): string {
    match t
    case Light => "light"
    case Dark => "dark"
    case Auto => "auto"
  }

  const ThemeKey: string := "repaso:theme"
  const ThemeCookie: string := "repaso:theme"

  /** `val === 'light' || val === 'dark' || val === 'auto'`: a value is a
      theme only when it is exactly one of the three names. */
  function Parse(v: string): (r: Option<Theme>)
    ensures r.Some? ==> Name(r.value) == v
    ensures r.None? ==> forall t :: Name(t) != v
  {
    if v == "light" then Some(Light)
    else if v == "dark" then Some(Dark)
    else if v == "auto" then Some(Auto)
    else None
  }

  lemma ParseName(t: Theme)
    ensures Parse(Name(t)) == Some(t)
  {
  }

  /** What the code tests of its surroundings: `typeof window`,
      `typeof document`, whether `localStorage` access throws, whether
      `window.matchMedia` exists and what the colour-scheme query answers. */
  datatype Env = Env(
    hasWindow: bool,
    hasDocument: bool,
    storageReadThrows: bool,
    storageWriteThrows: bool,
    matchMedia: bool,
    prefersDark: bool)

  /** What the code changes: `localStorage`, the cookie jar and the root's
      `data-theme` attribute (`None` when absent). */
  datatype Store = Store(storage: map<string, string>, cookies: map<string, string>, dataTheme: Option<string>)

  // ---------------------------------------------------------------------
  // The functions of theme.ts on values
  // ---------------------------------------------------------------------

  /** `getStoredTheme()`: the stored value when it names a theme; `null`
      without a window, when storage throws, or for any other value. */
  function StoredTheme(env: Env, st: Store): (r: Option<Theme>)
    ensures r.Some? ==> env.hasWindow && !env.storageReadThrows
                        && ThemeKey in st.storage && st.storage[ThemeKey] == Name(r.value)
    ensures r.None? && env.hasWindow && !env.storageReadThrows && ThemeKey in st.storage ==>
      forall t :: Name(t) != st.storage[ThemeKey]
  {
    if !env.hasWindow || env.storageReadThrows || ThemeKey !in st.storage then None
    else Parse(st.storage[ThemeKey])
  }

  /** `setStoredTheme(theme)`. */
  function WithStoredTheme(env: Env, st: Store, t: Theme): Store {
    if env.hasWindow && !env.storageWriteThrows then st.(storage := st.storage[ThemeKey := Name(t)]) else st
  }

  /** After `setStoredTheme(t)` in a window whose storage works,
      `getStoredTheme()` gives `t` back; nothing but that one entry changes. */
  lemma SetThenGet(env: Env, st: Store, t: Theme)
    requires env.hasWindow && !env.storageReadThrows && !env.storageWriteThrows
    ensures StoredTheme(env, WithStoredTheme(env, st, t)) == Some(t)
    ensures forall k :: k in st.storage && k != ThemeKey ==>
      k in WithStoredTheme(env, st, t).storage && WithStoredTheme(env, st, t).storage[k] == st.storage[k]
  {
    ParseName(t);
  }

  /** `60 * 60 * 24 * 365`: one year in seconds. */
  const MaxAge: nat := 60 * 60 * 24 * 365

  /** The attributes after the cookie's value: every path, for `MaxAge` seconds. */
  const CookieAttributes: string := " Path=/; Max-Age=" + JsText.Decimal(MaxAge)

  /** The string assigned to `document.cookie`. */
  function CookieString(t: Theme): string {
    ThemeCookie + "=" + Name(t) + ";" + CookieAttributes
  }

  /** One year in seconds is written `31536000`. */
  lemma MaxAgeDigits()
    ensures JsText.Decimal(MaxAge) == "31536000"
  {
    assert MaxAge == 31536000;
    assert JsText.Decimal(3) == "3";
    JsText.DecimalStep(3, 1, "3");
    JsText.DecimalStep(31, 5, "31");
    JsText.DecimalStep(315, 3, "315");
    JsText.DecimalStep(3153, 6, "3153");
    JsText.DecimalStep(31536, 0, "31536");
    JsText.DecimalStep(315360, 0, "315360");
    JsText.DecimalStep(3153600, 0, "3153600");
  }

  /** The cookie is `repaso:theme=<t>; Path=/; Max-Age=31536000`: the theme's
      name under the theme key, on every path, for one year. */
  lemma CookieStringIs(t: Theme)
    ensures CookieString(t) == "repaso:theme" + "=" + Name(t) + ";" + " Path=/; Max-Age=" + "31536000"
  {
    MaxAgeDigits();
  }

  /** The part of `s` before the first `c` (all of `s` when there is none). */
  function Before(s: string, c: char): (r: string)
    ensures |r| <= |s| && r == s[..|r|] && c !in r
    decreases |s|
  {
    if s == [] || s[0] == c then [] else [s[0]] + Before(s[1..], c)
  }

  /** The part of `s` after the first `c` (empty when there is none). */
  function After(s: string, c: char): (r: string)
    ensures |r| <= |s|
    decreases |s|
  {
    if s == [] then [] else if s[0] == c then s[1..] else After(s[1..], c)
  }

  /** What assigning a string to `document.cookie` stores: the name before
      the first `=` and the value up to the first `;`, attributes dropped
      (section 5.2 of RFC 6265, for a string without surrounding blanks). */
  function CookiePair(s: string): (string, string) {
    (Before(s, '='), Before(After(s, '='), ';'))
  }

  /** Splitting at the first `c` of `a + [c] + b` when `a` holds no `c`. */
  lemma {:induction false} SplitAtFirst(a: string, c: char, b: string)
    requires c !in a
    ensures Before(a + [c] + b, c) == a && After(a + [c] + b, c) == b
    decreases |a|
  {
    var s := a + [c] + b;
    if a == [] {
      assert s[1..] == b;
    } else {
      assert s[0] == a[0] && s[1..] == a[1..] + [c] + b;
      SplitAtFirst(a[1..], c, b);
    }
  }

  /** A cookie string `name=value;...` stores `value` under `name` when the
      name holds no `=` and the value no `;`. */
  lemma CookiePairOf(name: string, value: string, rest: string)
    requires '=' !in name && ';' !in value
    ensures CookiePair(name + "=" + value + ";" + rest) == (name, value)
  {
    var s := name + "=" + value + ";" + rest;
    assert s == name + ['='] + (value + [';'] + rest);
    SplitAtFirst(name, '=', value + [';'] + rest);
    SplitAtFirst(value, ';', rest);
  }

  /** The theme cookie string stores the theme's name under `repaso:theme`. */
  lemma CookiePairOfCookieString(t: Theme)
    ensures CookiePair(CookieString(t)) == (ThemeCookie, Name(t))
  {
    assert forall k :: 0 <= k < |ThemeCookie| ==> ThemeCookie[k] != '=';
    assert forall k :: 0 <= k < |Name(t)| ==> Name(t)[k] != ';';
    CookiePairOf(ThemeCookie, Name(t), CookieAttributes);
  }

  /** `setThemeCookie(theme)`: without a document nothing happens. */
  function WithCookie(env: Env, st: Store, t: Theme): Store {
    if env.hasDocument then
      var (name, value) := CookiePair(CookieString(t));
      st.(cookies := st.cookies[name := value])
    else st
  }

  /** `getSystemTheme()`. */
  function SystemTheme(env: Env): (r: Theme)
    ensures r != Auto
    ensures !env.hasWindow ==> r == Light
    ensures env.hasWindow ==> (r == Dark <==> env.matchMedia && env.prefersDark)
  {
    if !env.hasWindow then Light
    else if env.matchMedia && env.prefersDark then Dark
    else Light
  }

  /** The attribute `applyTheme` leaves: the name for light and dark, none for auto. */
  function AttributeFor(t: Theme): (r: Option<string>)
    ensures r.Some? <==> t != Auto
    ensures r.Some? ==> r.value == Name(t)
  {
    match t
    case Light => Some(Name(t))
    case Dark => Some(Name(t))
    case Auto => None
  }

  /** `applyTheme(theme)`: without a document nothing happens. */
  function Applied(env: Env, st: Store, t: Theme): Store {
    if env.hasDocument then st.(dataTheme := AttributeFor(t)) else st
  }

  /** Applying a theme twice is applying it once, and only the attribute changes. */
  lemma ApplyIdempotent(env: Env, st: Store, t: Theme)
    ensures Applied(env, Applied(env, st, t), t) == Applied(env, st, t)
    ensures Applied(env, st, t).(dataTheme := st.dataTheme) == st
    ensures env.hasDocument ==> Applied(env, st, t).dataTheme == AttributeFor(t)
  {
  }

  /** `initThemeFromStorage()`: the stored theme, or auto, applied and returned. */
  function InitTheme(env: Env, st: Store): (Theme, Store) {
    var t := StoredTheme(env, st).GetOr(Auto);
    (t, Applied(env, st, t))
  }

  /** The initial theme is the stored one or auto, and the attribute is
      what `applyTheme` of it leaves. */
  lemma InitThemeResult(env: Env, st: Store)
    ensures var (t, n) := InitTheme(env, st);
      && (StoredTheme(env, st).Some? ==> t == StoredTheme(env, st).value)
      && (StoredTheme(env, st).None? ==> t == Auto)
      && n == Applied(env, st, t)
      && (env.hasDocument ==> n.dataTheme == AttributeFor(t))
      && n.storage == st.storage && n.cookies == st.cookies
  {
  }

  // ---------------------------------------------------------------------
  // The server layout and the switcher
  // ---------------------------------------------------------------------

  /** The layout's `data-theme`: the cookie value when it is `light` or
      `dark`, otherwise no attribute. */
  function ServerTheme(cookies: map<string, string>): Option<string> {
    if ThemeCookie in cookies && (cookies[ThemeCookie] == "light" || cookies[ThemeCookie] == "dark")
    then Some(cookies[ThemeCookie]) else None
  }

  /** The server sets the attribute `applyTheme` would set for the theme the
      cookie names, and none for auto, a missing cookie or any other value. */
  lemma ServerThemeAgreesWithApply(cookies: map<string, string>)
    ensures ThemeCookie in cookies && Parse(cookies[ThemeCookie]).Some? ==>
      ServerTheme(cookies) == AttributeFor(Parse(cookies[ThemeCookie]).value)
    ensures ThemeCookie !in cookies || Parse(cookies[ThemeCookie]).None? ==>
      ServerTheme(cookies) == AttributeFor(Auto)
  {
  }

  /** After the browser stored the cookie for `t`, the server renders the
      attribute that `applyTheme(t)` sets. */
  lemma ServerSeesCookieTheme(env: Env, st: Store, t: Theme)
    requires env.hasDocument
    ensures ServerTheme(WithCookie(env, st, t).cookies) == AttributeFor(t)
  {
    CookiePairOfCookieString(t);
  }

  /** The switcher's `handleChange(value)` on the stored data. */
  function SwitcherChanged(env: Env, st: Store, v: Theme): Store {
    Applied(env, WithCookie(env, WithStoredTheme(env, st, v), v), v)
  }

  /** After a change to `v` the stored value, the cookie and the attribute all
      agree with `v` (each where the surroundings allow the write). */
  lemma SwitcherChangeAgrees(env: Env, st: Store, v: Theme)
    ensures var n := SwitcherChanged(env, st, v);
      && (env.hasWindow && !env.storageReadThrows && !env.storageWriteThrows ==> StoredTheme(env, n) == Some(v))
      && (env.hasDocument ==> ThemeCookie in n.cookies && n.cookies[ThemeCookie] == Name(v))
      && (env.hasDocument ==> n.dataTheme == AttributeFor(v))
      && (env.hasDocument ==> ServerTheme(n.cookies) == AttributeFor(v))
  {
    if env.hasWindow && !env.storageReadThrows && !env.storageWriteThrows {
      SetThenGet(env, st, v);
    }
    CookiePairOfCookieString(v);
    if env.hasDocument {
      ServerSeesCookieTheme(env, WithStoredTheme(env, st, v), v);
    }
  }

  // ---------------------------------------------------------------------
  // The browser and the switcher component as objects
  // ---------------------------------------------------------------------

  /** The page's `localStorage`, cookie jar and root element. */
  class Browser {
    const env: Env
    var storage: map<string, string>
    var cookies: map<string, string>
    var dataTheme: Option<string>

    function Contents(): Store
      reads this
    {
      Store(storage, cookies, dataTheme)
    }

    constructor (env: Env, initial: Store)
      ensures this.env == env && Contents() == initial
    {
      this.env := env;
      storage := initial.storage;
      cookies := initial.cookies;
      dataTheme := initial.dataTheme;
    }

    method GetStoredTheme() returns (r: Option<Theme>)
      ensures r == StoredTheme(env, Contents())
    {
      if !env.hasWindow || env.storageReadThrows {
        return None;
      }
      if ThemeKey !in storage {
        return None;
      }
      var val := storage[ThemeKey];
      if val == "light" || val == "dark" || val == "auto" {
        return Parse(val);
      }
      return None;
    }

    method SetStoredTheme(t: Theme)
      modifies this
      ensures Contents() == WithStoredTheme(env, old(Contents()), t)
    {
      if env.hasWindow && !env.storageWriteThrows {
        storage := storage[ThemeKey := Name(t)];
      }
    }

    method SetThemeCookie(t: Theme)
      modifies this
      ensures Contents() == WithCookie(env, old(Contents()), t)
    {
      if !env.hasDocument {
        return;
      }
      var (name, value) := CookiePair(CookieString(t));
      cookies := cookies[name := value];
    }

    method GetSystemTheme() returns (r: Theme)
      ensures r == SystemTheme(env)
    {
      if !env.hasWindow {
        return Light;
      }
      r := if env.matchMedia && env.prefersDark then Dark else Light;
    }

    method ApplyTheme(t: Theme)
      modifies this
      ensures Contents() == Applied(env, old(Contents()), t)
    {
      if !env.hasDocument {
        return;
      }
      if t == Light || t == Dark {
        dataTheme := Some(Name(t));
      } else {
        dataTheme := None;
      }
    }

    method InitThemeFromStorage() returns (t: Theme)
      modifies this
      ensures (t, Contents()) == InitTheme(env, old(Contents()))
    {
      var stored := GetStoredTheme();
      t := stored.GetOr(Auto);
      ApplyTheme(t);
    }
  }

  /** `ThemeSwitcher`: its `theme` state over the browser it runs in. */
  class ThemeSwitcher {
    var theme: Theme
    const browser: Browser

    constructor (browser: Browser)
      ensures theme == Auto && this.browser == browser
    {
      theme := Auto;
      this.browser := browser;
    }

    /** The mount effect: initialise from storage and keep the result. */
    method Mount()
      modifies this, browser
      ensures (theme, browser.Contents()) == InitTheme(browser.env, old(browser.Contents()))
    {
      var t := browser.InitThemeFromStorage();
      theme := t;
    }

    /** `handleChange(value)`. */
    method HandleChange(value: Theme)
      modifies this, browser
      ensures theme == value
      ensures browser.Contents() == SwitcherChanged(browser.env, old(browser.Contents()), value)
    {
      theme := value;
      browser.SetStoredTheme(value);
      browser.SetThemeCookie(value);
      browser.ApplyTheme(value);
    }
  }
}
