/**
 * The built-in fallback theme, per-mode colour selection, the CSS custom
 * properties a theme defines, their application to the document root, and
 * this file's lenient theme check.
 */
module DefaultTheme {
  import opened Wrappers
  import opened Json
  import opened ThemeTypes

  /** The palette of `DEFAULT_THEME`. */
  const DefaultPalette: map<string, ColorConfig> := map[
    "primary" := ColorConfig("#2563eb", "#3b82f6"),
    "primaryAlt" := ColorConfig("#1e40af", "#1e3a8a"),
    "secondary" := ColorConfig("#9333ea", "#a855f7"),
    "secondaryAlt" := ColorConfig("#7e22ce", "#6d28d9"),
    "success" := ColorConfig("#16a34a", "#22c55e"),
    "warning" := ColorConfig("#ea580c", "#f97316"),
    "error" := ColorConfig("#dc2626", "#ef4444"),
    "info" := ColorConfig("#0891b2", "#06b6d4"),
    "background" := ColorConfig("#ffffff", "#09090b"),
    "surface" := ColorConfig("#f8fafc", "#18181b"),
    "surfaceVariant" := ColorConfig("#f1f5f9", "#27272a"),
    "border" := ColorConfig("#e2e8f0", "#3f3f46"),
    "borderLight" := ColorConfig("#f1f5f9", "#52525b"),
    "text" := ColorConfig("#09090b", "#fafafa"),
    "textSecondary" := ColorConfig("#52525b", "#d4d4d8"),
    "textTertiary" := ColorConfig("#71717a", "#a1a1aa"),
    "textInverse" := ColorConfig("#fafafa", "#09090b"),
    "accent" := ColorConfig("#06b6d4", "#0891b2"),
    "accentAlt" := ColorConfig("#14b8a6", "#0d9488")
  ]

  /**
   * `DEFAULT_THEME`; both timestamps are the moment the module was loaded,
   * which is a parameter here.
   */
  function DefaultTheme(loadedAt: string): ThemeConfig {
    ThemeConfig("default", "default", Some("Default Theme"), Some("Default fallback theme"),
      DefaultPalette, Some(false), Some(loadedAt), Some(loadedAt), Some(true))
  }

  /** The default theme defines every palette key and nothing else, in light mode. */
  lemma DefaultThemeComplete(loadedAt: string)
    ensures var t := DefaultTheme(loadedAt);
      HasAllKeys(t.colors) && t.isDarkMode == Some(false)
      && forall key :: key in t.colors ==> key in PaletteKeys
  {
  }

  /** `getColorForMode(colorConfig, isDarkMode)`. */
  function GetColorForMode(c: ColorConfig, isDarkMode: bool): (r: string)
    ensures isDarkMode ==> r == c.dark
    ensures !isDarkMode ==> r == c.light
  {
    if isDarkMode then c.dark else c.light
  }

  /** `theme.isDarkMode ?? false`: a theme without the flag is in light mode. */
  function IsDark(t: ThemeConfig): bool {
    t.isDarkMode.GetOr(false)
  }

  /** The custom property that carries palette key `key`. */
  function CssVarName(key: string): string {
    "--color-" + key
  }

  /** Different palette keys have different property names. */
  lemma CssVarNameInjective(a: string, b: string)
    ensures CssVarName(a) == CssVarName(b) ==> a == b
  {
    if CssVarName(a) == CssVarName(b) {
      assert a == CssVarName(a)[8..] && b == CssVarName(b)[8..];
    }
  }

  /** A property name read back as its palette key. */
  lemma CssVarNameKey(key: string)
    ensures |CssVarName(key)| >= 8 && CssVarName(key)[8..] == key
  {
  }

  /** The property names of the given palette keys. */
  function CssNames(keys: set<string>): set<string> {
    set k | k in keys :: CssVarName(k)
  }

  /** A property name of a set of keys names one of those keys. */
  lemma CssNamesKey(keys: set<string>, name: string)
    requires name in CssNames(keys)
    ensures |name| >= 8 && name[8..] in keys && name == CssVarName(name[8..])
  {
    var k :| k in keys && name == CssVarName(k);
    CssVarNameKey(k);
  }

  /** The properties of the palette keys in `keys`: each holds its key's colour for the theme's mode. */
  function VarsFor(t: ThemeConfig, keys: set<string>): map<string, string>
    requires keys <= t.colors.Keys
  {
    map name | name in CssNames(keys) ::
      CssNamesKey(keys, name); GetColorForMode(t.colors[name[8..]], IsDark(t))
  }

  /** The properties a theme defines: one per palette key, holding the colour for the theme's mode. */
  function CssVariables(t: ThemeConfig): map<string, string> {
    VarsFor(t, t.colors.Keys)
  }

  /** Taking one more palette key adds exactly its property. */
  lemma VarsForStep(t: ThemeConfig, keys: set<string>, key: string)
    requires keys <= t.colors.Keys && key in t.colors
    ensures VarsFor(t, keys + {key}) == VarsFor(t, keys)[CssVarName(key) := GetColorForMode(t.colors[key], IsDark(t))]
  {
    CssVarNameKey(key);
    var a := VarsFor(t, keys + {key});
    var b := VarsFor(t, keys)[CssVarName(key) := GetColorForMode(t.colors[key], IsDark(t))];
    forall name | name in a
      ensures name in b
    {
      CssNamesKey(keys + {key}, name);
      if name[8..] != key {
        assert name in CssNames(keys);
      }
    }
    forall name | name in b
      ensures name in a
    {
      if name != CssVarName(key) {
        CssNamesKey(keys, name);
      }
    }
  }

  /**
   * The property "--color-" + k exists exactly for the palette keys k, holds
   * the dark colour exactly in dark mode and the light one otherwise, and
   * every property name has that form.
   */
  lemma CssVariablesSpec(t: ThemeConfig, key: string, name: string)
    ensures CssVarName(key) in CssVariables(t) <==> key in t.colors
    ensures key in t.colors ==>
      CssVariables(t)[CssVarName(key)] == (if t.isDarkMode == Some(true) then t.colors[key].dark else t.colors[key].light)
    ensures name in CssVariables(t) ==> exists k :: k in t.colors && name == CssVarName(k)
  {
    CssVarNameKey(key);
    if CssVarName(key) in CssVariables(t) {
      CssNamesKey(t.colors.Keys, CssVarName(key));
    }
  }

  /** `createCSSVariables(theme)`: the properties, filled in one palette entry at a time. */
  method CreateCSSVariables(t: ThemeConfig) returns (vars: map<string, string>)
    ensures vars == CssVariables(t)
  {
    var isDark := t.isDarkMode.GetOr(false);
    vars := map[];
    var remaining := t.colors.Keys;
    ghost var done: set<string> := {};
    while remaining != {}
      invariant remaining + done == t.colors.Keys && remaining !! done
      invariant vars == VarsFor(t, done)
      decreases |remaining|
    {
      var key :| key in remaining;
      VarsForStep(t, done, key);
      vars := vars[CssVarName(key) := GetColorForMode(t.colors[key], isDark)];
      remaining := remaining - {key};
      done := done + {key};
    }
  }

  /** The entries of `m` whose keys are in `keys`. */
  function Restrict<K, V>(m: map<K, V>, keys: set<K>): map<K, V> {
    map k | k in keys && k in m :: m[k]
  }

  /** Setting one more entry of `m` on top of `base` extends the restriction by that key. */
  lemma RestrictStep<K, V>(base: map<K, V>, m: map<K, V>, keys: set<K>, key: K)
    requires key in m
    ensures base + Restrict(m, keys + {key}) == (base + Restrict(m, keys))[key := m[key]]
  {
  }

  /** Restricting to all of its keys gives the map back. */
  lemma RestrictAll<K, V>(m: map<K, V>)
    ensures Restrict(m, m.Keys) == m
  {
  }

  /** The document root: its inline style properties and its class list. */
  class DocumentRoot {
    var style: map<string, string>
    var classList: set<string>

    constructor (classList: set<string>)
      ensures style == map[] && this.classList == classList
    {
      style := map[];
      this.classList := classList;
    }

    /** `root.style.setProperty(key, value)` for every entry of `vars`. */
    method SetProperties(vars: map<string, string>)
      modifies this
      ensures style == old(style) + vars && classList == old(classList)
    {
      var remaining := vars.Keys;
      ghost var done: set<string> := {};
      while remaining != {}
        invariant remaining + done == vars.Keys
        invariant style == old(style) + Restrict(vars, done)
        invariant classList == old(classList)
        decreases |remaining|
      {
        var key :| key in remaining;
        RestrictStep(old(style), vars, done, key);
        style := style[key := vars[key]];
        remaining := remaining - {key};
        done := done + {key};
      }
      RestrictAll(vars);
    }

    /**
     * `applyThemeToDocument(theme)`: set every property the theme defines,
     * then add the "dark" class in dark mode and remove it otherwise.
     */
    method ApplyThemeToDocument(t: ThemeConfig)
      modifies this
      ensures style == old(style) + CssVariables(t)
      ensures t.isDarkMode == Some(true) ==> classList == old(classList) + {"dark"}
      ensures t.isDarkMode != Some(true) ==> classList == old(classList) - {"dark"}
    {
      var variables := CreateCSSVariables(t);
      SetProperties(variables);
      if t.isDarkMode == Some(true) {
        classList := classList + {"dark"};
      } else {
        classList := classList - {"dark"};
      }
    }
  }

  /**
   * This file's `isValidTheme(theme)` as written: `typeof null` is "object",
   * so for `null` it goes on to read `null.id` and throws.
   */
  function IsValidThemeAsWritten(v: Json): (r: Result<bool>)
    ensures r.Err? <==> v.JNull?
  {
    if TypeOf(v) != "object" then Ok(false)
    else match Get(v, "id")
      case Err(e) => Err(e)
      case Ok(id) =>
        var name := Get(v, "name").value;
        var colors := Get(v, "colors").value;
        Ok(TypeOf(id) == "string" && TypeOf(name) == "string" && TypeOf(colors) == "object" && colors != JNull)
  }

  /**
   * `isValidTheme(theme)` as evidently intended: an object other than `null`
   * with string `id` and `name` and a non-null `colors` object; no palette
   * key is checked.
   */
  predicate IsValidTheme(v: Json) {
    v.JObj?
    && Get(v, "id").value.JStr? && Get(v, "name").value.JStr?
    && var colors := Get(v, "colors").value; colors.JObj? || colors.JArr?
  }

  /** The check throws on `null`, where the evident intent is to answer false. */
  lemma IsValidThemeThrowsOnNull()
    ensures IsValidThemeAsWritten(JNull).Err? && !IsValidTheme(JNull)
  {
  }

  /** On every other value the written check and the intended one agree. */
  lemma IsValidThemeAgreesElsewhere(v: Json)
    requires !v.JNull?
    ensures IsValidThemeAsWritten(v) == Ok(IsValidTheme(v))
  {
  }

  /** A value with a theme's shape passes the check whatever its palette holds. */
  lemma ShapeIsEnough(v: Json)
    requires HasThemeShape(v)
    ensures IsValidTheme(v)
  {
  }
}
