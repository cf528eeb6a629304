/**
 * The theme record: a per-mode colour for each palette key, identity and
 * display fields, and the optional dark-mode flag; with its JSON form as the
 * cache and the server carry it.
 */
module ThemeTypes {
  import opened Wrappers
  import opened Json

  /** One palette colour: its light-mode and dark-mode values. */
  datatype ColorConfig = ColorConfig(light: string, dark: string)

  /** `ThemeConfig` (and `FallbackTheme`, which adds `isDefault`). */
  datatype ThemeConfig = ThemeConfig(
    id: string,
    name: string,
    displayName: Option<string>,
    description: Option<string>,
    colors: map<string, ColorConfig>,
    isDarkMode: Option<bool>,
    createdAt: Option<string>,
    updatedAt: Option<string>,
    isDefault: Option<bool>)

  /** The 19 keys of `ColorPalette`, in declaration order. */
  const PaletteKeys: seq<string> := [
    "primary", "primaryAlt", "secondary", "secondaryAlt",
    "success", "warning", "error", "info",
    "background", "surface", "surfaceVariant", "border", "borderLight",
    "text", "textSecondary", "textTertiary", "textInverse",
    "accent", "accentAlt"
  ]

  /** A palette with an entry for every required key. */
  predicate HasAllKeys<V>(colors: map<string, V>) {
    forall k :: 0 <= k < |PaletteKeys| ==> PaletteKeys[k] in colors
  }

  /** `{ light, dark }` as a JSON object. */
  function ColorToJson(c: ColorConfig): Json {
    JObj(map["light" := JStr(c.light), "dark" := JStr(c.dark)])
  }

  /** A JSON colour entry with string `light` and `dark` members. */
  function ColorFromJson(v: Json): Option<ColorConfig> {
    if v.JObj? && "light" in v.fields && "dark" in v.fields
      && v.fields["light"].JStr? && v.fields["dark"].JStr?
    then Some(ColorConfig(v.fields["light"].s, v.fields["dark"].s))
    else None
  }

  /** `m` with `key` set when the optional field has a value. */
  function WithString(m: map<string, Json>, key: string, value: Option<string>): map<string, Json> {
    if value.Some? then m[key := JStr(value.value)] else m
  }

  function WithBool(m: map<string, Json>, key: string, value: Option<bool>): map<string, Json> {
    if value.Some? then m[key := JBool(value.value)] else m
  }

  /** The optional members that are present, each as its JSON value. */
  function OptionalMembers(t: ThemeConfig): map<string, Json> {
    WithBool(WithString(WithString(WithBool(WithString(WithString(map[],
      "displayName", t.displayName), "description", t.description), "isDarkMode", t.isDarkMode),
      "createdAt", t.createdAt), "updatedAt", t.updatedAt), "isDefault", t.isDefault)
  }

  /** `JSON.stringify(theme)`, seen as the value `JSON.parse` gives back; absent fields are left out. */
  function ToJson(t: ThemeConfig): Json {
    JObj(OptionalMembers(t)["id" := JStr(t.id)]["name" := JStr(t.name)]
         ["colors" := JObj(map k | k in t.colors :: ColorToJson(t.colors[k]))])
  }

  /** An optional string member: its value when it is a string. */
  function OptString(m: map<string, Json>, key: string): Option<string> {
    if key in m && m[key].JStr? then Some(m[key].s) else None
  }

  /**
   * An optional flag member, read the way the theme code tests it (`if
   * (theme.isDarkMode)`, `theme.isDarkMode || false`): present means its
   * truthiness, so `1` and `"true"` are on and `0`, `""` and `null` off.
   */
  function OptFlag(m: map<string, Json>, key: string): (r: Option<bool>)
    ensures r.Some? <==> key in m
    ensures r == Some(true) <==> key in m && Truthy(m[key])
  {
    if key in m then Some(Truthy(m[key])) else None
  }

  /** The members that make a JSON value a theme: string `id` and `name`, and a `colors` object. */
  predicate HasThemeShape(v: Json) {
    v.JObj? && "id" in v.fields && v.fields["id"].JStr? && "name" in v.fields && v.fields["name"].JStr?
    && "colors" in v.fields && v.fields["colors"].JObj?
  }

  /**
   * A JSON value read as a theme: it needs the theme shape, and every colour
   * entry must be a `{ light, dark }` pair of strings.
   */
  function FromJson(v: Json): (r: Option<ThemeConfig>)
    ensures r.Some? ==> HasThemeShape(v) && r.value.colors.Keys == v.fields["colors"].fields.Keys
    ensures r.Some? ==> (r.value.isDarkMode == Some(true) <==> "isDarkMode" in v.fields && Truthy(v.fields["isDarkMode"]))
    ensures r.Some? ==> (r.value.isDefault == Some(true) <==> "isDefault" in v.fields && Truthy(v.fields["isDefault"]))
  {
    if !HasThemeShape(v) then None
    else
      var m := v.fields;
      var cs := m["colors"].fields;
      if exists k :: k in cs && ColorFromJson(cs[k]).None? then None
      else Some(ThemeConfig(
        m["id"].s, m["name"].s, OptString(m, "displayName"), OptString(m, "description"),
        map k | k in cs :: ColorFromJson(cs[k]).value,
        OptFlag(m, "isDarkMode"), OptString(m, "createdAt"), OptString(m, "updatedAt"),
        OptFlag(m, "isDefault")))
  }

  /** A colour read back from its own JSON form is the same colour. */
  lemma ColorFromToJson(c: ColorConfig)
    ensures ColorFromJson(ColorToJson(c)) == Some(c)
  {
  }

  /** The required members of a theme's JSON form. */
  lemma ToJsonRequired(t: ThemeConfig)
    ensures var m := ToJson(t).fields;
      m["id"] == JStr(t.id) && m["name"] == JStr(t.name)
  {
  }

  lemma ToJsonColors(t: ThemeConfig)
    ensures ToJson(t).fields["colors"] == JObj(map k | k in t.colors :: ColorToJson(t.colors[k]))
  {
  }

  /** Each optional member of a theme's JSON form reads back as the field it came from. */
  lemma ToJsonDisplayName(t: ThemeConfig)
    ensures OptString(ToJson(t).fields, "displayName") == t.displayName
  {
  }

  lemma ToJsonDescription(t: ThemeConfig)
    ensures OptString(ToJson(t).fields, "description") == t.description
  {
  }

  lemma ToJsonDarkMode(t: ThemeConfig)
    ensures OptFlag(ToJson(t).fields, "isDarkMode") == t.isDarkMode
  {
  }

  lemma ToJsonCreatedAt(t: ThemeConfig)
    ensures OptString(ToJson(t).fields, "createdAt") == t.createdAt
  {
  }

  lemma ToJsonUpdatedAt(t: ThemeConfig)
    ensures OptString(ToJson(t).fields, "updatedAt") == t.updatedAt
  {
  }

  lemma ToJsonIsDefault(t: ThemeConfig)
    ensures OptFlag(ToJson(t).fields, "isDefault") == t.isDefault
  {
  }

  /** A theme read back from its own JSON form is the same theme. */
  lemma FromToJson(t: ThemeConfig)
    ensures FromJson(ToJson(t)) == Some(t)
  {
    var v := ToJson(t);
    ToJsonRequired(t);
    ToJsonColors(t);
    ToJsonDisplayName(t);
    ToJsonDescription(t);
    ToJsonDarkMode(t);
    ToJsonCreatedAt(t);
    ToJsonUpdatedAt(t);
    ToJsonIsDefault(t);
    var cs := v.fields["colors"].fields;
    forall k | k in cs
      ensures ColorFromJson(cs[k]) == Some(t.colors[k])
    {
      ColorFromToJson(t.colors[k]);
    }
    var colors := map k | k in cs :: ColorFromJson(cs[k]).value;
    assert colors == t.colors;
  }
}
