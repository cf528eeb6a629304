/**
 * The theme API client: the strict theme check, the fetch that always ends
 * in a usable theme, the browser cache of the current theme, the shared
 * instance and the theme update call. The network is a parameter: each call
 * takes the outcome the server produced.
 */
module ThemeApi {
  import opened Wrappers
  import opened JsText
  import opened Json
  import opened ThemeTypes
  import DefaultTheme

  /** `API_BASE_URL`: the configured URL when it is non-empty, else the local development server. */
  function ApiBaseUrl(configured: Option<string>): (url: string)
    ensures configured.Some? && configured.value != "" ==> url == configured.value
    ensures !(configured.Some? && configured.value != "") ==> url == "http://localhost:3001/api"
  {
    if configured.Some? && configured.value != "" then configured.value else "http://localhost:3001/api"
  }

  /** `API_ENDPOINTS.THEME.GET` and `API_ENDPOINTS.THEME.UPDATE`. */
  const ThemeGetPath := "/theme"
  const ThemeUpdatePath := "/theme"

  /** The cache key. */
  const CacheKey := "theme:config"

  /** A parsed response body: a JSON value, or text that `response.json()` rejects. */
  datatype Body = Parsed(value: Json) | Unparsable

  /** What a request came back with: a response, or a failure (network error or timeout). */
  datatype HttpOutcome = Responded(ok: bool, status: int, body: Body) | Failed(reason: string)

  /** A stored localStorage entry: the serialisation of a JSON value, or other text. */
  datatype StoredText = JsonText(value: Json) | OtherText(text: string)

  /**
   * `isValidTheme(theme)`: a non-null object with string `id` and `name`
   * and a non-null `colors` object that has all 19 palette keys.
   */
  predicate IsValidTheme(v: Json) {
    v.JObj? && Get(v, "id").value.JStr? && Get(v, "name").value.JStr?
    && var colors := Get(v, "colors").value;
      (colors.JObj? || colors.JArr?)
      && forall k :: 0 <= k < |PaletteKeys| ==> HasKey(colors, PaletteKeys[k])
  }

  /** The strict check accepts a theme's JSON form exactly when its palette is complete. */
  lemma ValidIffComplete(t: ThemeConfig)
    ensures IsValidTheme(ToJson(t)) <==> HasAllKeys(t.colors)
  {
    ToJsonRequired(t);
    ToJsonColors(t);
  }

  /** The strict check implies the lenient one of the default-theme module; the converse fails. */
  lemma StrictImpliesLenient(v: Json)
    ensures IsValidTheme(v) ==> DefaultTheme.IsValidTheme(v)
    ensures var empty := JObj(map["id" := JStr("x"), "name" := JStr("x"), "colors" := JObj(map[])]);
      DefaultTheme.IsValidTheme(empty) && !IsValidTheme(empty)
  {
    var empty := JObj(map["id" := JStr("x"), "name" := JStr("x"), "colors" := JObj(map[])]);
    assert !HasKey(Get(empty, "colors").value, PaletteKeys[0]);
  }

  /** A value that passes the check and whose colour entries are `{ light, dark }` string pairs, as a theme. */
  function AcceptedTheme(v: Json): (r: Option<ThemeConfig>)
    ensures r.Some? ==> IsValidTheme(v) && HasAllKeys(r.value.colors)
  {
    if IsValidTheme(v) then FromJson(v) else None
  }

  /** The store id a fetch uses: a non-empty explicit one, else what `getStoreId()` returns. */
  function FinalStoreId(explicit: Option<string>, fromReader: Option<string>): Option<string> {
    if explicit.Some? && explicit.value != "" then explicit else fromReader
  }

  /** A theme endpoint, with `?store_id=<encoded>` exactly when the store id is non-empty. */
  function ThemeEndpoint(baseURL: string, path: string, storeId: Option<string>): (url: string)
    ensures storeId.Some? && storeId.value != "" ==>
      url == baseURL + path + "?store_id=" + EncodeURIComponent(storeId.value)
    ensures !(storeId.Some? && storeId.value != "") ==> url == baseURL + path
  {
    if storeId.Some? && storeId.value != "" then baseURL + path + "?store_id=" + EncodeURIComponent(storeId.value)
    else baseURL + path
  }

  /** Over a base URL without a query, the endpoint has a query exactly when the store id is non-empty, and the id cannot add a second parameter. */
  lemma EndpointQueryIff(baseURL: string, path: string, storeId: Option<string>)
    requires '?' !in baseURL + path
    ensures var url := ThemeEndpoint(baseURL, path, storeId);
      ('?' in url <==> storeId.Some? && storeId.value != "")
      && (storeId.Some? && storeId.value != "" ==> '&' !in url[|baseURL + path| + 10..])
  {
    var url := ThemeEndpoint(baseURL, path, storeId);
    if storeId.Some? && storeId.value != "" {
      var enc := EncodeURIComponent(storeId.value);
      assert url == (baseURL + path) + "?store_id=" + enc;
      assert url[|baseURL + path|] == '?';
      assert url[|baseURL + path| + 10..] == enc;
      EncodedIsQuerySafe(storeId.value);
    }
  }

  /**
   * The theme `fetchTheme` resolves to: the served theme when the body's
   * `success` is truthy and its `data` passes the check; the default theme
   * on a failed request, a non-ok status, an unreadable or null body, or an
   * invalid theme.
   */
  function FetchedTheme(outcome: HttpOutcome, loadedAt: string): ThemeConfig {
    match outcome
    case Failed(_) => DefaultTheme.DefaultTheme(loadedAt)
    case Responded(ok, _, body) =>
      if !ok || body.Unparsable? then DefaultTheme.DefaultTheme(loadedAt)
      else match Get(body.value, "success")
        case Err(_) => DefaultTheme.DefaultTheme(loadedAt)
        case Ok(success) =>
          var data := Get(body.value, "data").value;
          if Truthy(success) && AcceptedTheme(data).Some? then AcceptedTheme(data).value
          else DefaultTheme.DefaultTheme(loadedAt)
  }

  /** `fetchTheme` never fails: the result is the served theme only on success with a valid body, else the default. */
  lemma FetchNeverFails(outcome: HttpOutcome, loadedAt: string)
    ensures var t := FetchedTheme(outcome, loadedAt);
      HasAllKeys(t.colors)
      && (outcome.Failed? || !outcome.ok || outcome.body.Unparsable? ==> t == DefaultTheme.DefaultTheme(loadedAt))
      && (t != DefaultTheme.DefaultTheme(loadedAt) ==>
            outcome.Responded? && outcome.ok && outcome.body.Parsed?
            && Truthy(Get(outcome.body.value, "success").value)
            && IsValidTheme(Get(outcome.body.value, "data").value))
  {
    DefaultTheme.DefaultThemeComplete(loadedAt);
  }

  /** A served theme that passes the check, under a truthy `success`, is what the fetch returns. */
  lemma FetchReturnsServedTheme(t: ThemeConfig, loadedAt: string, status: int, success: Json, rest: map<string, Json>)
    requires HasAllKeys(t.colors) && Truthy(success)
    ensures FetchedTheme(Responded(true, status, Parsed(JObj(rest["success" := success]["data" := ToJson(t)]))), loadedAt) == t
  {
    var body := JObj(rest["success" := success]["data" := ToJson(t)]);
    assert Get(body, "success") == Ok(success);
    assert Get(body, "data") == Ok(ToJson(t));
    ValidIffComplete(t);
    FromToJson(t);
  }

  /** The result of `updateTheme`: false on a failed request, a non-ok status or an unreadable or null body; else the body's `success`. */
  function UpdateResult(outcome: HttpOutcome): (r: Json)
    ensures outcome.Failed? || !outcome.ok || outcome.body.Unparsable? ==> r == JBool(false)
    ensures outcome.Responded? && outcome.ok && outcome.body.Parsed? && Get(outcome.body.value, "success").Ok?
      ==> r == Get(outcome.body.value, "success").value
  {
    match outcome
    case Failed(_) => JBool(false)
    case Responded(ok, _, body) =>
      if !ok || body.Unparsable? then JBool(false)
      else match Get(body.value, "success")
        case Err(_) => JBool(false)
        case Ok(success) => success
  }

  /** The request `updateTheme` sends: a PUT of the theme's JSON form to the update endpoint. */
  datatype UpdateRequest = UpdateRequest(url: string, body: Json)

  class ThemeService {
    const baseURL: string
    /** The browser's localStorage. */
    var storage: map<string, StoredText>

    constructor (baseURL: string, storage: map<string, StoredText>)
      ensures this.baseURL == baseURL && this.storage == storage
    {
      this.baseURL := baseURL;
      this.storage := storage;
    }

    /** The URL `fetchTheme` requests, given the explicit store id and what `getStoreId()` returns. */
    function FetchUrl(explicitStoreId: Option<string>, readerStoreId: Option<string>): (url: string)
      ensures explicitStoreId.Some? && explicitStoreId.value != "" ==>
        url == baseURL + "/theme" + "?store_id=" + EncodeURIComponent(explicitStoreId.value)
      ensures !(explicitStoreId.Some? && explicitStoreId.value != "") && readerStoreId.Some? && readerStoreId.value != "" ==>
        url == baseURL + "/theme" + "?store_id=" + EncodeURIComponent(readerStoreId.value)
      ensures !(explicitStoreId.Some? && explicitStoreId.value != "") && !(readerStoreId.Some? && readerStoreId.value != "") ==>
        url == baseURL + "/theme"
    {
      ThemeEndpoint(baseURL, ThemeGetPath, FinalStoreId(explicitStoreId, readerStoreId))
    }

    /** `updateTheme(theme)`: the request it sends, and what it resolves to for the server's answer. */
    function UpdateTheme(t: ThemeConfig, readerStoreId: Option<string>, outcome: HttpOutcome): (r: (UpdateRequest, Json))
      ensures r.0 == UpdateRequest(ThemeEndpoint(baseURL, ThemeUpdatePath, readerStoreId), ToJson(t))
      ensures r.1 == UpdateResult(outcome)
    {
      (UpdateRequest(ThemeEndpoint(baseURL, ThemeUpdatePath, readerStoreId), ToJson(t)), UpdateResult(outcome))
    }

    /** `getCachedTheme()`: the stored theme when there is one that parses and passes the check, else null. */
    function GetCachedTheme(): (r: Option<ThemeConfig>)
      reads this
      ensures r.Some? ==> CacheKey in storage && storage[CacheKey].JsonText? && IsValidTheme(storage[CacheKey].value)
    {
      if CacheKey in storage && storage[CacheKey].JsonText? then AcceptedTheme(storage[CacheKey].value) else None
    }

    /** `cacheTheme(theme)`: store the theme's JSON form under the cache key. */
    method CacheTheme(t: ThemeConfig)
      modifies this
      ensures storage == old(storage)[CacheKey := JsonText(ToJson(t))]
      ensures GetCachedTheme() == (if HasAllKeys(t.colors) then Some(t) else None)
    {
      storage := storage[CacheKey := JsonText(ToJson(t))];
      ValidIffComplete(t);
      FromToJson(t);
    }

    /** `clearCache()`: remove the cache key; nothing is cached afterwards. */
    method ClearCache()
      modifies this
      ensures storage == old(storage) - {CacheKey}
      ensures GetCachedTheme().None?
    {
      storage := storage - {CacheKey};
    }
  }

  /** The holder of the shared instance (`ThemeService.instance`). */
  class Registry {
    var instance: ThemeService?

    constructor ()
      ensures instance == null
    {
      instance := null;
    }

    /**
     * `getInstance(baseURL)`: the first call creates the instance, with the
     * given URL or else `API_BASE_URL`; every later call returns that same
     * instance and ignores its arguments.
     */
    method GetInstance(baseURL: Option<string>, configured: Option<string>, storage: map<string, StoredText>)
      returns (s: ThemeService)
      modifies this
      ensures old(instance) != null ==> s == old(instance)
      ensures old(instance) == null ==> fresh(s) && s.baseURL == baseURL.GetOr(ApiBaseUrl(configured))
      ensures instance == s
    {
      if instance == null {
        instance := new ThemeService(baseURL.GetOr(ApiBaseUrl(configured)), storage);
      }
      s := instance;
    }
  }
}
