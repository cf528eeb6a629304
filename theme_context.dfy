/**
 * The theme provider: the current theme, the loading flag and the last
 * error, kept in step with the document root and the theme cache.
 */
module ThemeContext {
  import opened Wrappers
  import opened ThemeTypes
  import opened DefaultTheme
  import opened ThemeApi

  /** A colour mode a caller may force in `getColor`. */
  datatype Mode = Light | Dark

  /** `ThemeFetchOptions`. */
  datatype FetchOptions = FetchOptions(storeId: Option<string>, forceRefresh: bool, timeout: Option<nat>)

  /** `Partial<ThemeConfig>`: each field the update carries, or nothing. */
  datatype ThemeUpdate = ThemeUpdate(
    id: Option<string>,
    name: Option<string>,
    displayName: Option<string>,
    description: Option<string>,
    colors: Option<map<string, ColorConfig>>,
    isDarkMode: Option<bool>,
    createdAt: Option<string>,
    updatedAt: Option<string>,
    isDefault: Option<bool>)

  /** The update that carries nothing. */
  const NoUpdate := ThemeUpdate(None, None, None, None, None, None, None, None, None)

  /** `{ ...theme, ...updates }`: every field the update carries replaces the theme's. */
  function Overlay(t: ThemeConfig, u: ThemeUpdate): (r: ThemeConfig)
    ensures u.id.Some? ==> r.id == u.id.value
    ensures u.id.None? ==> r.id == t.id
    ensures u.name.Some? ==> r.name == u.name.value
    ensures u.name.None? ==> r.name == t.name
    ensures u.displayName.Some? ==> r.displayName == u.displayName
    ensures u.displayName.None? ==> r.displayName == t.displayName
    ensures u.description.Some? ==> r.description == u.description
    ensures u.description.None? ==> r.description == t.description
    ensures u.colors.Some? ==> r.colors == u.colors.value
    ensures u.colors.None? ==> r.colors == t.colors
    ensures u.isDarkMode.Some? ==> r.isDarkMode == u.isDarkMode
    ensures u.isDarkMode.None? ==> r.isDarkMode == t.isDarkMode
    ensures u.createdAt.Some? ==> r.createdAt == u.createdAt
    ensures u.createdAt.None? ==> r.createdAt == t.createdAt
    ensures u.updatedAt.Some? ==> r.updatedAt == u.updatedAt
    ensures u.updatedAt.None? ==> r.updatedAt == t.updatedAt
    ensures u.isDefault.Some? ==> r.isDefault == u.isDefault
    ensures u.isDefault.None? ==> r.isDefault == t.isDefault
  {
    ThemeConfig(
      u.id.GetOr(t.id),
      u.name.GetOr(t.name),
      if u.displayName.Some? then u.displayName else t.displayName,
      if u.description.Some? then u.description else t.description,
      u.colors.GetOr(t.colors),
      if u.isDarkMode.Some? then u.isDarkMode else t.isDarkMode,
      if u.createdAt.Some? then u.createdAt else t.createdAt,
      if u.updatedAt.Some? then u.updatedAt else t.updatedAt,
      if u.isDefault.Some? then u.isDefault else t.isDefault)
  }

  /** An empty update changes nothing. */
  lemma OverlayNothing(t: ThemeConfig)
    ensures Overlay(t, NoUpdate) == t
  {
  }

  /** Applying the same update twice is applying it once. */
  lemma OverlayIdempotent(t: ThemeConfig, u: ThemeUpdate)
    ensures Overlay(Overlay(t, u), u) == Overlay(t, u)
  {
  }

  /** An update that leaves the palette alone keeps a complete palette complete. */
  lemma OverlayKeepsPalette(t: ThemeConfig, u: ThemeUpdate)
    requires HasAllKeys(t.colors) && u.colors.None?
    ensures HasAllKeys(Overlay(t, u).colors)
  {
  }

  /** `getCSSVariable(colorName)`: a reference to the property the palette key is published under. */
  function CssVariableRef(key: string): (r: string)
    ensures r == "var(" + CssVarName(key) + ")"
  {
    "var(--color-" + key + ")"
  }

  /** Whether `getColor` reads the dark value: a forced mode wins, else the theme's flag, else light. */
  function UseDark(t: ThemeConfig, mode: Option<Mode>): (dark: bool)
    ensures mode.Some? ==> (dark <==> mode.value == Dark)
    ensures mode.None? ==> (dark <==> t.isDarkMode == Some(true))
  {
    if mode.Some? then mode.value == Dark else t.isDarkMode.GetOr(false)
  }

  /** `getColor(colorName, mode)` over a given theme state. */
  function ColorOf(theme: Option<ThemeConfig>, key: string, mode: Option<Mode>): (r: string)
    ensures theme.None? || key !in theme.value.colors ==> r == ""
    ensures theme.Some? && key in theme.value.colors ==>
      r == (if UseDark(theme.value, mode) then theme.value.colors[key].dark else theme.value.colors[key].light)
  {
    if theme.None? then ""
    else if key !in theme.value.colors then ""
    else GetColorForMode(theme.value.colors[key], UseDark(theme.value, mode))
  }

  /** Without a forced mode, `getColor` gives the value the theme's custom property holds. */
  lemma ColorMatchesCssVariable(t: ThemeConfig, key: string)
    requires key in t.colors
    ensures ColorOf(Some(t), key, None) == CssVariables(t)[CssVarName(key)]
  {
    CssVariablesSpec(t, key, CssVarName(key));
  }

  class ThemeProvider {
    var theme: Option<ThemeConfig>
    var isLoading: bool
    var error: Option<string>
    const fallbackTheme: ThemeConfig
    const fetchOnMount: bool
    const service: ThemeService
    const root: DocumentRoot

    /** The mounted provider: showing the fallback theme, loading exactly when it will fetch. */
    constructor (fallbackTheme: ThemeConfig, fetchOnMount: bool, service: ThemeService, root: DocumentRoot)
      ensures theme == Some(fallbackTheme) && isLoading == fetchOnMount && error.None?
      ensures this.fallbackTheme == fallbackTheme && this.fetchOnMount == fetchOnMount
      ensures this.service == service && this.root == root
    {
      theme := Some(fallbackTheme);
      isLoading := fetchOnMount;
      error := None;
      this.fallbackTheme := fallbackTheme;
      this.fetchOnMount := fetchOnMount;
      this.service := service;
      this.root := root;
    }

    /** `applyTheme(newTheme)`: publish it on the document, make it current and clear the error. */
    method ApplyTheme(t: ThemeConfig)
      modifies this, root
      ensures theme == Some(t) && error.None? && isLoading == old(isLoading)
      ensures root.style == old(root.style) + CssVariables(t)
      ensures t.isDarkMode == Some(true) ==> root.classList == old(root.classList) + {"dark"}
      ensures t.isDarkMode != Some(true) ==> root.classList == old(root.classList) - {"dark"}
    {
      root.ApplyThemeToDocument(t);
      theme := Some(t);
      error := None;
    }

    /** `setTheme(newTheme)`: apply it and cache it. */
    method SetTheme(t: ThemeConfig)
      modifies this, root, service
      ensures theme == Some(t) && error.None? && isLoading == old(isLoading)
      ensures root.style == old(root.style) + CssVariables(t)
      ensures t.isDarkMode == Some(true) ==> root.classList == old(root.classList) + {"dark"}
      ensures t.isDarkMode != Some(true) ==> root.classList == old(root.classList) - {"dark"}
      ensures service.storage == old(service.storage)[CacheKey := JsonText(ToJson(t))]
      ensures service.GetCachedTheme() == (if HasAllKeys(t.colors) then Some(t) else None)
    {
      ApplyTheme(t);
      service.CacheTheme(t);
    }

    /** `updateTheme(updates)`: nothing without a current theme; else set the overlaid theme. */
    method UpdateTheme(u: ThemeUpdate)
      modifies this, root, service
      ensures old(theme).None? ==>
        theme == old(theme) && error == old(error)
        && root.style == old(root.style) && root.classList == old(root.classList)
        && service.storage == old(service.storage)
      ensures old(theme).Some? ==>
        theme == Some(Overlay(old(theme).value, u)) && error.None?
        && service.storage == old(service.storage)[CacheKey := JsonText(ToJson(Overlay(old(theme).value, u)))]
      ensures old(theme).Some? ==> root.style == old(root.style) + CssVariables(Overlay(old(theme).value, u))
      ensures old(theme).Some? && Overlay(old(theme).value, u).isDarkMode == Some(true) ==>
        root.classList == old(root.classList) + {"dark"}
      ensures old(theme).Some? && Overlay(old(theme).value, u).isDarkMode != Some(true) ==>
        root.classList == old(root.classList) - {"dark"}
      ensures isLoading == old(isLoading)
    {
      if theme.None? {
        return;
      }
      SetTheme(Overlay(theme.value, u));
    }

    /** `getColor(colorName, mode)`. */
    function GetColor(key: string, mode: Option<Mode>): (r: string)
      reads this
      ensures theme.None? ==> r == ""
      ensures theme.Some? && key in theme.value.colors && mode.None? ==> r == CssVariables(theme.value)[CssVarName(key)]
    {
      if theme.Some? && key in theme.value.colors then ColorMatchesCssVariable(theme.value, key); ColorOf(theme, key, mode)
      else ColorOf(theme, key, mode)
    }

    /** `resetTheme()`: apply the fallback theme and clear the cache. */
    method ResetTheme()
      modifies this, root, service
      ensures theme == Some(fallbackTheme) && error.None? && isLoading == old(isLoading)
      ensures root.style == old(root.style) + CssVariables(fallbackTheme)
      ensures fallbackTheme.isDarkMode == Some(true) ==> root.classList == old(root.classList) + {"dark"}
      ensures fallbackTheme.isDarkMode != Some(true) ==> root.classList == old(root.classList) - {"dark"}
      ensures service.storage == old(service.storage) - {CacheKey}
      ensures service.GetCachedTheme().None?
    {
      ApplyTheme(fallbackTheme);
      service.ClearCache();
    }

    /**
     * `refreshTheme(options)`. With a cached theme and no `forceRefresh`,
     * apply the cached theme and request nothing. Otherwise request the
     * theme, cache what the fetch resolves to and apply it. The request's
     * store id is the provider's `getStoreId?.()` (`providerStoreId`),
     * falling back to the service's reader (`readerStoreId`); the id in
     * `options` is overwritten and never used. `requested` is the URL
     * fetched, if any. The loading flag is off afterwards.
     */
    method RefreshTheme(options: FetchOptions, providerStoreId: Option<string>, readerStoreId: Option<string>,
                        outcome: HttpOutcome, loadedAt: string)
      returns (requested: Option<string>)
      modifies this, root, service
      ensures old(service.GetCachedTheme()).Some? && !options.forceRefresh ==>
        requested.None? && theme == old(service.GetCachedTheme())
        && service.storage == old(service.storage)
      ensures !(old(service.GetCachedTheme()).Some? && !options.forceRefresh) ==>
        requested == Some(service.FetchUrl(providerStoreId, readerStoreId))
        && theme == Some(FetchedTheme(outcome, loadedAt))
        && service.storage == old(service.storage)[CacheKey := JsonText(ToJson(FetchedTheme(outcome, loadedAt)))]
      ensures root.style == old(root.style) + CssVariables(theme.value)
      ensures theme.value.isDarkMode == Some(true) ==> root.classList == old(root.classList) + {"dark"}
      ensures theme.value.isDarkMode != Some(true) ==> root.classList == old(root.classList) - {"dark"}
      ensures theme == service.GetCachedTheme()
      ensures !isLoading && error.None?
    {
      isLoading := true;
      error := None;
      var cached := service.GetCachedTheme();
      if cached.Some? && !options.forceRefresh {
        ApplyCached(cached.value);
        requested := None;
      } else {
        requested := FetchAndApply(providerStoreId, readerStoreId, outcome, loadedAt);
      }
      isLoading := false;
    }

    /** The cached half of `refreshTheme`: apply the cached theme; the cache stays as it is. */
    method ApplyCached(t: ThemeConfig)
      requires service.GetCachedTheme() == Some(t)
      modifies this, root
      ensures theme == Some(t) && theme == service.GetCachedTheme()
      ensures root.style == old(root.style) + CssVariables(t)
      ensures t.isDarkMode == Some(true) ==> root.classList == old(root.classList) + {"dark"}
      ensures t.isDarkMode != Some(true) ==> root.classList == old(root.classList) - {"dark"}
      ensures error.None? && isLoading == old(isLoading)
    {
      ApplyTheme(t);
    }

    /** The fetching half of `refreshTheme`: request the theme, cache what the fetch resolves to, and apply it. */
    method FetchAndApply(providerStoreId: Option<string>, readerStoreId: Option<string>, outcome: HttpOutcome, loadedAt: string)
      returns (requested: Option<string>)
      modifies this, root, service
      ensures requested == Some(service.FetchUrl(providerStoreId, readerStoreId))
      ensures theme == Some(FetchedTheme(outcome, loadedAt)) && theme == service.GetCachedTheme()
      ensures service.storage == old(service.storage)[CacheKey := JsonText(ToJson(FetchedTheme(outcome, loadedAt)))]
      ensures root.style == old(root.style) + CssVariables(theme.value)
      ensures theme.value.isDarkMode == Some(true) ==> root.classList == old(root.classList) + {"dark"}
      ensures theme.value.isDarkMode != Some(true) ==> root.classList == old(root.classList) - {"dark"}
      ensures error.None? && isLoading == old(isLoading)
    {
      requested := Some(service.FetchUrl(providerStoreId, readerStoreId));
      var fetched := FetchedTheme(outcome, loadedAt);
      FetchNeverFails(outcome, loadedAt);
      service.CacheTheme(fetched);
      ApplyTheme(fetched);
    }

    /** The mount effect: refresh when fetching on mount and still loading; otherwise nothing happens. */
    method Mount(providerStoreId: Option<string>, readerStoreId: Option<string>, outcome: HttpOutcome, loadedAt: string)
      returns (requested: Option<string>)
      modifies this, root, service
      ensures !(fetchOnMount && old(isLoading)) ==>
        requested.None? && theme == old(theme) && isLoading == old(isLoading)
        && service.storage == old(service.storage) && root.style == old(root.style)
        && root.classList == old(root.classList)
      ensures fetchOnMount && old(isLoading) && old(service.GetCachedTheme()).Some? ==>
        requested.None? && theme == old(service.GetCachedTheme()) && service.storage == old(service.storage)
      ensures fetchOnMount && old(isLoading) && old(service.GetCachedTheme()).None? ==>
        requested == Some(service.FetchUrl(providerStoreId, readerStoreId))
        && theme == Some(FetchedTheme(outcome, loadedAt))
        && service.storage == old(service.storage)[CacheKey := JsonText(ToJson(FetchedTheme(outcome, loadedAt)))]
      ensures fetchOnMount && old(isLoading) ==>
        !isLoading && error.None? && theme.Some? && theme == service.GetCachedTheme()
        && root.style == old(root.style) + CssVariables(theme.value)
      ensures fetchOnMount && old(isLoading) && theme.value.isDarkMode == Some(true) ==>
        root.classList == old(root.classList) + {"dark"}
      ensures fetchOnMount && old(isLoading) && theme.value.isDarkMode != Some(true) ==>
        root.classList == old(root.classList) - {"dark"}
    {
      requested := None;
      if fetchOnMount && isLoading {
        requested := RefreshTheme(FetchOptions(None, false, None), providerStoreId, readerStoreId, outcome, loadedAt);
      }
    }
  }
}
