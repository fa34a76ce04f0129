/**
 * The WebView wrapper `WebViewExt`: one-time configuration of the engine's
 * settings (scripting, zoom, incognito-dependent storage, user agents, the
 * Do-Not-Track header), URL loading through the URL filter or the search
 * template, the desktop-mode switch and the long-press and download
 * listeners. The engine itself is not modelled: what the wrapper asks of it
 * (load, reload, go back) and of its host activity (the sheet menu, the
 * download question) is appended to `effects`.
 */
module WebView {
  import opened Kotlin
  import UserAgent

  const HEADER_DNT: string := "DNT"

  // WebView.HitTestResult type constants of the Android platform.
  const IMAGE_TYPE: int := 5
  const SRC_ANCHOR_TYPE: int := 7
  const SRC_IMAGE_ANCHOR_TYPE: int := 8

  /** The preferences `PrefsUtils` reads for the wrapper. */
  datatype Prefs = Prefs(javascript: bool, location: bool, doNotTrack: bool, searchEngine: Option<string>)

  /**
   * `UrlUtils.smartUrlFilter` and `UrlUtils.getFormattedUri`. Their rules
   * (URL fix-up, search-template substitution) are not part of this model;
   * they enter as arbitrary functions.
   */
  datatype UrlUtils = UrlUtils(
    smartUrlFilter: string -> Option<string>,
    formattedUri: (Option<string>, Option<string>) -> Option<string>)

  /** The engine's `WebSettings` that the wrapper writes. */
  datatype Settings = Settings(
    userAgentString: string,
    javaScriptEnabled: bool,
    javaScriptCanOpenWindowsAutomatically: bool,
    geolocationEnabled: bool,
    supportMultipleWindows: bool,
    builtInZoomControls: bool,
    displayZoomControls: bool,
    appCacheEnabled: bool,
    databaseEnabled: bool,
    domStorageEnabled: bool,
    useWideViewPort: bool,
    loadWithOverviewMode: bool)

  /** What the wrapper asks of the engine and of its host activity. */
  datatype Effect =
    | Load(target: string, headers: map<string, string>)
    | ReloadPage
    | NavigateBack
    | SheetMenu(extra: Option<string>, allowDownload: bool)
    | AskDownload(url: Option<string>, contentDisposition: Option<string>, mimeType: Option<string>)

  /**
   * The URL `followUrl` hands to the engine: the URL filter's result when it
   * has one, otherwise the search template filled with the input, otherwise
   * nothing.
   */
  function FollowTarget(url: Option<string>, utils: UrlUtils, templateUri: Option<string>): Option<string> {
    var fixed := if url.Some? then utils.smartUrlFilter(url.value) else None;
    if fixed.Some? then fixed else utils.formattedUri(templateUri, url)
  }

  /** A URL the filter accepts is loaded as filtered; the search template is never consulted. */
  lemma FilteredUrlIgnoresTemplate(url: string, filter: string -> Option<string>,
                                   format1: (Option<string>, Option<string>) -> Option<string>,
                                   format2: (Option<string>, Option<string>) -> Option<string>,
                                   template1: Option<string>, template2: Option<string>)
    requires filter(url).Some?
    ensures FollowTarget(Some(url), UrlUtils(filter, format1), template1) == filter(url)
    ensures FollowTarget(Some(url), UrlUtils(filter, format2), template2) == filter(url)
  {
  }

  /** Input the filter rejects goes to the search template; if that yields null too, nothing is loaded. */
  lemma RejectedUrlUsesTemplate(url: Option<string>, utils: UrlUtils, template: Option<string>)
    requires url.None? || utils.smartUrlFilter(url.value).None?
    ensures FollowTarget(url, utils, template) == utils.formattedUri(template, url)
  {
  }

  /** The engine calls `followUrl` produces: one load with the given headers, or none. */
  function Loads(target: Option<string>, headers: map<string, string>): seq<Effect> {
    if target.Some? then [Load(target.value, headers)] else []
  }

  /**
   * How the long-press listener treats a hit-test result type: `Some(d)`
   * when it shows the sheet menu, `d` telling whether the download entry is
   * offered, and `None` when it leaves the event to the engine.
   */
  function LongPressSheet(hitType: int): (r: Option<bool>)
    ensures r == Some(true) <==> hitType == IMAGE_TYPE || hitType == SRC_IMAGE_ANCHOR_TYPE
    ensures r == Some(false) <==> hitType == SRC_ANCHOR_TYPE
    ensures r.None? <==> hitType !in {IMAGE_TYPE, SRC_ANCHOR_TYPE, SRC_IMAGE_ANCHOR_TYPE}
  {
    if hitType == IMAGE_TYPE || hitType == SRC_IMAGE_ANCHOR_TYPE then Some(true)
    else if hitType == SRC_ANCHOR_TYPE then Some(false)
    else None
  }

  /**
   * The engine settings `setup()` writes before the user agent: scripting
   * and geolocation by preference, multiple windows and pinch zoom on, and
   * the app cache, database and DOM storage exactly outside incognito.
   */
  function ConfiguredSettings(s: Settings, prefs: Prefs, incognito: bool): (r: Settings)
    ensures r.appCacheEnabled == r.databaseEnabled == r.domStorageEnabled == !incognito
    ensures r.javaScriptEnabled == r.javaScriptCanOpenWindowsAutomatically == prefs.javascript
    ensures r.geolocationEnabled == prefs.location
    ensures r.supportMultipleWindows && r.builtInZoomControls && !r.displayZoomControls
    ensures r.userAgentString == s.userAgentString
    ensures r.useWideViewPort == s.useWideViewPort && r.loadWithOverviewMode == s.loadWithOverviewMode
  {
    s.(javaScriptEnabled := prefs.javascript,
       javaScriptCanOpenWindowsAutomatically := prefs.javascript,
       geolocationEnabled := prefs.location,
       supportMultipleWindows := true,
       builtInZoomControls := true,
       displayZoomControls := false,
       appCacheEnabled := !incognito,
       databaseEnabled := !incognito,
       domStorageEnabled := !incognito)
  }

  class WebViewExt {
    /** The engine's own user agent, which `setUserAgentString(null)` brings back. */
    const defaultUserAgent: string
    var settings: Settings
    var requestHeaders: map<string, string>
    /** `mActivity != null`. */
    var hasActivity: bool
    var mobileUserAgent: Option<string>
    var desktopUserAgent: Option<string>
    var isIncognito: bool
    var desktopMode: bool
    var lastLoadedUrl: Option<string>
    /** Whether setup has installed the long-press and download listeners. */
    var listenersInstalled: bool
    /** The long-press listener's `shouldAllowDownload` field. */
    var shouldAllowDownload: bool
    var effects: seq<Effect>

    constructor (engineSettings: Settings)
      ensures defaultUserAgent == engineSettings.userAgentString && settings == engineSettings
      ensures requestHeaders == map[] && !hasActivity
      ensures mobileUserAgent.None? && desktopUserAgent.None?
      ensures !isIncognito && !desktopMode && lastLoadedUrl.None?
      ensures !listenersInstalled && !shouldAllowDownload && effects == []
    {
      defaultUserAgent := engineSettings.userAgentString;
      settings := engineSettings;
      requestHeaders := map[];
      hasActivity := false;
      mobileUserAgent, desktopUserAgent := None, None;
      isIncognito, desktopMode := false, false;
      lastLoadedUrl := None;
      listenersInstalled, shouldAllowDownload := false, false;
      effects := [];
    }

    /** The user agent the setter installs for a mode; a null variant restores the engine default. */
    function UserAgentFor(mode: bool): string
      reads this
    {
      (if mode then desktopUserAgent else mobileUserAgent).GetOr(defaultUserAgent)
    }

    /** The active user agent is the one of the current mode. */
    ghost predicate UserAgentConsistent()
      reads this
    {
      settings.userAgentString == UserAgentFor(desktopMode)
    }

    /** `loadUrl(url)`: remember the raw input, then follow it. */
    method LoadUrl(url: string, utils: UrlUtils, prefs: Prefs)
      modifies this
      ensures lastLoadedUrl == Some(url)
      ensures effects == old(effects) + Loads(FollowTarget(Some(url), utils, if hasActivity then prefs.searchEngine else None), requestHeaders)
      ensures settings == old(settings) && requestHeaders == old(requestHeaders) && hasActivity == old(hasActivity)
      ensures mobileUserAgent == old(mobileUserAgent) && desktopUserAgent == old(desktopUserAgent)
      ensures isIncognito == old(isIncognito) && desktopMode == old(desktopMode)
      ensures listenersInstalled == old(listenersInstalled) && shouldAllowDownload == old(shouldAllowDownload)
    {
      lastLoadedUrl := Some(url);
      FollowUrl(Some(url), utils, prefs);
    }

    /** `followUrl(url)`: load the filtered URL, else the search URI, else nothing. */
    method FollowUrl(url: Option<string>, utils: UrlUtils, prefs: Prefs)
      modifies this`effects
      ensures effects == old(effects) + Loads(FollowTarget(url, utils, if hasActivity then prefs.searchEngine else None), requestHeaders)
    {
      var fixedUrl := if url.Some? then utils.smartUrlFilter(url.value) else None;
      if fixedUrl.Some? {
        effects := effects + [Load(fixedUrl.value, requestHeaders)];
        return;
      }
      var templateUri := if hasActivity then prefs.searchEngine else None;
      fixedUrl := utils.formattedUri(templateUri, url);
      if fixedUrl.Some? {
        effects := effects + [Load(fixedUrl.value, requestHeaders)];
      }
    }

    /**
     * `setup()`: engine settings, storage only outside incognito, the
     * listeners, the two user agents and the Do-Not-Track header.
     */
    method Setup(prefs: Prefs)
      requires hasActivity
      modifies this
      ensures var ua := UserAgent.Derive(old(settings.userAgentString));
              && settings == ConfiguredSettings(old(settings), prefs, isIncognito).(userAgentString := ua.mobile)
              && mobileUserAgent == Some(ua.mobile)
              && desktopUserAgent == Some(ua.desktop)
      ensures requestHeaders == if prefs.doNotTrack then old(requestHeaders)[HEADER_DNT := "1"] else old(requestHeaders)
      ensures listenersInstalled && !shouldAllowDownload
      ensures hasActivity && isIncognito == old(isIncognito) && desktopMode == old(desktopMode)
      ensures lastLoadedUrl == old(lastLoadedUrl) && effects == old(effects)
    {
      ConfigureSettings(prefs);
      listenersInstalled, shouldAllowDownload := true, false;
      DeriveUserAgents();
      if prefs.doNotTrack {
        requestHeaders := requestHeaders[HEADER_DNT := "1"];
      }
    }

    /** The settings part of `setup()`: scripting, geolocation, windows, zoom and storage. */
    method ConfigureSettings(prefs: Prefs)
      modifies this`settings
      ensures settings == ConfiguredSettings(old(settings), prefs, isIncognito)
    {
      settings := ConfiguredSettings(settings, prefs, isIncognito);
    }

    /**
     * The user-agent part of `setup()`: match the current user agent, keep
     * its mobile and desktop variants and switch to the mobile one; if it
     * does not match, keep it as the mobile variant beside the fallback.
     */
    method DeriveUserAgents()
      modifies this`mobileUserAgent, this`desktopUserAgent, this`settings
      ensures var ua := UserAgent.Derive(old(settings.userAgentString));
              && settings == old(settings).(userAgentString := ua.mobile)
              && mobileUserAgent == Some(ua.mobile)
              && desktopUserAgent == Some(ua.desktop)
    {
      var ua := UserAgent.Derive(settings.userAgentString);
      mobileUserAgent := Some(ua.mobile);
      desktopUserAgent := Some(ua.desktop);
      settings := settings.(userAgentString := ua.mobile);
    }

    /** `init(activity, …, incognito)`: attach to the host activity and set up. */
    method Init(prefs: Prefs, incognito: bool)
      modifies this
      ensures hasActivity && isIncognito == incognito
      ensures var ua := UserAgent.Derive(old(settings.userAgentString));
              && settings == ConfiguredSettings(old(settings), prefs, incognito).(userAgentString := ua.mobile)
              && mobileUserAgent == Some(ua.mobile)
              && desktopUserAgent == Some(ua.desktop)
      ensures requestHeaders == if prefs.doNotTrack then old(requestHeaders)[HEADER_DNT := "1"] else old(requestHeaders)
      ensures listenersInstalled && !shouldAllowDownload
      ensures desktopMode == old(desktopMode) && lastLoadedUrl == old(lastLoadedUrl) && effects == old(effects)
      ensures !desktopMode ==> UserAgentConsistent()
    {
      hasActivity := true;
      isIncognito := incognito;
      Setup(prefs);
    }

    /** The `isDesktopMode` setter: switch user agent and viewport, then reload. */
    method SetDesktopMode(mode: bool)
      modifies this
      ensures desktopMode == mode
      ensures settings == old(settings).(userAgentString := UserAgentFor(mode),
                                         useWideViewPort := mode,
                                         loadWithOverviewMode := mode)
      ensures UserAgentConsistent()
      ensures effects == old(effects) + [ReloadPage]
      ensures requestHeaders == old(requestHeaders) && hasActivity == old(hasActivity)
      ensures mobileUserAgent == old(mobileUserAgent) && desktopUserAgent == old(desktopUserAgent)
      ensures isIncognito == old(isIncognito) && lastLoadedUrl == old(lastLoadedUrl)
      ensures listenersInstalled == old(listenersInstalled) && shouldAllowDownload == old(shouldAllowDownload)
    {
      desktopMode := mode;
      var ua := if mode then desktopUserAgent else mobileUserAgent;
      settings := settings.(userAgentString := ua.GetOr(defaultUserAgent),
                            useWideViewPort := mode,
                            loadWithOverviewMode := mode);
      effects := effects + [ReloadPage];
    }

    /**
     * The long-press listener installed by setup. Its `shouldAllowDownload`
     * field is false between calls, which is what makes a plain link's sheet
     * come without the download entry.
     */
    method OnLongClick(hitType: int, extra: Option<string>) returns (handled: bool)
      requires listenersInstalled && !shouldAllowDownload
      modifies this`shouldAllowDownload, this`effects
      ensures handled <==> LongPressSheet(hitType).Some?
      ensures effects == old(effects) + match LongPressSheet(hitType)
                                        case Some(d) => [SheetMenu(extra, d)]
                                        case None => []
      ensures !shouldAllowDownload
    {
      if hitType == IMAGE_TYPE || hitType == SRC_IMAGE_ANCHOR_TYPE {
        shouldAllowDownload := true;
        effects := effects + [SheetMenu(extra, shouldAllowDownload)];
        shouldAllowDownload := false;
        return true;
      } else if hitType == SRC_ANCHOR_TYPE {
        effects := effects + [SheetMenu(extra, shouldAllowDownload)];
        shouldAllowDownload := false;
        return true;
      }
      return false;
    }

    /** The download listener installed by setup: every download goes to the host for confirmation. */
    method OnDownloadStart(url: Option<string>, userAgent: Option<string>, contentDisposition: Option<string>,
                           mimeType: Option<string>, contentLength: int)
      requires listenersInstalled
      modifies this`effects
      ensures effects == old(effects) + [AskDownload(url, contentDisposition, mimeType)]
    {
      effects := effects + [AskDownload(url, contentDisposition, mimeType)];
    }

    /** The engine's `reload()`. */
    method Reload()
      modifies this`effects
      ensures effects == old(effects) + [ReloadPage]
    {
      effects := effects + [ReloadPage];
    }

    /** The engine's `goBack()`. */
    method GoBack()
      modifies this`effects
      ensures effects == old(effects) + [NavigateBack]
    {
      effects := effects + [NavigateBack];
    }
  }

  /** Switching desktop mode and back restores the active user agent and the mode. */
  method ToggleDesktopModeTwice(w: WebViewExt)
    requires w.UserAgentConsistent()
    modifies w
    ensures w.settings.userAgentString == old(w.settings.userAgentString)
    ensures w.desktopMode == old(w.desktopMode)
  {
    var mode := w.desktopMode;
    w.SetDesktopMode(!mode);
    w.SetDesktopMode(mode);
  }
}
