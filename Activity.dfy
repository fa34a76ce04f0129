/**
 * The browser's host activity `MainActivity`, reduced to its decision rules:
 * the incognito policy and the restore from saved state at creation, the
 * back-button priority, showing and cancelling find-in-page, the single
 * full-screen custom view, the pending download across the storage
 * permission request, the system-bar flag arithmetic below Android R and
 * the theme colour with its fallbacks. Window, layout and dialog calls are
 * kept as fields (visibility, bar colours, keep-screen-on) or appended to
 * `effects`.
 */
module Activity {
  import opened Kotlin
  import WebView
  import SearchBar
  import UserAgent
  import opened SystemUi

  // Constants of MainActivity's companion object.
  const STORAGE_PERM_REQ: int := 423
  const LOCATION_PERM_REQ: int := 424
  const ALWAYS_DEFAULT_TO_INCOGNITO: int := 1
  const EXTERNAL_DEFAULT_TO_INCOGNITO: int := 2

  /** `Intent.ACTION_MAIN` of the Android platform. */
  const ACTION_MAIN: string := "android.intent.action.MAIN"
  /** `Build.VERSION_CODES.R`. */
  const VERSION_R: int := 30

  // `android.graphics.Color` values, as Kotlin `Int`s.
  const TRANSPARENT: Int := 0
  const BLACK: Int := -0x100_0000
  const WHITE: Int := -1


  /** The launching intent: its action, its data URI and its incognito extra. */
  datatype Intent = Intent(action: Option<string>, dataString: Option<string>, incognitoExtra: bool)

  /** The saved-instance-state bundle; `None` is a key that is absent. */
  datatype Bundle = Bundle(incognito: Option<bool>, url: Option<string>, desktopMode: Option<bool>, themeColor: Option<Int>)

  /** What creation settles on: incognito, the URL to open, desktop mode and the theme colour. */
  datatype Launch = Launch(incognito: bool, url: Option<string>, desktopMode: bool, themeColor: Int)

  /** The resource colours the activity reads. */
  datatype Palette = Palette(colorPrimary: Int, colorIncognito: Int, colorAccent: Int)

  /** The outcome of a back press, in priority order. */
  datatype BackAction = CancelSearch | HideCustomView | GoBack | DefaultBack

  /** Platform views and full-screen callbacks handed to the activity, by identity. */
  type ViewId = nat
  type CallbackId = nat

  /** What the activity asks of the window, the framework and its dialogs. */
  datatype Effect =
    /** `super.onBackPressed()`. */
    | SystemBack
    | CustomViewHidden(callback: CallbackId)
    | AddContentView(view: ViewId)
    | RemoveView(view: ViewId)
    /** The Android R `insetsController` path of `setImmersiveMode`. */
    | InsetsImmersive(enable: bool)
    /** The Android R `insetsController` path of the light-bar choice. */
    | InsetsLightBars(light: bool, reachMode: bool)
    /** The Android R path of `resetSystemUIColor`. */
    | InsetsResetLightBars
    | ActionBarBackground(color: Int)
    | TaskDescription(color: Int)
    | RequestStoragePermission
    | DownloadDialog(url: Option<string>, fileName: string)
    | PermissionRationaleDialog
    | PermissionDeniedSnackbar
    | SaveFavorite(favoriteTitle: string, favoriteUrl: string, favoriteColor: Int)

  /** Whether a new activity starts incognito, by the incognito-policy preference. */
  function IncognitoChoice(policy: int, intent: Intent): (r: bool)
    ensures policy == ALWAYS_DEFAULT_TO_INCOGNITO ==> r
    ensures policy == EXTERNAL_DEFAULT_TO_INCOGNITO ==> (r <==> intent.action != Some(ACTION_MAIN))
    ensures policy != ALWAYS_DEFAULT_TO_INCOGNITO && policy != EXTERNAL_DEFAULT_TO_INCOGNITO ==> r == intent.incognitoExtra
  {
    if policy == ALWAYS_DEFAULT_TO_INCOGNITO then true
    else if policy == EXTERNAL_DEFAULT_TO_INCOGNITO then intent.action != Some(ACTION_MAIN)
    else intent.incognitoExtra
  }

  /**
   * The launch state of `onCreate`: the policy's choice and the intent's URL,
   * each overridden by the saved state when there is one (the saved URL only
   * when the intent brings none).
   */
  function LaunchState(policy: int, intent: Intent, saved: Option<Bundle>): (r: Launch)
    ensures saved.None? ==> r == Launch(IncognitoChoice(policy, intent), intent.dataString, false, TRANSPARENT)
    ensures saved.Some? ==> r.incognito == saved.value.incognito.GetOr(IncognitoChoice(policy, intent))
    ensures saved.Some? && !IsEmpty(intent.dataString) ==> r.url == intent.dataString
    ensures saved.Some? && IsEmpty(intent.dataString) ==> r.url == saved.value.url
    ensures saved.Some? ==> r.desktopMode == saved.value.desktopMode.GetOr(false)
                            && r.themeColor == saved.value.themeColor.GetOr(TRANSPARENT)
  {
    var incognito := IncognitoChoice(policy, intent);
    match saved
    case None => Launch(incognito, intent.dataString, false, TRANSPARENT)
    case Some(b) =>
      Launch(b.incognito.GetOr(incognito),
             if IsEmpty(intent.dataString) then b.url else intent.dataString,
             b.desktopMode.GetOr(false),
             b.themeColor.GetOr(TRANSPARENT))
  }

  /** The bundle `onSaveInstanceState` writes: every key present, the URL possibly null. */
  function SavedBundle(url: Option<string>, incognito: bool, desktopMode: bool, themeColor: Int): Bundle {
    Bundle(Some(incognito), url, Some(desktopMode), Some(themeColor))
  }

  /**
   * Saving and restoring loses nothing: the saved incognito flag (whatever
   * the policy says), desktop mode and theme colour come back, and so does
   * the URL unless the new intent brings its own.
   */
  lemma RestoreAfterSave(policy: int, intent: Intent, url: Option<string>, incognito: bool, desktopMode: bool, themeColor: Int)
    ensures var r := LaunchState(policy, intent, Some(SavedBundle(url, incognito, desktopMode, themeColor)));
            && r.incognito == incognito && r.desktopMode == desktopMode && r.themeColor == themeColor
            && r.url == (if IsEmpty(intent.dataString) then url else intent.dataString)
  {
  }

  /**
   * The startup load of `onCreate` as written (MainActivity.kt, line 196):
   * the load call sits inside the right operand of the elvis operator, so it
   * only runs when there is no URL, and then it loads the home page.
   */
  function StartupLoadAsWritten(url: Option<string>, homePage: Option<string>): (r: Option<string>)
    ensures url.Some? ==> r.None?
    ensures url.None? ==> r == homePage
  {
    if url.None? then homePage else None
  }

  /** The evidently intended startup load: the URL if there is one, else the home page, else nothing. */
  function StartupLoad(url: Option<string>, homePage: Option<string>): (r: Option<string>)
    ensures url.Some? ==> r == url
    ensures url.None? ==> r == homePage
    ensures r.Some? <==> url.Some? || homePage.Some?
  {
    if url.Some? then url else homePage
  }

  /** A link opened from another app is never loaded by the code as written, and is by the intended one. */
  lemma StartupLoadDropsIntentUrl()
    ensures StartupLoadAsWritten(Some("https://example.org/"), Some("about:blank")) == None
    ensures StartupLoad(Some("https://example.org/"), Some("about:blank")) == Some("https://example.org/")
  {
  }

  /** Without a URL to open the two versions agree: both load the home page. */
  lemma StartupLoadWithoutUrl(homePage: Option<string>)
    ensures StartupLoadAsWritten(None, homePage) == StartupLoad(None, homePage) == homePage
  {
  }

  /** The back-press priority: search, then the custom view, then history, then the system. */
  function BackActionFor(searchActive: bool, customViewShown: bool, canGoBack: bool): (r: BackAction)
    ensures r == CancelSearch <==> searchActive
    ensures r == HideCustomView <==> !searchActive && customViewShown
    ensures r == GoBack <==> !searchActive && !customViewShown && canGoBack
    ensures r == DefaultBack <==> !searchActive && !customViewShown && !canGoBack
  {
    if searchActive then CancelSearch
    else if customViewShown then HideCustomView
    else if canGoBack then GoBack
    else DefaultBack
  }


  /** `themeColorWithFallback`: the page's colour, else the incognito or the primary colour. */
  function ThemeColorWithFallback(themeColor: Int, incognito: bool, palette: Palette): (r: Int)
    ensures themeColor != TRANSPARENT ==> r == themeColor
    ensures themeColor == TRANSPARENT ==> r == if incognito then palette.colorIncognito else palette.colorPrimary
  {
    if themeColor != TRANSPARENT then themeColor
    else if incognito then palette.colorIncognito else palette.colorPrimary
  }

  /**
   * With opaque resource colours the fallback is never transparent, and it is
   * stable: taking the fallback of the fallback changes nothing.
   */
  lemma FallbackIsOpaqueAndStable(themeColor: Int, incognito: bool, palette: Palette)
    requires palette.colorPrimary != TRANSPARENT && palette.colorIncognito != TRANSPARENT
    ensures ThemeColorWithFallback(themeColor, incognito, palette) != TRANSPARENT
    ensures ThemeColorWithFallback(ThemeColorWithFallback(themeColor, incognito, palette), incognito, palette)
         == ThemeColorWithFallback(themeColor, incognito, palette)
  {
  }

  /** The progress-bar tint: black or white against a page colour, the accent colour without one. */
  function ProgressColor(hasValidColor: bool, light: bool, accent: Int): (r: Int)
    ensures hasValidColor ==> r == if light then BLACK else WHITE
    ensures !hasValidColor ==> r == accent
  {
    if hasValidColor then (if light then BLACK else WHITE) else accent
  }

  /**
   * The colour `setAsFavorite` stores: the favicon's colour (`None` when
   * there is no usable favicon), the accent colour when that is missing or
   * transparent.
   */
  function FavoriteColor(iconColor: Option<Int>, accent: Int): (r: Int)
    ensures r == TRANSPARENT ==> accent == TRANSPARENT
    ensures iconColor.Some? && iconColor.value != TRANSPARENT ==> r == iconColor.value
    ensures iconColor.None? || iconColor.value == TRANSPARENT ==> r == accent
  {
    var color := iconColor.GetOr(TRANSPARENT);
    if color == TRANSPARENT then accent else color
  }

  class MainActivity {
    /** The layout's WebView and the find-in-page controller over the layout's search widgets. */
    const webView: WebView.WebViewExt
    const searchController: SearchBar.SearchBarController
    const palette: Palette
    /** `Build.VERSION.SDK_INT`. */
    const sdkInt: int
    /** `supportActionBar != null`. */
    const hasActionBar: bool
    /** `UiUtils.isColorLight`, whose rule is not part of this model. */
    const isColorLight: Int -> bool
    /** `URLUtil.guessFileName(url, contentDisposition, mimeType)`. */
    const guessFileName: (Option<string>, Option<string>, Option<string>) -> string

    /** The two `lateinit` fields: whether `mWebView` and `mSearchController` have been assigned. */
    var webViewAssigned: bool
    var searchControllerAssigned: bool

    var incognito: bool
    var themeColor: Int
    var waitingDownloadUrl: Option<string>
    var customView: Option<ViewId>
    var fullScreenCallback: Option<CallbackId>
    var searchActive: bool

    /** Visibility of the search page and of the URL bar in the toolbar. */
    var searchPageVisible: bool
    var toolbarSearchBarVisible: bool
    var appBarVisible: bool
    var webViewContainerVisible: bool
    /** `FLAG_KEEP_SCREEN_ON` of the window. */
    var keepScreenOn: bool
    /** The decor view's `systemUiVisibility`. */
    var systemUiVisibility: bv32
    var statusBarColor: Int
    var navigationBarColor: Int
    var progressTint: Int
    var effects: seq<Effect>

    /** The activity as the framework constructs it, its layout inflated, before `onCreate`. */
    constructor (engineSettings: WebView.Settings, searchWidgets: (Option<string>, Option<string>, bool, bool),
                 palette: Palette, sdkInt: int, hasActionBar: bool, isColorLight: Int -> bool,
                 guessFileName: (Option<string>, Option<string>, Option<string>) -> string,
                 window: (bv32, Int, Int))
      ensures fresh(webView) && fresh(searchController)
      ensures webView.settings == engineSettings && webView.defaultUserAgent == engineSettings.userAgentString
      ensures webView.requestHeaders == map[] && !webView.hasActivity && !webView.isIncognito && !webView.desktopMode
      ensures webView.mobileUserAgent.None? && webView.desktopUserAgent.None? && webView.lastLoadedUrl.None?
      ensures !webView.listenersInstalled && !webView.shouldAllowDownload && webView.effects == []
      ensures !searchController.hasStartedSearch
      ensures searchController.currentResultPosition == 0 && searchController.totalResultCount == 0
      ensures searchController.editorText == searchWidgets.0 && searchController.status == searchWidgets.1
      ensures searchController.prevEnabled == searchWidgets.2 && searchController.nextEnabled == searchWidgets.3
      ensures searchController.effects == []
      ensures this.palette == palette && this.sdkInt == sdkInt && this.hasActionBar == hasActionBar
      ensures this.isColorLight == isColorLight && this.guessFileName == guessFileName
      ensures !webViewAssigned && !searchControllerAssigned
      ensures !incognito && themeColor == TRANSPARENT && waitingDownloadUrl.None?
      ensures customView.None? && fullScreenCallback.None? && !searchActive
      ensures !searchPageVisible && toolbarSearchBarVisible && appBarVisible && webViewContainerVisible && !keepScreenOn
      ensures (systemUiVisibility, statusBarColor, navigationBarColor) == window
      ensures effects == []
    {
      webView := new WebView.WebViewExt(engineSettings);
      searchController := new SearchBar.SearchBarController(searchWidgets.0, searchWidgets.1, searchWidgets.2, searchWidgets.3);
      this.palette := palette;
      this.sdkInt := sdkInt;
      this.hasActionBar := hasActionBar;
      this.isColorLight := isColorLight;
      this.guessFileName := guessFileName;
      webViewAssigned, searchControllerAssigned := false, false;
      incognito, themeColor, waitingDownloadUrl := false, TRANSPARENT, None;
      customView, fullScreenCallback, searchActive := None, None, false;
      searchPageVisible, toolbarSearchBarVisible := false, true;
      appBarVisible, webViewContainerVisible, keepScreenOn := true, true, false;
      systemUiVisibility, statusBarColor, navigationBarColor := window.0, window.1, window.2;
      progressTint := palette.colorAccent;
      effects := [];
    }

    /** `onCreate` has run to its end. */
    predicate Created()
      reads this
    {
      webViewAssigned && searchControllerAssigned
    }

    /** At most one custom view: a full-screen callback is only held together with its view. */
    predicate CustomViewState()
      reads this
    {
      customView.None? ==> fullScreenCallback.None?
    }

    /**
     * `onCreate(savedInstanceState)`, as written. `setUiMode()` runs before
     * `mWebView` is assigned: it resets the bar colours and, for a restored
     * non-transparent theme colour, re-applies it, which fails at
     * `mWebView.title` (`ok` false) after the bars are painted. Otherwise
     * the WebView is initialised for the launch state, the startup load of
     * line 196 is made (the home page, and only without a URL) and the
     * theme colour applied.
     */
    method OnCreate(policy: int, intent: Intent, saved: Option<Bundle>, prefs: WebView.Prefs,
                    homePage: Option<string>, utils: WebView.UrlUtils, reachMode: bool) returns (ok: bool)
      requires !webViewAssigned && !searchControllerAssigned
      modifies this`incognito, this`themeColor, this`webViewAssigned, this`searchControllerAssigned,
               this`systemUiVisibility, this`effects, this`statusBarColor, this`navigationBarColor, this`progressTint,
               webView
      ensures incognito == LaunchState(policy, intent, saved).incognito
      ensures themeColor == LaunchState(policy, intent, saved).themeColor
      ensures ok <==> themeColor == TRANSPARENT
      ensures ThemeApplied(themeColor, ThemeColorWithFallback(themeColor, incognito, palette), reachMode,
                           BLACK, BLACK, ResetFlags(old(systemUiVisibility)), old(effects) + ResetEffects(), ok)
      ensures ok ==> Created() && StartedWebView(incognito, LaunchState(policy, intent, saved).desktopMode,
                                                 StartupLoadAsWritten(LaunchState(policy, intent, saved).url, homePage),
                                                 prefs, utils, old(webView.settings), old(webView.requestHeaders), old(webView.effects),
                                                 old(webView.lastLoadedUrl))
      ensures !ok ==> !webViewAssigned && !searchControllerAssigned && webView.effects == old(webView.effects)
    {
      var l := LaunchState(policy, intent, saved);
      incognito := l.incognito;
      themeColor := l.themeColor;
      ok := SetUiMode(reachMode);
      if !ok {
        return;
      }
      FinishCreate(l.desktopMode, StartupLoadAsWritten(l.url, homePage), prefs, utils, reachMode);
    }

    /**
     * `setUiMode()`, the colour part of `changeUiMode`: reset the bars, then
     * re-apply a non-transparent theme colour, which fails (`ok` false) while
     * `mWebView` is not assigned.
     */
    method SetUiMode(reachMode: bool) returns (ok: bool)
      modifies this`themeColor, this`statusBarColor, this`navigationBarColor, this`progressTint,
               this`systemUiVisibility, this`effects
      ensures ok <==> old(themeColor) == TRANSPARENT || webViewAssigned
      ensures old(themeColor) == TRANSPARENT ==>
                && themeColor == TRANSPARENT && progressTint == old(progressTint)
                && statusBarColor == BLACK && navigationBarColor == BLACK
                && systemUiVisibility == ResetFlags(old(systemUiVisibility)) && effects == old(effects) + ResetEffects()
      ensures old(themeColor) != TRANSPARENT ==>
                ThemeApplied(old(themeColor), old(themeColor), reachMode,
                             BLACK, BLACK, ResetFlags(old(systemUiVisibility)), old(effects) + ResetEffects(), ok)
    {
      ResetSystemUiColor();
      ok := true;
      if themeColor != TRANSPARENT {
        ok := ApplyThemeColor(themeColor, reachMode);
      }
    }

    /**
     * `onCreate` as evidently intended: the restored theme colour is applied
     * once, after `mWebView` is assigned (line 208), and the startup URL is
     * loaded when there is one. Creation always completes.
     */
    method OnCreateIntended(policy: int, intent: Intent, saved: Option<Bundle>, prefs: WebView.Prefs,
                            homePage: Option<string>, utils: WebView.UrlUtils, reachMode: bool)
      requires !webViewAssigned && !searchControllerAssigned
      modifies this`incognito, this`themeColor, this`webViewAssigned, this`searchControllerAssigned,
               this`systemUiVisibility, this`effects, this`statusBarColor, this`navigationBarColor, this`progressTint,
               webView
      ensures var l := LaunchState(policy, intent, saved);
              && incognito == l.incognito && themeColor == l.themeColor && Created()
              && ThemeApplied(l.themeColor, ThemeColorWithFallback(l.themeColor, l.incognito, palette), reachMode,
                              BLACK, BLACK, ResetFlags(old(systemUiVisibility)), old(effects) + ResetEffects(), true)
              && StartedWebView(l.incognito, l.desktopMode, StartupLoad(l.url, homePage), prefs, utils,
                                old(webView.settings), old(webView.requestHeaders), old(webView.effects), old(webView.lastLoadedUrl))
    {
      var l := LaunchState(policy, intent, saved);
      incognito := l.incognito;
      themeColor := l.themeColor;
      ResetSystemUiColor();
      FinishCreate(l.desktopMode, StartupLoad(l.url, homePage), prefs, utils, reachMode);
    }

    /**
     * The end of `onCreate` once `mWebView` can be assigned: set up the
     * WebView and its startup load, assign the search controller, then apply
     * the theme colour, which now completes.
     */
    method FinishCreate(desktopMode: bool, target: Option<string>, prefs: WebView.Prefs, utils: WebView.UrlUtils,
                        reachMode: bool)
      modifies this`webViewAssigned, this`searchControllerAssigned, webView,
               this`themeColor, this`statusBarColor, this`navigationBarColor, this`progressTint,
               this`systemUiVisibility, this`effects
      ensures Created()
      ensures StartedWebView(incognito, desktopMode, target, prefs, utils,
                             old(webView.settings), old(webView.requestHeaders), old(webView.effects), old(webView.lastLoadedUrl))
      ensures ThemeApplied(old(themeColor), ThemeColorWithFallback(old(themeColor), incognito, palette), reachMode,
                           old(statusBarColor), old(navigationBarColor), old(systemUiVisibility), old(effects), true)
    {
      StartWebView(desktopMode, target, prefs, utils);
      var ok := ApplyThemeColor(themeColor, reachMode);
    }

    /**
     * The WebView after creation, from its settings, headers, effects and
     * last URL before: set up for the launch state (configured settings, the
     * two user agents derived from the engine's, the listeners), switched to
     * its mode (its user agent and viewport, one reload) and, when there is
     * a startup URL, following it with the new headers.
     */
    ghost predicate StartedWebView(incognito: bool, desktopMode: bool, target: Option<string>,
                                   prefs: WebView.Prefs, utils: WebView.UrlUtils, settings0: WebView.Settings,
                                   headers0: map<string, string>, effects0: seq<WebView.Effect>, lastLoaded0: Option<string>)
      reads webView
    {
      var ua := UserAgent.Derive(settings0.userAgentString);
      && webView.hasActivity && webView.isIncognito == incognito
      && webView.desktopMode == desktopMode && webView.UserAgentConsistent()
      && webView.mobileUserAgent == Some(ua.mobile) && webView.desktopUserAgent == Some(ua.desktop)
      && webView.settings == WebView.ConfiguredSettings(settings0, prefs, incognito)
                               .(userAgentString := if desktopMode then ua.desktop else ua.mobile,
                                 useWideViewPort := desktopMode, loadWithOverviewMode := desktopMode)
      && webView.listenersInstalled && !webView.shouldAllowDownload
      && webView.requestHeaders == (if prefs.doNotTrack then headers0[WebView.HEADER_DNT := "1"] else headers0)
      && webView.lastLoadedUrl == (if target.Some? then target else lastLoaded0)
      && webView.effects == effects0 + [WebView.ReloadPage]
           + (if target.Some? then WebView.Loads(WebView.FollowTarget(target, utils, prefs.searchEngine), webView.requestHeaders) else [])
    }

    /**
     * The WebView part of `onCreate`: assign `mWebView`, initialise it, set
     * its mode, load the startup URL, then assign `mSearchController`.
     */
    method StartWebView(desktopMode: bool, target: Option<string>, prefs: WebView.Prefs, utils: WebView.UrlUtils)
      modifies this`webViewAssigned, this`searchControllerAssigned, webView
      ensures Created()
      ensures StartedWebView(incognito, desktopMode, target, prefs, utils,
                             old(webView.settings), old(webView.requestHeaders), old(webView.effects), old(webView.lastLoadedUrl))
    {
      webViewAssigned := true;
      webView.Init(prefs, incognito);
      webView.SetDesktopMode(desktopMode);
      if target.Some? {
        webView.LoadUrl(target.value, utils, prefs);
      }
      searchControllerAssigned := true;
    }

    /** `onSaveInstanceState(outState)`, given the page's current URL. */
    method OnSaveInstanceState(pageUrl: Option<string>) returns (b: Bundle)
      requires webViewAssigned
      ensures b.url == pageUrl && b.incognito == Some(webView.isIncognito)
      ensures b.desktopMode == Some(webView.desktopMode) && b.themeColor == Some(themeColor)
    {
      b := SavedBundle(pageUrl, webView.isIncognito, webView.desktopMode, themeColor);
    }

    /** `onBackPressed()`, given whether the WebView has history to go back to. */
    method OnBackPressed(canGoBack: bool) returns (action: BackAction, ok: bool)
      requires Created()
      modifies this`searchActive, this`searchPageVisible, this`toolbarSearchBarVisible, this`keepScreenOn,
               this`systemUiVisibility, this`appBarVisible, this`webViewContainerVisible,
               this`customView, this`fullScreenCallback, this`effects,
               webView`effects, searchController`status, searchController`effects
      ensures action == BackActionFor(old(searchActive), old(customView).Some?, canGoBack)
      ensures action == CancelSearch ==>
                && ok && !searchActive && !searchPageVisible && toolbarSearchBarVisible
                && searchController.status.None?
                && searchController.effects == old(searchController.effects) + [SearchBar.ClearMatches, SearchBar.NotifyCancelSearch]
                && effects == old(effects) && webView.effects == old(webView.effects)
      ensures action == HideCustomView ==>
                && (ok <==> old(fullScreenCallback).Some?)
                && !keepScreenOn && appBarVisible && webViewContainerVisible
                && systemUiVisibility == ImmersiveVisibility(old(systemUiVisibility), false)
                && (ok ==> customView.None? && fullScreenCallback.None?
                           && effects == old(effects) + ImmersiveEffects(false)
                                         + [RemoveView(old(customView).value), CustomViewHidden(old(fullScreenCallback).value)])
                && (!ok ==> customView == old(customView) && fullScreenCallback == old(fullScreenCallback)
                            && effects == old(effects) + ImmersiveEffects(false) + [RemoveView(old(customView).value)])
                && webView.effects == old(webView.effects)
      ensures action == GoBack ==>
                ok && webView.effects == old(webView.effects) + [WebView.NavigateBack] && effects == old(effects)
      ensures action == DefaultBack ==>
                ok && effects == old(effects) + [SystemBack] && webView.effects == old(webView.effects)
      ensures action != HideCustomView ==>
                && customView == old(customView) && fullScreenCallback == old(fullScreenCallback)
                && keepScreenOn == old(keepScreenOn) && systemUiVisibility == old(systemUiVisibility)
                && appBarVisible == old(appBarVisible) && webViewContainerVisible == old(webViewContainerVisible)
      ensures action != CancelSearch ==>
                && searchActive == old(searchActive) && searchPageVisible == old(searchPageVisible)
                && toolbarSearchBarVisible == old(toolbarSearchBarVisible)
                && searchController.status == old(searchController.status)
                && searchController.effects == old(searchController.effects)
    {
      action := BackActionFor(searchActive, customView.Some?, canGoBack);
      ok := true;
      if searchActive {
        searchController.OnCancel();
        OnCancelSearch();
      } else if customView.Some? {
        ok := OnHideCustomView();
      } else if canGoBack {
        webView.GoBack();
      } else {
        effects := effects + [SystemBack];
      }
    }

    /** `showSearch()`: swap the URL bar for the search page and start the controller. */
    method ShowSearch()
      requires searchControllerAssigned
      modifies this`searchActive, this`searchPageVisible, this`toolbarSearchBarVisible, searchController
      ensures searchActive && searchPageVisible && !toolbarSearchBarVisible
      ensures !searchController.hasStartedSearch
      ensures searchController.currentResultPosition == -1 && searchController.totalResultCount == -1
      ensures searchController.status.None?
      ensures searchController.editorText == old(searchController.editorText)
      ensures searchController.prevEnabled == !IsEmpty(searchController.editorText)
      ensures searchController.nextEnabled == !IsEmpty(searchController.editorText)
      ensures searchController.effects
           == old(searchController.effects) + [SearchBar.RequestFocus, SearchBar.ShowKeyboard, SearchBar.ClearMatches]
    {
      toolbarSearchBarVisible := false;
      searchPageVisible := true;
      searchController.OnShow();
      searchActive := true;
    }

    /** `onCancelSearch()`, the controller's cancel listener: swap the search page back for the URL bar. */
    method OnCancelSearch()
      modifies this`searchActive, this`searchPageVisible, this`toolbarSearchBarVisible
      ensures !searchActive && !searchPageVisible && toolbarSearchBarVisible
    {
      searchPageVisible := false;
      toolbarSearchBarVisible := true;
      searchActive := false;
    }

    /**
     * `onShowCustomView(view, callback)`. While a custom view is shown, a new
     * one is refused by telling its callback it is hidden. A null view fails
     * at `mCustomView!!` (`ok` false) after the window has gone immersive.
     */
    method OnShowCustomView(view: Option<ViewId>, callback: Option<CallbackId>) returns (ok: bool)
      modifies this`keepScreenOn, this`customView, this`fullScreenCallback, this`systemUiVisibility,
               this`effects, this`appBarVisible, this`webViewContainerVisible
      ensures old(customView).Some? ==>
                && ok && customView == old(customView) && fullScreenCallback == old(fullScreenCallback)
                && effects == old(effects) + (if callback.Some? then [CustomViewHidden(callback.value)] else [])
                && keepScreenOn == old(keepScreenOn) && systemUiVisibility == old(systemUiVisibility)
                && appBarVisible == old(appBarVisible) && webViewContainerVisible == old(webViewContainerVisible)
      ensures old(customView).None? ==>
                && (ok <==> view.Some?)
                && keepScreenOn && customView == view && fullScreenCallback == callback
                && systemUiVisibility == ImmersiveVisibility(old(systemUiVisibility), true)
                && (ok ==> !appBarVisible && !webViewContainerVisible && CustomViewState())
                && (ok ==> effects == old(effects) + ImmersiveEffects(true) + [AddContentView(view.value)])
                && (!ok ==> effects == old(effects) + ImmersiveEffects(true)
                            && appBarVisible == old(appBarVisible) && webViewContainerVisible == old(webViewContainerVisible))
    {
      if customView.Some? {
        if callback.Some? {
          effects := effects + [CustomViewHidden(callback.value)];
        }
        return true;
      }
      keepScreenOn := true;
      customView := view;
      fullScreenCallback := callback;
      SetImmersiveMode(true);
      if customView.None? {
        return false;
      }
      effects := effects + [AddContentView(customView.value)];
      appBarVisible := false;
      webViewContainerVisible := false;
      return true;
    }

    /**
     * `onHideCustomView()`: nothing without a custom view; otherwise leave
     * immersive mode, show the browser again, remove the view and tell its
     * callback. A shown view without a callback fails at
     * `mFullScreenCallback!!` (`ok` false) after the view was removed.
     */
    method OnHideCustomView() returns (ok: bool)
      modifies this`keepScreenOn, this`customView, this`fullScreenCallback, this`systemUiVisibility,
               this`effects, this`appBarVisible, this`webViewContainerVisible
      ensures old(customView).None? ==>
                && ok && customView.None? && fullScreenCallback == old(fullScreenCallback)
                && effects == old(effects) && keepScreenOn == old(keepScreenOn)
                && systemUiVisibility == old(systemUiVisibility)
                && appBarVisible == old(appBarVisible) && webViewContainerVisible == old(webViewContainerVisible)
      ensures old(customView).Some? ==>
                && (ok <==> old(fullScreenCallback).Some?)
                && !keepScreenOn && appBarVisible && webViewContainerVisible
                && systemUiVisibility == ImmersiveVisibility(old(systemUiVisibility), false)
                && (ok ==> customView.None? && fullScreenCallback.None?)
                && (ok ==> effects == old(effects) + ImmersiveEffects(false)
                                      + [RemoveView(old(customView).value), CustomViewHidden(old(fullScreenCallback).value)])
                && (!ok ==> customView == old(customView) && fullScreenCallback.None?
                            && effects == old(effects) + ImmersiveEffects(false) + [RemoveView(old(customView).value)])
      ensures ok && old(CustomViewState()) ==> CustomViewState()
    {
      if customView.None? {
        return true;
      }
      keepScreenOn := false;
      SetImmersiveMode(false);
      appBarVisible := true;
      webViewContainerVisible := true;
      effects := effects + [RemoveView(customView.value)];
      if fullScreenCallback.None? {
        return false;
      }
      effects := effects + [CustomViewHidden(fullScreenCallback.value)];
      fullScreenCallback := None;
      customView := None;
      return true;
    }

    /** The effects `setImmersiveMode` leaves: the insets-controller call from Android R on, none before. */
    function ImmersiveEffects(enable: bool): seq<Effect>
      reads this
    {
      if sdkInt >= VERSION_R then [InsetsImmersive(enable)] else []
    }

    /** The flags `setImmersiveMode` leaves: below Android R the six immersive flags set or cleared. */
    function ImmersiveVisibility(flags: bv32, enable: bool): bv32
      reads this
    {
      if sdkInt >= VERSION_R then flags else ImmersiveFlags(flags, enable)
    }

    /** `setImmersiveMode(enable)`: below Android R, set or clear the six immersive flags. */
    method SetImmersiveMode(enable: bool)
      modifies this`systemUiVisibility, this`effects
      ensures systemUiVisibility == ImmersiveVisibility(old(systemUiVisibility), enable)
      ensures effects == old(effects) + ImmersiveEffects(enable)
    {
      if sdkInt >= VERSION_R {
        effects := effects + [InsetsImmersive(enable)];
      } else {
        systemUiVisibility := ImmersiveFlags(systemUiVisibility, enable);
      }
    }

    /** `onWindowFocusChanged(hasFocus)`: immersive exactly while focused with a custom view shown. */
    method OnWindowFocusChanged(hasFocus: bool)
      modifies this`systemUiVisibility, this`effects
      ensures systemUiVisibility == ImmersiveVisibility(old(systemUiVisibility), hasFocus && customView.Some?)
      ensures effects == old(effects) + ImmersiveEffects(hasFocus && customView.Some?)
    {
      SetImmersiveMode(hasFocus && customView.Some?);
    }

    /** The flags `resetSystemUIColor` leaves: below Android R both light-bar bits cleared. */
    function ResetFlags(flags: bv32): bv32
      reads this
    {
      if sdkInt >= VERSION_R then flags else ResetLightBarFlags(flags)
    }

    /** The effects `resetSystemUIColor` leaves: the insets-controller call from Android R on, none before. */
    function ResetEffects(): seq<Effect>
      reads this
    {
      if sdkInt >= VERSION_R then [InsetsResetLightBars] else []
    }

    /** `resetSystemUIColor()`: no light bars, black bars. */
    method ResetSystemUiColor()
      modifies this`systemUiVisibility, this`effects, this`statusBarColor, this`navigationBarColor
      ensures systemUiVisibility == ResetFlags(old(systemUiVisibility)) && effects == old(effects) + ResetEffects()
      ensures statusBarColor == BLACK && navigationBarColor == BLACK
    {
      if sdkInt >= VERSION_R {
        effects := effects + [InsetsResetLightBars];
      } else {
        systemUiVisibility := ResetLightBarFlags(systemUiVisibility);
      }
      statusBarColor := BLACK;
      navigationBarColor := BLACK;
    }

    /**
     * The window once `applyThemeColor(color)` has run with `c` as the colour
     * after its fallback, from the bar colours, flags and effects before;
     * `described` is whether it got as far as the `TaskDescription`. With an
     * action bar, it and both system bars take `c`; otherwise only the bar
     * holding the toolbar (the navigation bar in reach mode, the status bar
     * otherwise). The bar icons go dark on a light colour.
     */
    ghost predicate ThemeApplied(color: Int, c: Int, reachMode: bool, status0: Int, nav0: Int, flags0: bv32,
                                 effects0: seq<Effect>, described: bool)
      reads this
    {
      var painted := if hasActionBar then [ActionBarBackground(c)] else [];
      var lightBars := if sdkInt >= VERSION_R then [InsetsLightBars(isColorLight(c), reachMode)] else [];
      && themeColor == color
      && statusBarColor == (if hasActionBar || !reachMode then c else status0)
      && navigationBarColor == (if hasActionBar || reachMode then c else nav0)
      && progressTint == ProgressColor(color != TRANSPARENT, isColorLight(c), palette.colorAccent)
      && systemUiVisibility == (if sdkInt >= VERSION_R then flags0 else LightBarFlags(flags0, isColorLight(c), reachMode))
      && effects == effects0 + painted + lightBars + (if described then [TaskDescription(c)] else [])
    }

    /**
     * `applyThemeColor(color)`: remember the colour, paint the action bar and
     * the system bars with it or its fallback, tint the progress bar and pick
     * light or dark bar icons; last, the `TaskDescription` reads
     * `mWebView.title`, which fails (`ok` false) while `mWebView` is not yet
     * assigned. The fallback reads `mWebView` too, so only a non-transparent
     * colour gets that far without it.
     */
    method ApplyThemeColor(color: Int, reachMode: bool) returns (ok: bool)
      requires webViewAssigned || color != TRANSPARENT
      modifies this`themeColor, this`statusBarColor, this`navigationBarColor, this`progressTint,
               this`systemUiVisibility, this`effects
      ensures ok == webViewAssigned
      ensures ThemeApplied(color, ThemeColorWithFallback(color, webView.isIncognito, palette), reachMode,
                           old(statusBarColor), old(navigationBarColor), old(systemUiVisibility), old(effects), ok)
    {
      var hasValidColor := color != TRANSPARENT;
      themeColor := color;
      var c := ThemeColorWithFallback(themeColor, webView.isIncognito, palette);
      PaintBars(c, reachMode);
      progressTint := ProgressColor(hasValidColor, isColorLight(c), palette.colorAccent);
      SetLightBars(isColorLight(c), reachMode);
      if !webViewAssigned {
        return false;
      }
      effects := effects + [TaskDescription(c)];
      return true;
    }

    /**
     * The colour part of `applyThemeColor`: with an action bar, it and both
     * system bars take the colour; either way the bar holding the toolbar
     * (the navigation bar in reach mode, the status bar otherwise) takes it.
     */
    method PaintBars(c: Int, reachMode: bool)
      modifies this`statusBarColor, this`navigationBarColor, this`effects
      ensures statusBarColor == (if hasActionBar || !reachMode then c else old(statusBarColor))
      ensures navigationBarColor == (if hasActionBar || reachMode then c else old(navigationBarColor))
      ensures effects == old(effects) + if hasActionBar then [ActionBarBackground(c)] else []
    {
      if hasActionBar {
        effects := effects + [ActionBarBackground(c)];
        statusBarColor := c;
        navigationBarColor := c;
      }
      if reachMode {
        navigationBarColor := c;
      } else {
        statusBarColor := c;
      }
    }

    /** The light-bar part of `applyThemeColor`: dark icons on a light colour, on the bar holding the toolbar. */
    method SetLightBars(light: bool, reachMode: bool)
      modifies this`systemUiVisibility, this`effects
      ensures sdkInt >= VERSION_R ==>
                systemUiVisibility == old(systemUiVisibility) && effects == old(effects) + [InsetsLightBars(light, reachMode)]
      ensures sdkInt < VERSION_R ==>
                systemUiVisibility == LightBarFlags(old(systemUiVisibility), light, reachMode) && effects == old(effects)
    {
      if sdkInt >= VERSION_R {
        effects := effects + [InsetsLightBars(light, reachMode)];
      } else {
        systemUiVisibility := LightBarFlags(systemUiVisibility, light, reachMode);
      }
    }

    /**
     * `downloadFileAsk(url, contentDisposition, mimeType)`, given whether the
     * storage permission is held: without it, remember the URL and ask for
     * the permission; with it, forget any pending URL and ask the user.
     */
    method DownloadFileAsk(url: Option<string>, contentDisposition: Option<string>, mimeType: Option<string>,
                           hasStoragePermission: bool)
      modifies this`waitingDownloadUrl, this`effects
      ensures !hasStoragePermission ==>
                waitingDownloadUrl == url && effects == old(effects) + [RequestStoragePermission]
      ensures hasStoragePermission ==>
                && waitingDownloadUrl.None?
                && effects == old(effects) + [DownloadDialog(url, guessFileName(url, contentDisposition, mimeType))]
    {
      var fileName := guessFileName(url, contentDisposition, mimeType);
      if !hasStoragePermission {
        waitingDownloadUrl := url;
        effects := effects + [RequestStoragePermission];
        return;
      }
      waitingDownloadUrl := None;
      effects := effects + [DownloadDialog(url, fileName)];
    }

    /**
     * `onRequestPermissionsResult(requestCode, …)`, given the permissions held
     * now and whether the platform would show a rationale for storage.
     */
    method OnRequestPermissionsResult(requestCode: int, hasStoragePermission: bool, hasLocationPermission: bool,
                                      showRationale: bool)
      requires webViewAssigned
      modifies this`waitingDownloadUrl, this`effects, webView`effects
      ensures requestCode == LOCATION_PERM_REQ ==>
                && waitingDownloadUrl == old(waitingDownloadUrl) && effects == old(effects)
                && webView.effects == old(webView.effects) + (if hasLocationPermission then [WebView.ReloadPage] else [])
      ensures requestCode == STORAGE_PERM_REQ && hasStoragePermission && old(waitingDownloadUrl).Some? ==>
                && waitingDownloadUrl.None?
                && effects == old(effects) + [DownloadDialog(old(waitingDownloadUrl), guessFileName(old(waitingDownloadUrl), None, None))]
      ensures requestCode == STORAGE_PERM_REQ && !(hasStoragePermission && old(waitingDownloadUrl).Some?) ==>
                && waitingDownloadUrl == old(waitingDownloadUrl)
                && effects == old(effects) + [if showRationale then PermissionRationaleDialog else PermissionDeniedSnackbar]
      ensures requestCode != LOCATION_PERM_REQ && requestCode != STORAGE_PERM_REQ ==>
                waitingDownloadUrl == old(waitingDownloadUrl) && effects == old(effects)
      ensures requestCode != LOCATION_PERM_REQ ==> webView.effects == old(webView.effects)
    {
      if requestCode == LOCATION_PERM_REQ {
        if hasLocationPermission {
          webView.Reload();
        }
      } else if requestCode == STORAGE_PERM_REQ {
        if hasStoragePermission && waitingDownloadUrl.Some? {
          DownloadFileAsk(waitingDownloadUrl, None, None, hasStoragePermission);
        } else if showRationale {
          effects := effects + [PermissionRationaleDialog];
        } else {
          effects := effects + [PermissionDeniedSnackbar];
        }
      }
    }

    /**
     * `setAsFavorite(title, url)`, given the favicon's colour (`None` without a
     * usable favicon). A null title or URL fails at `!!` (`ok` false).
     */
    method SetAsFavorite(title: Option<string>, url: Option<string>, iconColor: Option<Int>) returns (ok: bool)
      modifies this`effects
      ensures ok <==> title.Some? && url.Some?
      ensures ok ==> effects == old(effects) + [SaveFavorite(title.value, url.value, FavoriteColor(iconColor, palette.colorAccent))]
      ensures !ok ==> effects == old(effects)
    {
      var color := iconColor.GetOr(TRANSPARENT);
      if color == TRANSPARENT {
        color := palette.colorAccent;
      }
      if title.None? || url.None? {
        return false;
      }
      effects := effects + [SaveFavorite(title.value, url.value, color)];
      return true;
    }
  }

  /**
   * A first launch (no saved state) from an intent carrying a URL, with
   * `onCreate` as written: creation completes, but the URL is never loaded,
   * the only request header is the Do-Not-Track one when the preference is
   * on, the one engine effect is the reload of the mode switch, and no
   * search has started.
   */
  method LaunchWithIntentUrl(engineSettings: WebView.Settings, searchWidgets: (Option<string>, Option<string>, bool, bool),
                             palette: Palette, sdkInt: int, hasActionBar: bool, isColorLight: Int -> bool,
                             guessFileName: (Option<string>, Option<string>, Option<string>) -> string,
                             window: (bv32, Int, Int), policy: int, prefs: WebView.Prefs,
                             homePage: Option<string>, utils: WebView.UrlUtils, reachMode: bool)
    returns (a: MainActivity, ok: bool)
    ensures ok && a.Created() && !a.webView.desktopMode
    ensures a.webView.lastLoadedUrl.None?
    ensures a.webView.requestHeaders == if prefs.doNotTrack then map[WebView.HEADER_DNT := "1"] else map[]
    ensures a.webView.effects == [WebView.ReloadPage]
    ensures !a.searchController.hasStartedSearch
  {
    a := new MainActivity(engineSettings, searchWidgets, palette, sdkInt, hasActionBar, isColorLight, guessFileName, window);
    ok := a.OnCreate(policy, Intent(None, Some("https://example.org/"), false), None, prefs, homePage, utils, reachMode);
  }

  /**
   * A download asked for without the storage permission is remembered and,
   * once the permission arrives, offered with the same URL; nothing remains
   * pending afterwards.
   */
  method DownloadAfterPermission(a: MainActivity, url: string, contentDisposition: Option<string>, mimeType: Option<string>)
    requires a.webViewAssigned
    modifies a, a.webView`effects
    ensures a.waitingDownloadUrl.None?
    ensures a.effects == old(a.effects) + [RequestStoragePermission, DownloadDialog(Some(url), a.guessFileName(Some(url), None, None))]
  {
    a.DownloadFileAsk(Some(url), contentDisposition, mimeType, false);
    a.OnRequestPermissionsResult(STORAGE_PERM_REQ, true, false, false);
  }
}
