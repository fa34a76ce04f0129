# Yunikon browser core, modelled in Dafny

Yunikon is an Android browser built on the platform WebView. This project
models the three parts of it that hold decision logic, and proves what they promise.

- **Find in page** (`SearchBarController`). A state machine over three fields:
  whether a search has started, the current match position and the match total.
  It reacts to the search editor, the prev/next/cancel buttons and the engine's
  find callback. It derives the buttons' enabled state and the status label
  "position+1/total". Calls to the engine (`findAllAsync`, `findNext`,
  `clearMatches`), to the keyboard and to the cancel listener are recorded in
  an effect log.
- **WebView wrapper** (`WebViewExt`). One-time set-up of the engine settings.
  Storage is enabled only outside incognito. Setup adds the Do-Not-Track header
  when its preference is on, and installs the long-press and download listeners. It also derives the mobile
  and desktop user agents from the engine's default user agent.
  - That derivation is a whole-string Java regex match, `([^)]+ \()([^)]+)(\) .*)`.
    It is written here as an explicit matcher. The matcher is proved sound and
    complete against the regex's language, and it picks the greedy split Java
    picks (`UserAgent.Match`, `MatchComplete`, `MatchExact`).
  - `loadUrl`/`followUrl`: the URL filter first, then the search template,
    then nothing.
  - The desktop-mode setter.
- **Host activity** (`MainActivity`), its decision rules:
  - `onCreate`: the incognito policy and the restore from saved state;
  - the back-button priority;
  - showing and cancelling search;
  - the single full-screen custom view;
  - the pending download across the storage-permission request;
  - the `systemUiVisibility` bit arithmetic below Android R (module `SystemUi`);
  - the theme-colour fallbacks and the favourite colour.

Kotlin and JVM semantics the code relies on are in module `Kotlin`:
- nullable values;
- the 32-bit `Int` with wrap-around, used for `position + 1` and `total - 1`;
- `Int.toString()`, with a proved parse round trip;
- `String.replace`;
- `TextUtils.isEmpty`.

Three kinds of failure are modelled as an `ok: false` result rather than left out:
- a `!!` on null (`onShowCustomView`, `onHideCustomView`, `setAsFavorite`);
- a null argument for a parameter Kotlin declares non-null (the `event` of `onEditorAction`);
- the read of the `lateinit` property `mWebView` before it is assigned.

The last one is reached on creation. `onCreate` calls `setUiMode()` (line 187) before it assigns
`mWebView` (line 193). `setUiMode()` calls `applyThemeColor` for a restored non-transparent theme
colour (lines 753-755), and `applyThemeColor` reads `mWebView.title` (line 582) after painting the
bars. So a restore with a stored theme colour fails: `Activity.MainActivity.OnCreate` models
`onCreate` as written, and `Activity.MainActivity.OnCreateIntended` the corrected version (see
"## Findings").

Calls into code that is not part of this model enter as parameters:
- `UrlUtils.smartUrlFilter`, `UrlUtils.getFormattedUri`: fields of `WebView.UrlUtils`;
- `PrefsUtils` preferences: `WebView.Prefs`, and the policy and home page given to `OnCreate`;
- `UiUtils.isColorLight`, `URLUtil.guessFileName`: functions held by the activity;
- platform state: permission checks, `canGoBack`, the page URL, the favicon colour, reach mode.

Two details of the code are easy to misread:
- `onShow` enables prev and next whenever the editor holds text, because no search has started
  yet.
- When the user agent does not match the pattern, the mobile user agent is the engine's default
  unchanged. Only the desktop user agent falls back to a constant.

## Model

| member | source | states |
|---|---|---|
| Kotlin.Wrap | app/src/main/java/mx/xperience/Yunikon/ui/SearchBarController.kt:114 | Kotlin `Int` arithmetic: the result is in the 32-bit range, agrees with the mathematical value when that fits and differs from it by a multiple of 2^32 |
| Kotlin.IntToString | app/src/main/java/mx/xperience/Yunikon/ui/SearchBarController.kt:119 | `Int.toString()` is non-empty and made of digits and '-' only |
| Kotlin.ParseIntToString | app/src/main/java/mx/xperience/Yunikon/ui/SearchBarController.kt:119 | reading the decimal text of any integer back gives that integer |
| Kotlin.Replace | app/src/main/java/mx/xperience/Yunikon/webview/WebViewExt.kt:107-110 | `String.replace` introduces no character absent from the input and the replacement |
| Kotlin.ReplaceWithoutOccurrence | app/src/main/java/mx/xperience/Yunikon/webview/WebViewExt.kt:107 | where the target does not occur, `replace` returns its input unchanged |
| UserAgent.Match | app/src/main/java/mx/xperience/Yunikon/webview/WebViewExt.kt:104-106 | a successful match splits the user agent into three strings in the languages of the three groups, concatenating back to the input |
| UserAgent.FirstCloseOfSplit | app/src/main/java/mx/xperience/Yunikon/webview/WebViewExt.kt:104 | in every split allowed by the pattern, group 3 starts at the first ')' |
| UserAgent.MatchComplete | app/src/main/java/mx/xperience/Yunikon/webview/WebViewExt.kt:104-106 | every string of the pattern's language is matched, and the matched group 1 is at least as long as the group 1 of any other split (greedy) |
| UserAgent.MatchExact | app/src/main/java/mx/xperience/Yunikon/webview/WebViewExt.kt:104-109 | when the device group has no '(' the split is unique, and the matcher returns it |
| UserAgent.Derive | app/src/main/java/mx/xperience/Yunikon/webview/WebViewExt.kt:104-116 | the derivation matched exactly when the pattern matches; without a match, mobile is the default user agent and desktop the fixed fallback |
| UserAgent.DesktopSuffixShape | app/src/main/java/mx/xperience/Yunikon/webview/WebViewExt.kt:109-110 | replacing " Mobile " by " " keeps a suffix in the shape of group 3 |
| UserAgent.MobileDeviceShape | app/src/main/java/mx/xperience/Yunikon/webview/WebViewExt.kt:107 | removing "; wv" never introduces a ')' into the device group |
| UserAgent.DesktopReparses | app/src/main/java/mx/xperience/Yunikon/webview/WebViewExt.kt:109-111 | the desktop user agent matches the pattern again, with the same prefix, device "X11; Linux x86_64" and the rewritten suffix |
| UserAgent.MobileReparses | app/src/main/java/mx/xperience/Yunikon/webview/WebViewExt.kt:107-108 | the mobile user agent still matches the pattern unless its device group was made only of "; wv" markers |
| UserAgent.MobileWithoutMarker | app/src/main/java/mx/xperience/Yunikon/webview/WebViewExt.kt:107-108 | a device group without "; wv" leaves the mobile user agent equal to the default |
| WebView.FilteredUrlIgnoresTemplate | app/src/main/java/mx/xperience/Yunikon/webview/WebViewExt.kt:54-58 | a URL the filter accepts is loaded as filtered, whatever the search template and formatter |
| WebView.RejectedUrlUsesTemplate | app/src/main/java/mx/xperience/Yunikon/webview/WebViewExt.kt:59-64 | input the filter rejects (or null input) goes to the formatted search URI, and nothing is loaded if that is null |
| WebView.LongPressSheet | app/src/main/java/mx/xperience/Yunikon/webview/WebViewExt.kt:82-95 | image and image-anchor hits show the sheet with download, plain anchors without, and every other type is not handled (each an if-and-only-if) |
| WebView.ConfiguredSettings | app/src/main/java/mx/xperience/Yunikon/webview/WebViewExt.kt:68-76 | app cache, database and DOM storage are each enabled exactly outside incognito; scripting follows the preference; the user agent and viewport are untouched |
| WebView.WebViewExt.constructor | app/src/main/java/mx/xperience/Yunikon/webview/WebViewExt.kt:35-43 | no headers, no activity, no user agents, not incognito, mobile mode, nothing loaded |
| WebView.WebViewExt.LoadUrl | app/src/main/java/mx/xperience/Yunikon/webview/WebViewExt.kt:49-52 | the raw input becomes `lastLoadedUrl`, then at most one load of the follow target happens with the current headers; nothing else changes |
| WebView.WebViewExt.FollowUrl | app/src/main/java/mx/xperience/Yunikon/webview/WebViewExt.kt:54-65 | exactly the loads of the follow target, the template read only when an activity is attached |
| WebView.WebViewExt.Setup | app/src/main/java/mx/xperience/Yunikon/webview/WebViewExt.kt:67-120 | settings as configured, with the mobile user agent active; both user agents as derived from the engine's prior user agent; DNT header by preference; listeners installed |
| WebView.WebViewExt.ConfigureSettings | app/src/main/java/mx/xperience/Yunikon/webview/WebViewExt.kt:68-76 | the settings become the configured settings for the preferences and the incognito flag |
| WebView.WebViewExt.DeriveUserAgents | app/src/main/java/mx/xperience/Yunikon/webview/WebViewExt.kt:104-116 | the two user agents are those of the derivation, and only the mobile one replaces the active user agent |
| WebView.WebViewExt.Init | app/src/main/java/mx/xperience/Yunikon/webview/WebViewExt.kt:122-131 | the activity is attached, the incognito flag stored and set-up done; in mobile mode the active user agent is the mode's |
| WebView.WebViewExt.SetDesktopMode | app/src/main/java/mx/xperience/Yunikon/webview/WebViewExt.kt:149-158 | the active user agent becomes the mode's variant (the engine default if that is null), wide viewport and overview follow the mode, one reload is issued |
| WebView.WebViewExt.OnLongClick | app/src/main/java/mx/xperience/Yunikon/webview/WebViewExt.kt:78-97 | handled exactly for the three sheet types, one sheet call with the classified download flag, and `shouldAllowDownload` is false again afterwards |
| WebView.WebViewExt.OnDownloadStart | app/src/main/java/mx/xperience/Yunikon/webview/WebViewExt.kt:98 | every download goes to the host for confirmation with its URL, disposition and MIME type |
| WebView.ToggleDesktopModeTwice | app/src/main/java/mx/xperience/Yunikon/webview/WebViewExt.kt:149-158 | switching desktop mode and back restores the active user agent and the mode |
| SearchBar.EmptyQueryDisablesButtons | app/src/main/java/mx/xperience/Yunikon/ui/SearchBarController.kt:109-115 | with an empty or null query prev and next are disabled, whatever the counts |
| SearchBar.StartedButtons | app/src/main/java/mx/xperience/Yunikon/ui/SearchBarController.kt:109-115 | during a search, prev is enabled iff the query is non-empty and position > 0, next iff it is non-empty and position < total - 1 |
| SearchBar.NotStartedButtons | app/src/main/java/mx/xperience/Yunikon/ui/SearchBarController.kt:109-115 | before a search starts, both buttons are enabled iff the query is non-empty |
| SearchBar.StatusTextReadsBack | app/src/main/java/mx/xperience/Yunikon/ui/SearchBarController.kt:117-123 | a status label exists exactly when total > 0, and it reads back as the pair (position+1, total) |
| SearchBar.SearchBarController.constructor | app/src/main/java/mx/xperience/Yunikon/ui/SearchBarController.kt:38-40 | not started, position and total 0, no effects |
| SearchBar.SearchBarController.OnShow | app/src/main/java/mx/xperience/Yunikon/ui/SearchBarController.kt:41-47 | position and total -1, not started, status null, buttons enabled iff the editor holds text; focus, keyboard and one `clearMatches` in that order |
| SearchBar.SearchBarController.OnCancel | app/src/main/java/mx/xperience/Yunikon/ui/SearchBarController.kt:49-53 | status null, one `clearMatches` and one cancel notification; counters and started flag untouched |
| SearchBar.SearchBarController.AfterTextChanged | app/src/main/java/mx/xperience/Yunikon/ui/SearchBarController.kt:57-60 | an empty text resets the search and finds nothing; a text issues one find for it, keeps the old counts in the label and marks the search started; buttons then follow the new state |
| SearchBar.SearchBarController.OnEditorAction | app/src/main/java/mx/xperience/Yunikon/ui/SearchBarController.kt:62-69 | a null event fails the non-null parameter check; otherwise handled iff the action is the search key, then the keyboard is hidden and a search started; when not handled nothing changes; buttons untouched |
| SearchBar.SearchBarController.OnFindResultReceived | app/src/main/java/mx/xperience/Yunikon/ui/SearchBarController.kt:71-77 | the engine's ordinal and count are stored verbatim, the started flag kept, buttons and label recomputed, no engine call |
| SearchBar.SearchBarController.OnClick | app/src/main/java/mx/xperience/Yunikon/ui/SearchBarController.kt:79-88 | keyboard hidden, then cancel, or start a search when none started, or one `findNext` forward exactly for the next button |
| SearchBar.SearchBarController.StartSearch | app/src/main/java/mx/xperience/Yunikon/ui/SearchBarController.kt:90-100 | empty query: results cleared, status null, not started, no find; otherwise exactly one `findAllAsync(query)` and started |
| SearchBar.SearchBarController.ClearSearchResults | app/src/main/java/mx/xperience/Yunikon/ui/SearchBarController.kt:102-107 | position and total -1, not started, one `clearMatches` |
| SearchBar.SearchBarController.UpdateNextAndPrevButtonEnabledState | app/src/main/java/mx/xperience/Yunikon/ui/SearchBarController.kt:109-115 | the buttons take the enablement rules for the current query and state |
| SearchBar.SearchBarController.UpdateStatusText | app/src/main/java/mx/xperience/Yunikon/ui/SearchBarController.kt:117-123 | the label takes the status text of the current counts |
| SystemUi.ImmersiveFlags | app/src/main/java/mx/xperience/Yunikon/MainActivity.kt:678-690 | entering sets all six immersive bits and leaving clears exactly them; every other bit is unchanged either way |
| SystemUi.ImmersiveRoundTrip | app/src/main/java/mx/xperience/Yunikon/MainActivity.kt:685-689 | entering and then leaving immersive mode gives back flags that held none of the six bits |
| SystemUi.LightBarFlags | app/src/main/java/mx/xperience/Yunikon/MainActivity.kt:566-580 | the navigation-bar (reach mode) or status-bar light bit is set exactly for a light colour; all other bits are unchanged |
| SystemUi.ResetLightBarFlags | app/src/main/java/mx/xperience/Yunikon/MainActivity.kt:594-597 | both light-bar bits cleared, every other bit unchanged |
| Activity.IncognitoChoice | app/src/main/java/mx/xperience/Yunikon/MainActivity.kt:165-169 | policy 1: always incognito; policy 2: incognito iff the action is not MAIN (a null action included); otherwise the intent's extra |
| Activity.LaunchState | app/src/main/java/mx/xperience/Yunikon/MainActivity.kt:172-179 | without saved state: the policy's choice, the intent URL, mobile, no theme colour; with it: each saved key overrides, the saved URL only when the intent URL is null or empty |
| Activity.RestoreAfterSave | app/src/main/java/mx/xperience/Yunikon/MainActivity.kt:299-307 | restoring a saved bundle gives back the saved incognito flag whatever the policy, desktop mode, theme colour, and the URL unless the intent brings one |
| Activity.StartupLoadAsWritten | app/src/main/java/mx/xperience/Yunikon/MainActivity.kt:196 | as written, a non-null startup URL is never loaded, and without one the home page is |
| Activity.StartupLoad | app/src/main/java/mx/xperience/Yunikon/MainActivity.kt:196 | the intended load: the URL if there is one, else the home page; something is loaded iff either exists |
| Activity.StartupLoadDropsIntentUrl | app/src/main/java/mx/xperience/Yunikon/MainActivity.kt:196 | for the URL "https://example.org/" the code as written loads nothing, and the intended version loads that URL |
| Activity.StartupLoadWithoutUrl | app/src/main/java/mx/xperience/Yunikon/MainActivity.kt:196 | without a URL both versions load the home page |
| Activity.BackActionFor | app/src/main/java/mx/xperience/Yunikon/MainActivity.kt:255-265 | each of the four outcomes exactly under its condition: search first, then the custom view, then history, then the system |
| Activity.ThemeColorWithFallback | app/src/main/java/mx/xperience/Yunikon/MainActivity.kt:603-607 | a non-transparent theme colour is kept; otherwise the incognito or the primary colour |
| Activity.FallbackIsOpaqueAndStable | app/src/main/java/mx/xperience/Yunikon/MainActivity.kt:603-607 | with opaque resource colours the fallback is never transparent, and applying it twice changes nothing |
| Activity.ProgressColor | app/src/main/java/mx/xperience/Yunikon/MainActivity.kt:538 | black on a light page colour, white on a dark one, the accent colour without one |
| Activity.FavoriteColor | app/src/main/java/mx/xperience/Yunikon/MainActivity.kt:398-402 | the favicon colour when usable and non-transparent, the accent otherwise; never transparent unless the accent is |
| Activity.MainActivity.constructor | app/src/main/java/mx/xperience/Yunikon/MainActivity.kt:109-120 | the field defaults before `onCreate`: nothing assigned, not incognito, no theme colour, no pending download, no custom view, no search; the inflated WebView with the engine's settings, no headers, no activity, no user-agent variants, mobile mode, nothing loaded; the search controller not started at 0/0 with the widgets' state |
| Activity.MainActivity.OnCreate | app/src/main/java/mx/xperience/Yunikon/MainActivity.kt:161-208 | the launch state's incognito flag and theme colour; the bars reset and the theme colour painted over them, with the `TaskDescription` only on success; ends normally iff no theme colour was restored, and then the WebView is set up for the launch state as `StartWebView` states (settings, user agents, viewport, listeners, headers), with the load of line 196 as written (the home page only when there is no URL) |
| Activity.MainActivity.SetUiMode | app/src/main/java/mx/xperience/Yunikon/MainActivity.kt:713-720 | the bars reset; a non-transparent theme colour is painted again and fails at the title read exactly while `mWebView` is unassigned; a transparent one leaves the tint and colour as they are |
| Activity.MainActivity.OnCreateIntended | app/src/main/java/mx/xperience/Yunikon/MainActivity.kt:161-208 | the corrected creation: always completes, the theme colour applied once after the WebView is set up as `StartWebView` states, and the startup URL loaded when there is one, else the home page |
| Activity.MainActivity.FinishCreate | app/src/main/java/mx/xperience/Yunikon/MainActivity.kt:193-208 | both `lateinit` fields assigned, the WebView started for the target as `StartWebView` states, then the theme colour applied in full |
| Activity.MainActivity.StartWebView | app/src/main/java/mx/xperience/Yunikon/MainActivity.kt:193-196 | the WebView is attached, incognito as launched, listeners installed; its user-agent variants are those derived from the engine's user agent; its settings are the configured ones with the variant, wide viewport and overview of the launched mode; the DNT header by preference; one reload for the mode and then exactly the loads of the followed target |
| Activity.LaunchWithIntentUrl | app/src/main/java/mx/xperience/Yunikon/MainActivity.kt:161-208 | a first launch from an intent with a URL, as written: creation completes, nothing is loaded, the DNT header is the only possible header, one reload, no search started |
| Activity.MainActivity.OnSaveInstanceState | app/src/main/java/mx/xperience/Yunikon/MainActivity.kt:299-307 | the bundle holds the page URL, the WebView's incognito and desktop flags and the theme colour |
| Activity.MainActivity.OnBackPressed | app/src/main/java/mx/xperience/Yunikon/MainActivity.kt:255-265 | the action is the priority rule's; cancelling search clears the controller's status and leaves search mode, hiding the custom view leaves immersive mode and fails only without a callback, going back issues one engine `goBack`; search state is untouched except by cancelling, window and custom-view state except by hiding |
| Activity.MainActivity.ShowSearch | app/src/main/java/mx/xperience/Yunikon/MainActivity.kt:359-364 | search mode on, the search page shown instead of the URL bar, and the controller as after `onShow`: reset counters, no status, buttons enabled iff the editor holds text, editor untouched |
| Activity.MainActivity.OnCancelSearch | app/src/main/java/mx/xperience/Yunikon/MainActivity.kt:366-370 | search mode off, the URL bar shown again |
| Activity.MainActivity.OnShowCustomView | app/src/main/java/mx/xperience/Yunikon/MainActivity.kt:609-625 | while a view is shown a new request only reports its callback hidden; otherwise keep-screen-on, view and callback stored, immersive, browser hidden, the flags immersive below Android R and unchanged from R on; a null view fails after going immersive, with the browser still shown |
| Activity.MainActivity.OnHideCustomView | app/src/main/java/mx/xperience/Yunikon/MainActivity.kt:627-640 | no view: nothing changes; otherwise immersive off and browser shown, then the view removed and its callback told, both cleared; the flags leave immersive below Android R and are unchanged from R on; a missing callback fails after the view is removed |
| Activity.MainActivity.SetImmersiveMode | app/src/main/java/mx/xperience/Yunikon/MainActivity.kt:663-692 | below Android R the flags become the immersive flags for the request; from R on one insets call is recorded |
| Activity.MainActivity.OnWindowFocusChanged | app/src/main/java/mx/xperience/Yunikon/MainActivity.kt:694-697 | immersive exactly when focused with a custom view shown, by the flags below Android R and one insets call from R on |
| Activity.MainActivity.ResetSystemUiColor | app/src/main/java/mx/xperience/Yunikon/MainActivity.kt:587-601 | both light-bar bits cleared (one insets call from R on), both bars black |
| Activity.MainActivity.ApplyThemeColor | app/src/main/java/mx/xperience/Yunikon/MainActivity.kt:515-584 | the colour is stored; the bars and light-bar choice use the colour with its fallback, and the progress tint is black or white by its lightness only when a colour was given; the `TaskDescription` is set, and the call succeeds, exactly when `mWebView` is assigned |
| Activity.MainActivity.PaintBars | app/src/main/java/mx/xperience/Yunikon/MainActivity.kt:520-546 | with an action bar both system bars take the colour; without one only the bar holding the toolbar does |
| Activity.MainActivity.SetLightBars | app/src/main/java/mx/xperience/Yunikon/MainActivity.kt:547-581 | below Android R the light-bar flag is set or cleared; from R on one insets call is recorded |
| Activity.MainActivity.DownloadFileAsk | app/src/main/java/mx/xperience/Yunikon/MainActivity.kt:407-423 | without the permission the URL becomes pending and the permission is requested; with it the pending URL is cleared and the download dialog shown for the guessed file name |
| Activity.MainActivity.OnRequestPermissionsResult | app/src/main/java/mx/xperience/Yunikon/MainActivity.kt:267-296 | location: reload iff granted; storage: the pending download is asked again exactly when granted and pending, otherwise the rationale dialog or the denial snackbar; other codes do nothing |
| Activity.MainActivity.SetAsFavorite | app/src/main/java/mx/xperience/Yunikon/MainActivity.kt:397-405 | succeeds iff title and URL are non-null, and then stores exactly one favourite with the chosen colour |
| Activity.DownloadAfterPermission | app/src/main/java/mx/xperience/Yunikon/MainActivity.kt:274-275 | a download asked for without permission is offered with the same URL once the permission is granted, and nothing stays pending |

## Left out

- HistoryActivity, the favourites screen and the content providers: list UI over platform storage, with no rule of their own.
- `UrlUtils`, `PrefsUtils`, `UiUtils`, `TabUtils`, `IntentUtils`: their code is not part of this model. They enter as parameters or arbitrary functions, and none of their rules (URL fix-up, colour extraction, lightness) is assumed.
- Rendering and platform calls are recorded as effects or fields, not simulated: engine navigation and find, dialogs, snackbars, `TransitionDrawable` animations, task descriptions and window flags.
- The Android R `insetsController` branches are recorded as single effects. The `insetsController?.let` null case is not distinguished.
- The layout-rule edits of `changeUiMode` are left out. So is the `setUiMode` alpha toggling. Of `setUiMode`, only its colour part (`resetSystemUIColor` and the theme-colour re-application) is modelled.
- The parts of `onCreate` without rules are left out: the URL-bar listeners, `setupMenu`, the incognito IME flag, the incognito icon, `UrlBarController`, `isThemeColorSupported` and the HTTP response cache.
- The menu actions are left out because they are platform intents with no rules of their own: share, print, shortcut, settings, new tab, and the desktop-mode menu item beyond `WebView.WebViewExt.SetDesktopMode`.
- `fetchFile` and the DownloadManager request, `showSheetMenu`, `addShortcut`, and the URL-resolved and UI-mode broadcast receivers are left out.
- Also left out: `onStart`, `onStop`, `onPause` and `onResume` (cookies and secure-window flags), and `onThemeColorSet` and `onFaviconLoaded`.
- `SetAsFavoriteTask` and other background work are not modelled, because they are fire-and-forget threads. `setAsFavorite` records the store request as one effect.
- `setAppCachePath`, the chrome and navigation clients given to `init`, and the `snap` bitmap of WebViewExt are left out.
- The find callback's ordering relative to new queries is not modelled, because the code has no guard against stale results. The model records stale and fresh callbacks alike.
- Activity.MainActivity.OnHideCustomView: the cast of the view's parent to `ViewGroup` is assumed to succeed. A view without a parent is not modelled.
- SearchBar.StartedButtons: the next-button rule is stated for totals above `Int.MIN_VALUE` only. At `Int.MIN_VALUE`, `total - 1` wraps to `Int.MAX_VALUE`; `SearchBar.NextEnabled` models the wrap, but the lemma does not restate it.
- WebView.ToggleDesktopModeTwice: it requires the active user agent to be that of the current mode. That fails only when set-up runs while desktop mode is already on, because set-up installs the mobile variant. `onCreate` runs set-up on a fresh WebView in mobile mode, before it sets the mode.
- WebView.WebViewExt.OnLongClick: it requires the listener's `shouldAllowDownload` to be false on entry, and every call leaves it false again.
- `SearchBar.ParseStatus` is a reader of status labels defined for the round-trip statement; the browser itself never parses its label.

## Findings

| source | as written | input that shows it | evidently intended | confidence | as-written member | corrected member |
|---|---|---|---|---|---|---|
| app/src/main/java/mx/xperience/Yunikon/MainActivity.kt:196 | the load call is inside the right operand of the elvis operator, so it runs only when the startup URL is null | an intent whose data is "https://example.org/", with a home page set: nothing is loaded | load the startup URL when there is one, else the home page | not executed | Activity.StartupLoadAsWritten, Activity.MainActivity.OnCreate, Activity.LaunchWithIntentUrl | Activity.StartupLoad, Activity.MainActivity.OnCreateIntended |
| app/src/main/java/mx/xperience/Yunikon/MainActivity.kt:187 | `setUiMode()` runs before `mWebView` is assigned (line 193) and re-applies a non-transparent theme colour, and `applyThemeColor` reads `mWebView.title` (line 582) | re-creating the activity from the state `onSaveInstanceState` saved after a page set a theme colour, e.g. opaque blue (-14575885): the stored colour comes back, and creation fails at the title read | apply the restored colour once, at line 208, after the WebView exists | not executed | Activity.MainActivity.OnCreate | Activity.MainActivity.OnCreateIntended |
