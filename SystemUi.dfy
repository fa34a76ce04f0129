/**
 * The decor view's `systemUiVisibility` flags as the activity edits them
 * below Android R: the six immersive-mode flags and the two light-bar flags,
 * set or cleared as groups with every other bit left alone.
 */
module SystemUi {
  // `View.SYSTEM_UI_FLAG_*` values of the Android platform.
  const SYSTEM_UI_FLAG_HIDE_NAVIGATION: bv32 := 0x2
  const SYSTEM_UI_FLAG_FULLSCREEN: bv32 := 0x4
  const SYSTEM_UI_FLAG_LIGHT_NAVIGATION_BAR: bv32 := 0x10
  const SYSTEM_UI_FLAG_LAYOUT_STABLE: bv32 := 0x100
  const SYSTEM_UI_FLAG_LAYOUT_HIDE_NAVIGATION: bv32 := 0x200
  const SYSTEM_UI_FLAG_LAYOUT_FULLSCREEN: bv32 := 0x400
  const SYSTEM_UI_FLAG_IMMERSIVE_STICKY: bv32 := 0x1000
  const SYSTEM_UI_FLAG_LIGHT_STATUS_BAR: bv32 := 0x2000

  /** The six flags `setImmersiveMode` sets and clears together. */
  const IMMERSIVE_MODE_FLAGS: bv32 :=
    SYSTEM_UI_FLAG_LAYOUT_STABLE | SYSTEM_UI_FLAG_LAYOUT_HIDE_NAVIGATION | SYSTEM_UI_FLAG_LAYOUT_FULLSCREEN
    | SYSTEM_UI_FLAG_HIDE_NAVIGATION | SYSTEM_UI_FLAG_FULLSCREEN | SYSTEM_UI_FLAG_IMMERSIVE_STICKY

  /** The system-UI visibility below Android R after `setImmersiveMode(enable)`. */
  function ImmersiveFlags(flags: bv32, enable: bool): (r: bv32)
    ensures enable ==> r & IMMERSIVE_MODE_FLAGS == IMMERSIVE_MODE_FLAGS
    ensures !enable ==> r & IMMERSIVE_MODE_FLAGS == 0
    ensures r & !IMMERSIVE_MODE_FLAGS == flags & !IMMERSIVE_MODE_FLAGS
  {
    if enable then flags | IMMERSIVE_MODE_FLAGS else flags & !IMMERSIVE_MODE_FLAGS
  }

  /** Leaving immersive mode after entering it gives back flags that held none of the six bits. */
  lemma ImmersiveRoundTrip(flags: bv32)
    requires flags & IMMERSIVE_MODE_FLAGS == 0
    ensures ImmersiveFlags(ImmersiveFlags(flags, true), false) == flags
  {
  }

  /** The light-bar flag `applyThemeColor` sets or clears: the navigation bar's in reach mode, the status bar's otherwise. */
  function LightBarFlag(reachMode: bool): bv32 {
    if reachMode then SYSTEM_UI_FLAG_LIGHT_NAVIGATION_BAR else SYSTEM_UI_FLAG_LIGHT_STATUS_BAR
  }

  /** The system-UI visibility below Android R after the light-bar choice of `applyThemeColor`. */
  function LightBarFlags(flags: bv32, light: bool, reachMode: bool): (r: bv32)
    ensures r & LightBarFlag(reachMode) == if light then LightBarFlag(reachMode) else 0
    ensures r & !LightBarFlag(reachMode) == flags & !LightBarFlag(reachMode)
  {
    if light then flags | LightBarFlag(reachMode) else flags & !LightBarFlag(reachMode)
  }

  /** The system-UI visibility below Android R after `resetSystemUIColor`: both light-bar flags cleared. */
  function ResetLightBarFlags(flags: bv32): (r: bv32)
    ensures r & (SYSTEM_UI_FLAG_LIGHT_STATUS_BAR | SYSTEM_UI_FLAG_LIGHT_NAVIGATION_BAR) == 0
    ensures r & !(SYSTEM_UI_FLAG_LIGHT_STATUS_BAR | SYSTEM_UI_FLAG_LIGHT_NAVIGATION_BAR)
         == flags & !(SYSTEM_UI_FLAG_LIGHT_STATUS_BAR | SYSTEM_UI_FLAG_LIGHT_NAVIGATION_BAR)
  {
    flags & !SYSTEM_UI_FLAG_LIGHT_STATUS_BAR & !SYSTEM_UI_FLAG_LIGHT_NAVIGATION_BAR
  }
}
