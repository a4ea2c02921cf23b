/** Platform detection for the mobile container: pure decisions over the
    environment the page runs in. */
module Platform {
  import opened Common

  /** `window.Capacitor`: its two methods may be missing. */
  datatype Capacitor = Capacitor(isNativePlatform: Option<bool>, getPlatform: Option<string>)

  datatype Window = Window(capacitor: Option<Capacitor>, protocol: string)

  /** The environment: no window during server rendering. */
  datatype Env = Env(window: Option<Window>)

  /** `window.Capacitor?.isNativePlatform?.()` is truthy. */
  predicate NativeFlag(w: Window) {
    w.capacitor.Some? && w.capacitor.value.isNativePlatform == Some(true)
  }

  /** `window.Capacitor?.getPlatform?.()`, when there is a value. */
  function PlatformName(w: Window): Option<string> {
    if w.capacitor.Some? then w.capacitor.value.getPlatform else None
  }

  function IsMobileApp(env: Env): (r: bool)
    ensures env.window.None? ==> !r
    ensures env.window.Some? && NativeFlag(env.window.value) ==> r
    ensures env.window.Some? && !NativeFlag(env.window.value) ==>
              (r <==> env.window.value.protocol in {"capacitor:", "file:"})
  {
    match env.window
    case None => false
    case Some(w) => NativeFlag(w) || w.protocol == "capacitor:" || w.protocol == "file:"
  }

  function IsIOS(env: Env): (r: bool)
    ensures env.window.None? ==> !r
    // true exactly when a Capacitor object whose `getPlatform` exists answers 'ios'
    ensures r ==> env.window.Some? && env.window.value.capacitor.Some? &&
                  env.window.value.capacitor.value.getPlatform == Some("ios")
    ensures env.window.Some? && env.window.value.capacitor.Some? &&
            env.window.value.capacitor.value.getPlatform == Some("ios") ==>
              r
  {
    env.window.Some? && PlatformName(env.window.value) == Some("ios")
  }

  function IsAndroid(env: Env): (r: bool)
    ensures env.window.None? ==> !r
    // true exactly when a Capacitor object whose `getPlatform` exists answers 'android'
    ensures r ==> env.window.Some? && env.window.value.capacitor.Some? &&
                  env.window.value.capacitor.value.getPlatform == Some("android")
    ensures env.window.Some? && env.window.value.capacitor.Some? &&
            env.window.value.capacitor.value.getPlatform == Some("android") ==>
              r
  {
    env.window.Some? && PlatformName(env.window.value) == Some("android")
  }

  function IsWeb(env: Env): (r: bool)
    ensures env.window.None? ==> r
    ensures env.window.Some? && NativeFlag(env.window.value) ==> !r
    ensures env.window.Some? && !NativeFlag(env.window.value) ==>
              (r <==> env.window.value.protocol !in {"capacitor:", "file:"})
  {
    !IsMobileApp(env)
  }

  /** Without a window nothing is native. */
  lemma ServerRenderIsWeb(env: Env)
    requires env.window.None?
    ensures !IsMobileApp(env) && !IsIOS(env) && !IsAndroid(env) && IsWeb(env)
  {
  }

  /** One platform string cannot be both 'ios' and 'android'. */
  lemma NotBothPlatforms(env: Env)
    ensures !(IsIOS(env) && IsAndroid(env))
  {
  }
}
