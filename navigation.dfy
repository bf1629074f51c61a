/** `detectOS` and `openLink` of packages/core/src/index.ts. The browser is an explicit `Window`
    whose user agent is given and whose navigations and timer registrations are recorded, in
    order, in `log`; timers are recorded, never fired. */
module Navigation {
  import opened Wrappers
  import opened Text
  import opened DeepLink

  datatype Os = Ios | Android | Desktop

  /** The user agent names an iOS device. */
  ghost predicate HasIosMarker(ua: string) {
    Within(ua, "iphone") || Within(ua, "ipad") || Within(ua, "ipod")
  }

  /** `detectOS`; `None` stands for running without a `window`. */
  function DetectOS(userAgent: Option<string>): (os: Os)
    ensures userAgent.None? ==> os == Desktop
    ensures userAgent.Some? ==>
      var ua := ToLower(userAgent.value);
      (os == Ios <==> HasIosMarker(ua))
      && (os == Android <==> !HasIosMarker(ua) && Within(ua, "android"))
  {
    if userAgent.None? then Desktop
    else
      var ua := ToLower(userAgent.value);
      if Contains(ua, "iphone") || Contains(ua, "ipad") || Contains(ua, "ipod") then Ios
      else if Contains(ua, "android") then Android
      else Desktop
  }

  /** Classification ignores ASCII letter case. */
  lemma DetectOSIgnoresCase(ua: string)
    ensures DetectOS(Some(ToLower(ua))) == DetectOS(Some(ua))
  {
    ToLowerIdempotent(ua);
  }

  /** An iOS marker decides `ios` even when `android` is present too. */
  lemma IosMarkerBeatsAndroid(ua: string)
    requires HasIosMarker(ToLower(ua)) && Within(ToLower(ua), "android")
    ensures DetectOS(Some(ua)) == Ios
  {
  }

  /** A browser navigation, or a timer that will perform one after `delay` milliseconds. */
  datatype Action = Navigate(uri: string) | OpenNewTab(uri: string) | Schedule(delay: int, callback: Action)

  /** `OpenLinkOptions`; an absent field takes its default. */
  datatype OpenLinkOptions = OpenLinkOptions(fallbackToWeb: Option<bool>, fallbackDelay: Option<int>, openInNewTab: Option<bool>)

  const DefaultFallbackToWeb := true
  const DefaultFallbackDelay := 2500
  const DefaultOpenInNewTab := false

  /** The empty options object `{}`. */
  const NoOptions := OpenLinkOptions(None, None, None)

  /** A `string | null` that JavaScript treats as true: present and non-empty. */
  predicate Truthy(s: Option<string>) {
    s.Some? && |s.value| > 0
  }

  /** The native URI matching the OS, if that URI is truthy. */
  function SelectDeepLink(os: Os, result: DeepLinkResult): (deepLink: Option<string>)
    ensures deepLink.Some? <==> (os == Ios && Truthy(result.ios)) || (os == Android && Truthy(result.android))
    ensures deepLink.Some? ==>
      Truthy(deepLink) && deepLink == (if os == Ios then result.ios else result.android)
  {
    if os == Ios && Truthy(result.ios) then result.ios
    else if os == Android && Truthy(result.android) then result.android
    else None
  }

  /** Going to the web URL, in a new tab or in place. */
  function WebNavigation(webUrl: string, openInNewTab: bool): (a: Action)
    ensures !a.Schedule? && a.uri == webUrl
    ensures a.OpenNewTab? <==> openInNewTab
  {
    if openInNewTab then OpenNewTab(webUrl) else Navigate(webUrl)
  }

  /** The actions `openLink` issues for a detected OS and a resolution: one immediate navigation,
      then a timer exactly when a native URI was chosen and `fallbackToWeb` holds. */
  function Plan(os: Os, result: DeepLinkResult, options: OpenLinkOptions): (actions: seq<Action>)
    ensures 1 <= |actions| <= 2 && !actions[0].Schedule?
    ensures |actions| == 2 <==> SelectDeepLink(os, result).Some? && options.fallbackToWeb.GetOr(DefaultFallbackToWeb)
    ensures |actions| == 2 ==> actions[1].Schedule?
  {
    var fallbackToWeb := options.fallbackToWeb.GetOr(DefaultFallbackToWeb);
    var fallbackDelay := options.fallbackDelay.GetOr(DefaultFallbackDelay);
    var openInNewTab := options.openInNewTab.GetOr(DefaultOpenInNewTab);
    var deepLink := SelectDeepLink(os, result);
    if deepLink.Some? then
      [Navigate(deepLink.value)]
      + (if fallbackToWeb then [Schedule(fallbackDelay, WebNavigation(result.webUrl, openInNewTab))] else [])
    else
      [WebNavigation(result.webUrl, openInNewTab)]
  }

  /** Number of timers among `actions`. */
  function Timers(actions: seq<Action>): (n: nat)
    ensures n == 0 <==> forall k :: 0 <= k < |actions| ==> !actions[k].Schedule?
  {
    if actions == [] then 0 else (if actions[0].Schedule? then 1 else 0) + Timers(actions[1..])
  }

  /** With a native URI for the OS: navigate to it first, then schedule exactly one fallback
      to the web URL after `fallbackDelay` when `fallbackToWeb`, and nothing else. */
  lemma NativeThenFallback(os: Os, result: DeepLinkResult, options: OpenLinkOptions)
    requires SelectDeepLink(os, result).Some?
    ensures var actions := Plan(os, result, options);
      var fallbackToWeb := options.fallbackToWeb.GetOr(true);
      var openInNewTab := options.openInNewTab.GetOr(false);
      |actions| >= 1
      && actions[0] == Navigate(if os == Ios then result.ios.value else result.android.value)
      && (os == Ios || os == Android)
      && Timers(actions) == (if fallbackToWeb then 1 else 0)
      && |actions| == 1 + Timers(actions)
      && (fallbackToWeb ==> actions[1] == Schedule(options.fallbackDelay.GetOr(2500),
            if openInNewTab then OpenNewTab(result.webUrl) else Navigate(result.webUrl)))
  {
    var actions := Plan(os, result, options);
    assert actions[1..] == (if options.fallbackToWeb.GetOr(true) then [actions[1]] else []);
  }

  /** Without one: exactly one navigation, to the web URL, in a new tab iff `openInNewTab`, no timer. */
  lemma DirectToWeb(os: Os, result: DeepLinkResult, options: OpenLinkOptions)
    requires SelectDeepLink(os, result).None?
    ensures var actions := Plan(os, result, options);
      Timers(actions) == 0
      && actions == [if options.openInNewTab.GetOr(false) then OpenNewTab(result.webUrl) else Navigate(result.webUrl)]
  {
  }

  /** For a resolved URL a native attempt happens exactly on a mobile OS and a known platform. */
  lemma NativeExactlyForKnownPlatformOnMobile(os: Os, url: string)
    ensures var result := GenerateDeepLink(url);
      SelectDeepLink(os, result).Some? <==> os != Desktop && result.platform != Unknown
  {
    UnknownExactlyWhenNothingMatches(Trim(url));
  }

  /** The browsing context: its user agent, and every navigation and timer registration so far. */
  class Window {
    const userAgent: string
    var log: seq<Action>

    constructor (userAgent: string)
      ensures this.userAgent == userAgent && log == []
    {
      this.userAgent := userAgent;
      log := [];
    }

    /** `window.location.href = uri`. */
    method Assign(uri: string)
      modifies this
      ensures log == old(log) + [Navigate(uri)]
    {
      log := log + [Navigate(uri)];
    }

    /** `window.open(uri, '_blank')`. */
    method Open(uri: string)
      modifies this
      ensures log == old(log) + [OpenNewTab(uri)]
    {
      log := log + [OpenNewTab(uri)];
    }

    /** `setTimeout(callback, delay)`: the timer is registered, not run. */
    method SetTimeout(callback: Action, delay: int)
      modifies this
      ensures log == old(log) + [Schedule(delay, callback)]
    {
      log := log + [Schedule(delay, callback)];
    }
  }

  /** `openLink(url, options)` against the browsing context `w`. */
  method OpenLink(w: Window, url: string, options: OpenLinkOptions)
    modifies w
    ensures w.log == old(w.log) + Plan(DetectOS(Some(w.userAgent)), GenerateDeepLink(url), options)
  {
    var fallbackToWeb := options.fallbackToWeb.GetOr(DefaultFallbackToWeb);
    var fallbackDelay := options.fallbackDelay.GetOr(DefaultFallbackDelay);
    var openInNewTab := options.openInNewTab.GetOr(DefaultOpenInNewTab);

    var os := DetectOS(Some(w.userAgent));
    var result := GenerateDeepLink(url);

    var deepLink: Option<string> := None;
    if os == Ios && Truthy(result.ios) {
      deepLink := result.ios;
    } else if os == Android && Truthy(result.android) {
      deepLink := result.android;
    }
    assert deepLink == SelectDeepLink(os, result);

    if Truthy(deepLink) && (os == Ios || os == Android) {
      w.Assign(deepLink.value);
      if fallbackToWeb {
        var callback := if openInNewTab then OpenNewTab(result.webUrl) else Navigate(result.webUrl);
        w.SetTimeout(callback, fallbackDelay);
      }
    } else {
      if openInNewTab {
        w.Open(result.webUrl);
      } else {
        w.Assign(result.webUrl);
      }
    }
  }
}
