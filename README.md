# Universal app opener: deep-link core in Dafny

This project models the core of the universal app opener library. It covers
`packages/core/src/index.ts` and `packages/core/src/platforms/linkedin.ts`:

- `generateDeepLink` trims a web URL and tries four fixed patterns in order: YouTube watch page,
  `youtu.be` short link, LinkedIn `/in/` profile, Instagram. The first hit decides the platform,
  and one captured identifier goes into both native URIs: the iOS scheme URI and the Android
  `intent://…#Intent;…;end` URI. When nothing matches, the result is the `unknown` sentinel with
  both URIs null.
- `detectOS` classifies a lower-cased user agent as `ios`, `android` or `desktop`.
- `openLink` picks the OS-matching native URI. It navigates to that URI and schedules at most one
  timer that falls back to the web URL. Without a native URI it navigates straight to the web URL.
- The LinkedIn handler (`linkedinHandler`) searches an ordered table of (link type, pattern) pairs
  and stops at the first that matches. It builds both URIs from a table of templates keyed by link
  type, and falls back to a LinkedIn result with both URIs null for a type that has no builder.

Modules:

- `Wrappers`: `Option`; `None` stands for JavaScript `null`.
- `Text`: `String.prototype.trim`, ASCII `toLowerCase` and substring search.
- `Regex`: the one regular-expression shape the core uses, `anchor (?:prefix)? ([^stops]+)`. It
  is searched leftmost-first the way `String.prototype.match` does without the global flag.
  `Regex.Captures` states what any match looks like, independently of how `MatchAt` and `Find`
  compute it. `MatchAtShape` and `MatchAtUnique` then prove the two agree in both directions.
- `DeepLink`: `DeepLinkResult` and `generateDeepLink`. `Resolve` is the pattern cascade on the
  trimmed URL.
- `LinkedIn`: `patterns`, `buildResult`, `builders`, `linkedinHandler.match` and `.build`.
- `Navigation`: `detectOS` and `openLink`. The browser is a `Window` object whose user agent is
  given and whose navigations and timer registrations are appended, in order, to a log. `Plan`
  states what `openLink` issues; the method `OpenLink` is proved to append exactly `Plan`.
- `Scenarios`: resolutions of concrete URL shapes with the identifier left symbolic, for example
  `https://youtube.com/watch?v=<id>&t=30`.

The resolver inside `generateDeepLink` and the LinkedIn handler have different LinkedIn rules.
They are modelled as written and not reconciled. The resolver's `/in/` capture `[^/?]+` admits
`#`, while the handler's `[^/?#]+` does not. `Scenarios.ProfileFragmentRulesDiffer` shows both
results for the same URL.

## Model

| member | source | states |
|---|---|---|
| DeepLink.GenerateDeepLink | packages/core/src/index.ts:8-52 | the result's `webUrl` is the trimmed input, including in the `unknown` branch |
| DeepLink.Resolve | packages/core/src/index.ts:11-51 | `webUrl` passes through unchanged; a non-null URI is a non-empty string |
| DeepLink.YouTubeLinks | packages/core/src/index.ts:16-21 | the YouTube branch sets both URIs and the platform `youtube` |
| DeepLink.LinkedInLinks | packages/core/src/index.ts:27-32 | the LinkedIn branch sets both URIs and the platform `linkedin` |
| DeepLink.InstagramLinks | packages/core/src/index.ts:38-43 | the Instagram branch sets both URIs and the platform `instagram` |
| DeepLink.UnknownExactlyWhenNothingMatches | packages/core/src/index.ts:14-51 | `unknown` comes out iff none of the four patterns matches; then both URIs are null, otherwise both are non-null |
| DeepLink.Precedence | packages/core/src/index.ts:14-44 | `youtube` iff a watch or short-link match; `linkedin` iff no YouTube match and an `/in/` match; `instagram` iff neither and an Instagram match |
| DeepLink.YouTubeFromWatchPage | packages/core/src/index.ts:11-21 | a watch match supplies the id even when a short link also matches; the id is non-empty, has no `&`, and fixes both URIs to the YouTube templates |
| DeepLink.YouTubeFromShortLink | packages/core/src/index.ts:12-21 | without a watch match, the short-link id (non-empty, no `?`) fixes both URIs to the same templates |
| DeepLink.LinkedInFromProfile | packages/core/src/index.ts:24-32 | without a YouTube match, the `/in/` id (non-empty, no `/` or `?`) gives `linkedin://in/<id>` and the LinkedIn intent URI |
| DeepLink.InstagramFromProfile | packages/core/src/index.ts:35-43 | without a YouTube or LinkedIn match, the Instagram id (non-empty, no `/` or `?`) gives the `instagram://user?username=` URIs |
| DeepLink.TrimmedInputSameResult | packages/core/src/index.ts:9 | surrounding whitespace never changes the result |
| Text.Trim | packages/core/src/index.ts:9 | the trimmed string is no longer than the input and neither of its ends is whitespace |
| Text.TrimStartDrops | packages/core/src/index.ts:9 | trimming the start keeps a suffix and drops only whitespace |
| Text.TrimEndDrops | packages/core/src/index.ts:9 | trimming the end keeps a prefix and drops only whitespace |
| Text.TrimCharacterized | packages/core/src/index.ts:9 | `trim` returns exactly the slice between whitespace margins whose end characters are not whitespace |
| Text.TrimIdempotent | packages/core/src/index.ts:9 | trimming twice is trimming once |
| Text.ToLower | packages/core/src/index.ts:59 | the lowered string has the input's length and lowers each character on its own |
| Text.ToLowerIdempotent | packages/core/src/index.ts:59 | lowering a lowered user agent changes nothing |
| Text.Contains | packages/core/src/index.ts:61 | a literal regular expression's `test` is true iff the literal occurs somewhere |
| Regex.RunLength | packages/core/src/index.ts:11 | the greedy capture run is stop-free and ends at a stop character or at the end of the string |
| Regex.RunLengthUnique | packages/core/src/index.ts:11 | any stop-free stretch ending at a stop character or at the end is the greedy run |
| Regex.MatchAt | packages/core/src/index.ts:11 | an attempt at a position succeeds iff the anchor is there and a capturable character follows it (after the optional group, or without it) |
| Regex.MatchAtShape | packages/core/src/platforms/linkedin.ts:10 | a successful attempt has the declarative shape and takes the optional group exactly when a capture can follow the group |
| Regex.MatchAtUnique | packages/core/src/platforms/linkedin.ts:10 | any match of the declarative shape that skips the optional group only when it must is the attempt's result |
| Regex.Find | packages/core/src/index.ts:11 | the search returns the attempt at the reported start, and every earlier attempt fails |
| Regex.FirstMatch | packages/core/src/index.ts:11 | `match` is non-null iff the pattern occurs; a non-null match has the declarative shape |
| Regex.FirstMatchIsLeftmost | packages/core/src/index.ts:11 | the reported match is the leftmost attempt that succeeds |
| Regex.FindFirstAt | packages/core/src/index.ts:11 | when all earlier attempts fail, the search returns the attempt at the first success |
| Regex.NoMatchBefore | packages/core/src/index.ts:11 | no attempt succeeds before the first occurrence of the anchor's first character |
| Regex.AbsentAnchorChar | packages/core/src/index.ts:11 | a pattern cannot match a string that lacks one of its anchor's characters |
| Regex.AnchorSplit | packages/core/src/index.ts:12 | no match in `pre + rest` when the anchor's first character is absent from `pre` and one of its characters is absent from `rest` |
| Regex.MisplacedAnchorChar | packages/core/src/index.ts:11 | no match when the anchor's `d`-th character occurs only at one place and is not followed there by the anchor's next character |
| Regex.MatchAfter | packages/core/src/index.ts:11 | a string laid out as text, anchor, group, capture, stop is matched first right after the leading text, with exactly that capture |
| Regex.GroupTaken | packages/core/src/platforms/linkedin.ts:10 | the optional group is consumed when a capture can follow it |
| Regex.GroupGivenBack | packages/core/src/platforms/linkedin.ts:10 | the regex backtracks over the optional group when nothing capturable follows it, and the group's text becomes the capture |
| LinkedIn.MatchIn | packages/core/src/platforms/linkedin.ts:66-73 | the pattern search returns null iff no pattern in the list matches |
| LinkedIn.MatchInIsFirstHit | packages/core/src/platforms/linkedin.ts:67-71 | the first pattern in list order that matches decides the result, wherever later patterns would match |
| LinkedIn.Match | packages/core/src/platforms/linkedin.ts:66-73 | `match` returns null iff none of the five patterns matches; what a non-null result holds is `MatchInIsFirstHit` and `MatchShape` |
| LinkedIn.MatchInShape | packages/core/src/platforms/linkedin.ts:67-71 | what all patterns share (types, stop set) holds for whatever the search reports |
| LinkedIn.MatchShape | packages/core/src/platforms/linkedin.ts:7-13 | a match is `[matchedText, type, id]`: the text occurs in the URL, the type is `profile`, `post`, `company` or `job`, and the id is non-empty with no `/`, `?` or `#` |
| LinkedIn.FeedUpdateIsPost | packages/core/src/platforms/linkedin.ts:10 | a first hit on `/feed/update/` gives type `post`; the `urn:li:activity:` prefix is stripped when a capture follows it, and given back otherwise |
| LinkedIn.BuildResult | packages/core/src/platforms/linkedin.ts:18-27 | every result it assembles has platform `linkedin`, the given `webUrl` and exactly the given two URIs (null included) |
| LinkedIn.Build | packages/core/src/platforms/linkedin.ts:75-83 | the platform is always `linkedin` and `webUrl` passes through; both URIs are non-null iff the type has a builder |
| LinkedIn.BuildTemplates | packages/core/src/platforms/linkedin.ts:32-60 | for every known type, `ios = linkedin://P` and `android = intent://P#Intent;scheme=linkedin;package=com.linkedin.android;end`, with the type's path `P` |
| LinkedIn.BuildAfterMatch | packages/core/src/platforms/linkedin.ts:79-82 | every type `match` can report has a builder, so building after a match gives both URIs |
| LinkedIn.BuildIgnoresMatchedText | packages/core/src/platforms/linkedin.ts:75-83 | `build` depends only on `webUrl`, the type and the id |
| Navigation.DetectOS | packages/core/src/index.ts:54-70 | `desktop` without a window; `ios` iff the lowered agent has `iphone`, `ipad` or `ipod`; `android` iff it has no iOS marker and has `android` |
| Navigation.DetectOSIgnoresCase | packages/core/src/index.ts:59 | classification ignores ASCII letter case |
| Navigation.IosMarkerBeatsAndroid | packages/core/src/index.ts:61-67 | an iOS marker gives `ios` even when `android` is present too |
| Navigation.SelectDeepLink | packages/core/src/index.ts:88-94 | a native URI is chosen iff the OS is `ios` with a truthy `ios` URI or `android` with a truthy `android` URI, and it is that URI |
| Navigation.WebNavigation | packages/core/src/index.ts:109-113 | going to the web URL is one navigation (never a timer) to `webUrl`, in a new tab iff `openInNewTab` |
| Navigation.Plan | packages/core/src/index.ts:79-114 | `openLink` issues one immediate navigation, followed by a timer exactly when a native URI was chosen and `fallbackToWeb` (default true) holds; the exact actions are `NativeThenFallback` and `DirectToWeb` |
| Navigation.NativeThenFallback | packages/core/src/index.ts:96-107 | with a native URI: navigate there first, then exactly one timer to the web URL after `fallbackDelay` iff `fallbackToWeb` (default true, 2500 ms, same tab unless `openInNewTab`), nothing else |
| Navigation.DirectToWeb | packages/core/src/index.ts:108-114 | without one: exactly one navigation, to the web URL, in a new tab iff `openInNewTab` (default false), no timer |
| Navigation.NativeExactlyForKnownPlatformOnMobile | packages/core/src/index.ts:85-96 | a native attempt happens iff the OS is mobile and the platform is known |
| Navigation.Window.Assign | packages/core/src/index.ts:97 | `location.href = uri` appends one navigation to the log |
| Navigation.Window.Open | packages/core/src/index.ts:110 | `window.open(uri, '_blank')` appends one new-tab navigation |
| Navigation.Window.SetTimeout | packages/core/src/index.ts:100-106 | `setTimeout` registers the callback with its delay, without running it |
| Navigation.OpenLink | packages/core/src/index.ts:78-115 | the actions appended to the window's log are exactly `Plan` for the detected OS, the resolution and the options |
| Scenarios.WatchUrlMatch | packages/core/src/index.ts:11 | in `https://youtube.com/watch?v=<id>&t=30` the watch capture is `<id>` |
| Scenarios.WatchPageScenario | packages/core/src/index.ts:11-21 | that URL resolves to the YouTube URIs for `<id>` |
| Scenarios.ShortUrlMatch | packages/core/src/index.ts:12 | in `https://youtu.be/<id>?si=xyz` the capture is `<id>`, which may contain `/` and `#` |
| Scenarios.ShortLinkScenario | packages/core/src/index.ts:12-21 | `https://youtu.be/<id>?si=xyz`, for any id without `?` or `&`, gives the same native URIs as the watch page of the same video |
| Scenarios.ProfileScenario | packages/core/src/index.ts:24-32 | `https://linkedin.com/in/<id>`, for any id without `/` or `?` and not ending in whitespace, resolves to the LinkedIn profile URIs |
| Scenarios.UnknownScenario | packages/core/src/index.ts:46-51 | `"  https://example.com/foo\n"` resolves to `unknown` with both URIs null and the trimmed web URL |
| Scenarios.FragmentKeptByResolver | packages/core/src/index.ts:24 | for any id without `/` or `?` (a `#` included), the resolver keeps a `#about` fragment inside the LinkedIn profile id |
| Scenarios.FragmentUrlHandlerMatch | packages/core/src/platforms/linkedin.ts:8 | the handler's profile rule stops the id before `#` |
| Scenarios.ProfileFragmentRulesDiffer | packages/core/src/index.ts:24 | for `https://linkedin.com/in/<id>#about` with any id without `/`, `?` or `#`, the two LinkedIn rules capture different ids |
| Scenarios.FeedUpdateStripsActivityPrefix | packages/core/src/platforms/linkedin.ts:10 | `…/feed/update/urn:li:activity:<n>` captures `<n>` |
| Scenarios.FeedUpdateBacktracks | packages/core/src/platforms/linkedin.ts:10 | `…/feed/update/urn:li:activity:` with nothing after it captures the text `urn:li:activity:` |
| Scenarios.IPhoneWatchPageDefaults | packages/core/src/index.ts:78-107 | on an iPhone with `{}` options a watch URL opens the YouTube app, then schedules a same-tab fallback after 2500 ms |

## Left out

- Browser globals (`window`, `navigator.userAgent`, `location.href`, `window.open`, `setTimeout`) become the `Window` class. Its user agent is a constructor parameter, and navigations and timer registrations are recorded rather than performed.
- Timers are never fired, so the fallback's effect, its timing and any race with the app launch are not modelled.
- `Navigation.OpenLink` always has a window, so the `ReferenceError` that `openLink` would raise without a `window` (after `detectOS` has returned `desktop`) is not modelled.
- `fallbackDelay` is an unbounded integer: `setTimeout`'s clamping of negative or oversized delays and non-integer delays are not modelled.
- Option fields are `Option` values: only an absent field takes its default, as with destructuring defaults. An explicit `undefined` is the same as absent; other JavaScript values of the wrong type are not modelled.
- `Text.ToLower`: lowers ASCII letters only. Unicode case mapping beyond ASCII is not modelled.
- `Text.IsWhitespace` follows the ECMAScript WhiteSpace and LineTerminator code points, over Dafny characters (Unicode scalar values), not UTF-16 code units. Lone surrogates are not modelled.
- Regular expressions: no general engine. Only the shape `anchor (?:prefix)? ([^stops]+)` is modelled, which covers all nine `match` patterns of the two files; the `test` patterns `/iphone|ipad|ipod/` and `/android/` of `detectOS` are literal substring searches (`Text.Contains`).
- `builders` is looked up as a Dafny map. Keys that a JavaScript object inherits from its prototype (such as `toString`) are not modelled; `match` never reports such a type.
- The `../types` module imported by `linkedin.ts` is not part of this model. `DeepLinkResult` and the match triple are defined locally; the triple is a record rather than a `RegExpMatchArray`.
- Concurrency and cancellation: the library has none.
