/** Resolutions of concrete URL shapes, derived from the general lemmas. Identifiers are left
    symbolic, so each lemma covers every id of its shape. URLs are written as the scheme, the
    pattern's anchor and the rest, e.g. `"https://" + YouTubeWatch.anchor + id + "&t=30"` is
    `https://youtube.com/watch?v=<id>&t=30`. */
module Scenarios {
  import opened Wrappers
  import opened Text
  import opened Regex
  import opened DeepLink
  import LinkedIn
  import Navigation

  const Https := "https://"

  /** A string whose end characters are not whitespace is its own trim. */
  lemma NothingToTrim(s: string)
    requires s != [] && !IsWhitespace(s[0]) && !IsWhitespace(s[|s| - 1])
    ensures Trim(s) == s
  {
    TrimCharacterized(s, 0, |s|);
  }

  /** `p` matches first right after the scheme when it captures all of `id` up to `post`. */
  lemma MatchAfterScheme(s: string, p: Pattern, id: string, post: string)
    requires s == Https + p.anchor + id + post
    requires |p.anchor| > 0 && p.anchor[0] !in Https && p.prefix == []
    requires |id| > 0 && FreeOf(id, p.stops) && (post == [] || post[0] in p.stops)
    ensures FirstMatch(s, p) == Some(Match(8, p.anchor + id, id))
  {
    assert p.anchor + id == p.anchor + [] + id;
    MatchAfter(s, p, Https, [], id, post, p.anchor + id);
  }

  lemma WatchUrlMatch(id: string)
    requires |id| > 0 && '&' !in id
    ensures FirstMatch(Https + YouTubeWatch.anchor + id + "&t=30", YouTubeWatch)
      == Some(Match(8, YouTubeWatch.anchor + id, id))
  {
    assert YouTubeWatch.anchor[0] !in Https && "&t=30"[0] in YouTubeWatch.stops;
    MatchAfterScheme(Https + YouTubeWatch.anchor + id + "&t=30", YouTubeWatch, id, "&t=30");
  }

  /** `https://youtube.com/watch?v=<id>&t=30`: the id stops at `&`. */
  lemma WatchPageScenario(id: string)
    requires |id| > 0 && '&' !in id
    ensures GenerateDeepLink(Https + YouTubeWatch.anchor + id + "&t=30")
      == DeepLinkResult(Https + YouTubeWatch.anchor + id + "&t=30",
           Some("vnd.youtube://watch?v=" + id),
           Some("intent://watch?v=" + id + "#Intent;scheme=vnd.youtube;package=com.google.android.youtube;end"),
           YouTube)
  {
    var u := Https + YouTubeWatch.anchor + id + "&t=30";
    WatchUrlMatch(id);
    NothingToTrim(u);
    YouTubeFromWatchPage(u);
  }

  lemma ShortUrlMatch(id: string)
    requires |id| > 0 && '?' !in id
    ensures FirstMatch(Https + YouTubeShort.anchor + id + "?si=xyz", YouTubeShort)
      == Some(Match(8, YouTubeShort.anchor + id, id))
  {
    assert YouTubeShort.anchor[0] !in Https && "?si=xyz"[0] in YouTubeShort.stops;
    MatchAfterScheme(Https + YouTubeShort.anchor + id + "?si=xyz", YouTubeShort, id, "?si=xyz");
  }

  /** The short link's only `?` is followed by `si=`, never by `v=`, so the watch pattern finds
      no start. */
  lemma ShortUrlIsNoWatchPage(id: string)
    requires '?' !in id
    ensures !Occurs(Https + YouTubeShort.anchor + id + "?si=xyz", YouTubeWatch)
  {
    var a := Https + YouTubeShort.anchor + id;
    var b := "?si=xyz";
    var u := a + b;
    assert '?' !in Https + YouTubeShort.anchor;
    assert '?' !in b[1..] && b[1] == 's';
    assert forall j :: 0 <= j < |a| ==> u[j] == a[j];
    assert forall j :: |a| < j < |u| ==> u[j] == b[1..][j - |a| - 1];
    assert YouTubeWatch.anchor[17] == '?' && YouTubeWatch.anchor[18] == 'v';
    MisplacedAnchorChar(u, YouTubeWatch, 17, |a|);
  }

  /** `https://youtu.be/<id>?si=xyz` gives the same native URIs as the watch page of the same
      video. */
  lemma ShortLinkScenario(id: string)
    requires |id| > 0 && '?' !in id && '&' !in id
    ensures var short := GenerateDeepLink(Https + YouTubeShort.anchor + id + "?si=xyz");
      var watch := GenerateDeepLink(Https + YouTubeWatch.anchor + id + "&t=30");
      short.platform == YouTube && short.ios == watch.ios && short.android == watch.android
      && short.webUrl == Https + YouTubeShort.anchor + id + "?si=xyz"
  {
    var u := Https + YouTubeShort.anchor + id + "?si=xyz";
    ShortUrlMatch(id);
    ShortUrlIsNoWatchPage(id);
    NothingToTrim(u);
    YouTubeFromShortLink(u);
    WatchPageScenario(id);
  }

  lemma NoYouTubeWithout(u: string)
    requires 'y' !in u
    ensures !Occurs(u, YouTubeWatch) && !Occurs(u, YouTubeShort)
  {
    assert 'y' in YouTubeWatch.anchor && 'y' in YouTubeShort.anchor;
    AbsentAnchorChar(u, YouTubeWatch, 'y');
    AbsentAnchorChar(u, YouTubeShort, 'y');
  }

  lemma ProfileUrlMatch(id: string)
    requires |id| > 0 && '/' !in id && '?' !in id
    ensures FirstMatch(Https + LinkedInProfile.anchor + id, LinkedInProfile)
      == Some(Match(8, LinkedInProfile.anchor + id, id))
  {
    var u := Https + LinkedInProfile.anchor + id;
    assert u == Https + LinkedInProfile.anchor + id + [];
    assert LinkedInProfile.anchor[0] !in Https;
    MatchAfterScheme(u, LinkedInProfile, id, []);
  }

  /** No `?` anywhere rules out the watch pattern. */
  lemma ProfileUrlIsNoWatchPage(id: string, post: string)
    requires '?' !in id && '?' !in post
    ensures !Occurs(Https + LinkedInProfile.anchor + id + post, YouTubeWatch)
  {
    assert '?' !in Https + LinkedInProfile.anchor && '?' in YouTubeWatch.anchor;
    AbsentAnchorChar(Https + LinkedInProfile.anchor + id + post, YouTubeWatch, '?');
  }

  /** After `https://linkedin.com/in/` comes no `/`, which ends the short-link anchor, and that
      prefix has no `y`, which starts it. */
  lemma ProfileUrlIsNoShortLink(id: string, post: string)
    requires '/' !in id && '/' !in post
    ensures !Occurs(Https + LinkedInProfile.anchor + id + post, YouTubeShort)
  {
    var pre := Https + LinkedInProfile.anchor;
    assert Https + LinkedInProfile.anchor + id + post == pre + (id + post);
    assert 'y' !in pre && YouTubeShort.anchor[0] == 'y' && YouTubeShort.anchor[8] == '/';
    AnchorSplit(Https + LinkedInProfile.anchor + id + post, YouTubeShort, pre, id + post, 8);
  }

  lemma ProfileUrlIsNoYouTube(id: string, post: string)
    requires '/' !in id && '?' !in id && '/' !in post && '?' !in post
    ensures !Occurs(Https + LinkedInProfile.anchor + id + post, YouTubeWatch)
    ensures !Occurs(Https + LinkedInProfile.anchor + id + post, YouTubeShort)
  {
    ProfileUrlIsNoWatchPage(id, post);
    ProfileUrlIsNoShortLink(id, post);
  }

  /** `https://linkedin.com/in/<id>` resolves to the LinkedIn profile URIs. */
  lemma ProfileScenario(id: string)
    requires |id| > 0 && '/' !in id && '?' !in id && !IsWhitespace(id[|id| - 1])
    ensures GenerateDeepLink(Https + LinkedInProfile.anchor + id)
      == DeepLinkResult(Https + LinkedInProfile.anchor + id,
           Some("linkedin://in/" + id),
           Some("intent://in/" + id + "#Intent;scheme=linkedin;package=com.linkedin.android;end"),
           LinkedIn)
  {
    var u := Https + LinkedInProfile.anchor + id;
    ProfileUrlMatch(id);
    ProfileUrlIsNoYouTube(id, []);
    assert u == Https + LinkedInProfile.anchor + id + [];
    NothingToTrim(u);
    LinkedInFromProfile(u);
  }

  const Example := "https://example.com/foo"

  lemma PaddedExampleTrims()
    ensures Trim("  " + Example + "\n") == Example
  {
    var s := "  " + Example + "\n";
    Infix("  ", Example, "\n");
    assert s[..2] == "  " && s[2 + |Example|..] == "\n";
    TrimCharacterized(s, 2, 2 + |Example|);
  }

  lemma ExampleIsNoYouTube()
    ensures !Occurs(Example, YouTubeWatch) && !Occurs(Example, YouTubeShort)
  {
    NoYouTubeWithout(Example);
  }

  lemma ExampleIsNoLinkedIn()
    ensures !Occurs(Example, LinkedInProfile)
  {
    assert 'k' in LinkedInProfile.anchor && 'k' !in Example;
    AbsentAnchorChar(Example, LinkedInProfile, 'k');
  }

  lemma ExampleIsNoInstagram()
    ensures !Occurs(Example, InstagramProfile)
  {
    assert 'g' in InstagramProfile.anchor && 'g' !in Example;
    AbsentAnchorChar(Example, InstagramProfile, 'g');
  }

  /** `  https://example.com/foo\n`: no known platform, so `unknown` with both URIs null and
      the web URL trimmed. */
  lemma UnknownScenario()
    ensures GenerateDeepLink("  " + Example + "\n") == DeepLinkResult(Example, None, None, Unknown)
  {
    PaddedExampleTrims();
    ExampleIsNoYouTube();
    ExampleIsNoLinkedIn();
    ExampleIsNoInstagram();
    UnknownExactlyWhenNothingMatches(Example);
  }

  lemma FragmentUrlMatches(id: string)
    requires |id| > 0 && '/' !in id && '?' !in id
    ensures FirstMatch(Https + LinkedInProfile.anchor + id + "#about", LinkedInProfile)
      == Some(Match(8, LinkedInProfile.anchor + (id + "#about"), id + "#about"))
  {
    var u := Https + LinkedInProfile.anchor + id + "#about";
    assert u == Https + LinkedInProfile.anchor + (id + "#about") + [];
    assert LinkedInProfile.anchor[0] !in Https;
    MatchAfterScheme(u, LinkedInProfile, id + "#about", []);
  }

  lemma FragmentUrlHandlerMatch(id: string)
    requires |id| > 0 && '/' !in id && '?' !in id && '#' !in id
    ensures LinkedIn.Match(Https + LinkedInProfile.anchor + id + "#about")
      == Some(LinkedIn.LinkMatch(LinkedInProfile.anchor + id, "profile", id))
  {
    var u := Https + LinkedInProfile.anchor + id + "#about";
    var p := LinkedIn.Patterns[0].pattern;
    assert p.anchor == LinkedInProfile.anchor && p.prefix == [] && p.stops == {'/', '?', '#'};
    assert p.anchor[0] !in Https && "#about"[0] in p.stops;
    MatchAfterScheme(u, p, id, "#about");
    assert LinkedIn.FirstHit(u, LinkedIn.Patterns, 0);
    LinkedIn.MatchInIsFirstHit(u, LinkedIn.Patterns, 0);
  }

  lemma FragmentKeptByResolver(id: string)
    requires |id| > 0 && '/' !in id && '?' !in id
    ensures GenerateDeepLink(Https + LinkedInProfile.anchor + id + "#about").ios
      == Some("linkedin://in/" + (id + "#about"))
  {
    var u := Https + LinkedInProfile.anchor + id + "#about";
    FragmentUrlMatches(id);
    ProfileUrlIsNoYouTube(id, "#about");
    NothingToTrim(u);
    LinkedInFromProfile(u);
  }

  /** The two LinkedIn rules as written differ on `#`: for
      `https://linkedin.com/in/<id>#about` the resolver's rule keeps the fragment in the profile
      id, the handler's stops before it. */
  lemma ProfileFragmentRulesDiffer(id: string)
    requires |id| > 0 && '/' !in id && '?' !in id && '#' !in id
    ensures GenerateDeepLink(Https + LinkedInProfile.anchor + id + "#about").ios
      == Some("linkedin://in/" + (id + "#about"))
    ensures LinkedIn.Match(Https + LinkedInProfile.anchor + id + "#about")
      == Some(LinkedIn.LinkMatch(LinkedInProfile.anchor + id, "profile", id))
  {
    FragmentKeptByResolver(id);
    FragmentUrlHandlerMatch(id);
  }

  /** The feed-update pattern of the handler. */
  lemma FeedPattern()
    ensures LinkedIn.Patterns[2].pattern.anchor == "linkedin.com/feed/update/"
    ensures LinkedIn.Patterns[2].pattern.prefix == "urn:li:activity:"
    ensures LinkedIn.Patterns[2].pattern.stops == {'/', '?', '#'}
  {
  }

  /** `https://www.linkedin.com/feed/update/urn:li:activity:<n>`: the optional group is taken
      and the id is `n`. */
  lemma FeedUpdateStripsActivityPrefix(n: string)
    requires |n| > 0 && '/' !in n && '?' !in n && '#' !in n
    ensures var p := LinkedIn.Patterns[2].pattern;
      FirstMatch("https://www." + p.anchor + p.prefix + n, p)
      == Some(Match(12, p.anchor + p.prefix + n, n))
  {
    FeedPattern();
    GroupTaken(LinkedIn.Patterns[2].pattern, "https://www.", n);
  }

  /** `https://www.linkedin.com/feed/update/urn:li:activity:` with nothing after it: the
      optional group is given back and the id is the literal text `urn:li:activity:`. */
  lemma FeedUpdateBacktracks()
    ensures var p := LinkedIn.Patterns[2].pattern;
      FirstMatch("https://www." + p.anchor + p.prefix, p)
      == Some(Match(12, p.anchor + p.prefix, p.prefix))
  {
    FeedPattern();
    GroupGivenBack(LinkedIn.Patterns[2].pattern, "https://www.");
  }

  /** On an iPhone with default options, a watch URL opens the YouTube app and schedules a
      same-tab fallback to the web URL after 2500 ms. */
  lemma IPhoneWatchPageDefaults(ua: string, id: string)
    requires Navigation.HasIosMarker(ToLower(ua))
    requires |id| > 0 && '&' !in id
    ensures var u := Https + YouTubeWatch.anchor + id + "&t=30";
      Navigation.Plan(Navigation.DetectOS(Some(ua)), GenerateDeepLink(u), Navigation.NoOptions)
      == [Navigation.Navigate("vnd.youtube://watch?v=" + id),
          Navigation.Schedule(2500, Navigation.Navigate(u))]
  {
    var u := Https + YouTubeWatch.anchor + id + "&t=30";
    var r := GenerateDeepLink(u);
    WatchPageScenario(id);
    assert Navigation.DetectOS(Some(ua)) == Navigation.Ios;
    assert Navigation.SelectDeepLink(Navigation.Ios, r) == r.ios;
    Navigation.NativeThenFallback(Navigation.Ios, r, Navigation.NoOptions);
  }
}
