/** `generateDeepLink` of packages/core/src/index.ts: a trimmed URL is tried against four fixed
    patterns in a fixed order (YouTube watch page, youtu.be short link, LinkedIn `/in/` profile,
    Instagram) and the first hit decides the platform and the native URIs. */
module DeepLink {
  import opened Wrappers
  import opened Text
  import opened Regex

  datatype Platform = YouTube | LinkedIn | Instagram | Unknown

  /** What a resolution produces; `None` stands for `null`. */
  datatype DeepLinkResult = DeepLinkResult(webUrl: string, ios: Option<string>, android: Option<string>, platform: Platform)

  /** /youtube\.com\/watch\?v=([^&]+)/ */
  const YouTubeWatch := Pattern("youtube.com/watch?v=", "", {'&'})
  /** /youtu\.be\/([^?]+)/ */
  const YouTubeShort := Pattern("youtu.be/", "", {'?'})
  /** /linkedin\.com\/in\/([^/?]+)/ (this rule, unlike the LinkedIn handler's, lets `#` into the id) */
  const LinkedInProfile := Pattern("linkedin.com/in/", "", {'/', '?'})
  /** /instagram\.com\/([^/?]+)/ */
  const InstagramProfile := Pattern("instagram.com/", "", {'/', '?'})

  const YouTubeIntentTail := "#Intent;scheme=vnd.youtube;package=com.google.android.youtube;end"
  const LinkedInIntentTail := "#Intent;scheme=linkedin;package=com.linkedin.android;end"
  const InstagramIntentTail := "#Intent;scheme=instagram;package=com.instagram.android;end"

  /** The public entry point: resolves `url` to its deep links. */
  function GenerateDeepLink(url: string): (r: DeepLinkResult)
    ensures r.webUrl == Trim(url)
  {
    Resolve(Trim(url))
  }

  /** The pattern cascade on the already trimmed `webUrl`. */
  function Resolve(webUrl: string): (r: DeepLinkResult)
    ensures r.webUrl == webUrl
    ensures r.ios.Some? ==> |r.ios.value| > 0
    ensures r.android.Some? ==> |r.android.value| > 0
  {
    var youtubeWatchMatch := FirstMatch(webUrl, YouTubeWatch);
    var youtubeShortMatch := FirstMatch(webUrl, YouTubeShort);
    if youtubeWatchMatch.Some? || youtubeShortMatch.Some? then
      var videoId := if youtubeWatchMatch.Some? then youtubeWatchMatch.value.id else youtubeShortMatch.value.id;
      YouTubeLinks(webUrl, videoId)
    else
      var linkedinMatch := FirstMatch(webUrl, LinkedInProfile);
      if linkedinMatch.Some? then
        LinkedInLinks(webUrl, linkedinMatch.value.id)
      else
        var isInstagramMatch := FirstMatch(webUrl, InstagramProfile);
        if isInstagramMatch.Some? then
          InstagramLinks(webUrl, isInstagramMatch.value.id)
        else
          DeepLinkResult(webUrl, None, None, Unknown)
  }

  /** The YouTube app URIs for a video id. */
  function YouTubeLinks(webUrl: string, videoId: string): (r: DeepLinkResult)
    ensures r.webUrl == webUrl && r.ios.Some? && r.android.Some? && r.platform == YouTube
    ensures |r.ios.value| > 0 && |r.android.value| > 0
  {
    DeepLinkResult(webUrl,
      Some("vnd.youtube://watch?v=" + videoId),
      Some("intent://watch?v=" + videoId + YouTubeIntentTail),
      YouTube)
  }

  /** The LinkedIn app URIs for a profile id. */
  function LinkedInLinks(webUrl: string, profileId: string): (r: DeepLinkResult)
    ensures r.webUrl == webUrl && r.ios.Some? && r.android.Some? && r.platform == LinkedIn
    ensures |r.ios.value| > 0 && |r.android.value| > 0
  {
    DeepLinkResult(webUrl,
      Some("linkedin://in/" + profileId),
      Some("intent://in/" + profileId + LinkedInIntentTail),
      LinkedIn)
  }

  /** The Instagram app URIs for a user name. */
  function InstagramLinks(webUrl: string, profileId: string): (r: DeepLinkResult)
    ensures r.webUrl == webUrl && r.ios.Some? && r.android.Some? && r.platform == Instagram
    ensures |r.ios.value| > 0 && |r.android.value| > 0
  {
    DeepLinkResult(webUrl,
      Some("instagram://user?username=" + profileId),
      Some("intent://user?username=" + profileId + InstagramIntentTail),
      Instagram)
  }

  /** Some known pattern matches anywhere in `w`. */
  ghost predicate AnyPatternOccurs(w: string) {
    Occurs(w, YouTubeWatch) || Occurs(w, YouTubeShort) || Occurs(w, LinkedInProfile) || Occurs(w, InstagramProfile)
  }

  /** The sentinel `unknown`, with both URIs null, comes out exactly when no pattern matches;
      every known platform comes with both URIs. */
  lemma UnknownExactlyWhenNothingMatches(webUrl: string)
    ensures var r := Resolve(webUrl);
      (r.platform == Unknown <==> !AnyPatternOccurs(webUrl))
      && (r.platform == Unknown ==> r.ios == None && r.android == None)
      && (r.platform != Unknown ==> r.ios.Some? && r.android.Some?)
  {
  }

  /** First match wins: YouTube (either form) before LinkedIn before Instagram. */
  lemma Precedence(webUrl: string)
    ensures var r := Resolve(webUrl);
      var youtube := Occurs(webUrl, YouTubeWatch) || Occurs(webUrl, YouTubeShort);
      (r.platform == YouTube <==> youtube)
      && (r.platform == LinkedIn <==> !youtube && Occurs(webUrl, LinkedInProfile))
      && (r.platform == Instagram <==> !youtube && !Occurs(webUrl, LinkedInProfile) && Occurs(webUrl, InstagramProfile))
  {
  }

  /** A watch-page match supplies the video id, even when a short link also matches;
      the id is non-empty and free of `&`, and it alone determines both URIs. */
  lemma YouTubeFromWatchPage(webUrl: string)
    requires Occurs(webUrl, YouTubeWatch)
    ensures var r := Resolve(webUrl); var m := FirstMatch(webUrl, YouTubeWatch).value;
      |m.id| > 0 && '&' !in m.id
      && r.ios == Some("vnd.youtube://watch?v=" + m.id)
      && r.android == Some("intent://watch?v=" + m.id + "#Intent;scheme=vnd.youtube;package=com.google.android.youtube;end")
      && r.platform == YouTube
  {
    FreeOfExcludes(FirstMatch(webUrl, YouTubeWatch).value.id, YouTubeWatch.stops, '&');
  }

  /** Without a watch-page match, a youtu.be match supplies the id: non-empty and free of `?`. */
  lemma YouTubeFromShortLink(webUrl: string)
    requires !Occurs(webUrl, YouTubeWatch) && Occurs(webUrl, YouTubeShort)
    ensures var r := Resolve(webUrl); var m := FirstMatch(webUrl, YouTubeShort).value;
      |m.id| > 0 && '?' !in m.id
      && r.ios == Some("vnd.youtube://watch?v=" + m.id)
      && r.android == Some("intent://watch?v=" + m.id + "#Intent;scheme=vnd.youtube;package=com.google.android.youtube;end")
      && r.platform == YouTube
  {
    FreeOfExcludes(FirstMatch(webUrl, YouTubeShort).value.id, YouTubeShort.stops, '?');
  }

  /** Without a YouTube match, an `/in/` profile match gives the LinkedIn URIs from an id free of `/` and `?`. */
  lemma LinkedInFromProfile(webUrl: string)
    requires !Occurs(webUrl, YouTubeWatch) && !Occurs(webUrl, YouTubeShort)
    requires Occurs(webUrl, LinkedInProfile)
    ensures var r := Resolve(webUrl); var m := FirstMatch(webUrl, LinkedInProfile).value;
      |m.id| > 0 && '/' !in m.id && '?' !in m.id
      && r.ios == Some("linkedin://in/" + m.id)
      && r.android == Some("intent://in/" + m.id + "#Intent;scheme=linkedin;package=com.linkedin.android;end")
      && r.platform == LinkedIn
  {
    var id := FirstMatch(webUrl, LinkedInProfile).value.id;
    FreeOfExcludes(id, LinkedInProfile.stops, '/');
    FreeOfExcludes(id, LinkedInProfile.stops, '?');
  }

  /** Without a YouTube or LinkedIn match, an Instagram match gives the Instagram URIs from an id free of `/` and `?`. */
  lemma InstagramFromProfile(webUrl: string)
    requires !Occurs(webUrl, YouTubeWatch) && !Occurs(webUrl, YouTubeShort)
    requires !Occurs(webUrl, LinkedInProfile) && Occurs(webUrl, InstagramProfile)
    ensures var r := Resolve(webUrl); var m := FirstMatch(webUrl, InstagramProfile).value;
      |m.id| > 0 && '/' !in m.id && '?' !in m.id
      && r.ios == Some("instagram://user?username=" + m.id)
      && r.android == Some("intent://user?username=" + m.id + "#Intent;scheme=instagram;package=com.instagram.android;end")
      && r.platform == Instagram
  {
    var id := FirstMatch(webUrl, InstagramProfile).value.id;
    FreeOfExcludes(id, InstagramProfile.stops, '/');
    FreeOfExcludes(id, InstagramProfile.stops, '?');
  }

  /** Surrounding whitespace never changes the outcome. */
  lemma TrimmedInputSameResult(url: string)
    ensures GenerateDeepLink(Trim(url)) == GenerateDeepLink(url)
  {
    TrimIdempotent(url);
  }
}
