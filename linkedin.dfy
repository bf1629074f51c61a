/** The LinkedIn handler of packages/core/src/platforms/linkedin.ts: an ordered table of
    (link type, pattern) pairs searched first-match-first, and a table of URI builders keyed
    by link type. */
module LinkedIn {
  import opened Wrappers
  import opened Regex
  import DeepLink

  /** `match`'s result `[matchedText, type, id]`. */
  datatype LinkMatch = LinkMatch(text: string, linkType: string, id: string)

  datatype TypedPattern = TypedPattern(linkType: string, pattern: Pattern)

  /** Identifiers stop at `/`, `?` and `#`. */
  const Stops: set<char> := {'/', '?', '#'}

  /** The ordered pattern list; `/feed/update/` may carry the optional `urn:li:activity:` group. */
  const Patterns: seq<TypedPattern> := [
    TypedPattern("profile", Pattern("linkedin.com/in/", "", Stops)),
    TypedPattern("post", Pattern("linkedin.com/posts/", "", Stops)),
    TypedPattern("post", Pattern("linkedin.com/feed/update/", "urn:li:activity:", Stops)),
    TypedPattern("company", Pattern("linkedin.com/company/", "", Stops)),
    TypedPattern("job", Pattern("linkedin.com/jobs/view/", "", Stops))
  ]

  /** The link types some pattern can report. */
  const LinkTypes: set<string> := {"profile", "post", "company", "job"}

  /** The pattern at index `k` is the first in `ps` that matches `url`. */
  ghost predicate FirstHit(url: string, ps: seq<TypedPattern>, k: nat) {
    k < |ps| && Occurs(url, ps[k].pattern)
    && forall j :: 0 <= j < k ==> !Occurs(url, ps[j].pattern)
  }

  /** The triple reported for a pattern that matches `url`. */
  function Hit(url: string, tp: TypedPattern): (r: LinkMatch)
    requires Occurs(url, tp.pattern)
  {
    var m := FirstMatch(url, tp.pattern).value;
    LinkMatch(m.text, tp.linkType, m.id)
  }

  /** The `for...of` loop of `match`: tries the patterns in list order and stops at the first that matches. */
  function MatchIn(url: string, ps: seq<TypedPattern>): (r: Option<LinkMatch>)
    ensures r.None? <==> forall k :: 0 <= k < |ps| ==> !Occurs(url, ps[k].pattern)
  {
    if ps == [] then None
    else
      var m := FirstMatch(url, ps[0].pattern);
      if m.Some? then Some(LinkMatch(m.value.text, ps[0].linkType, m.value.id))
      else MatchIn(url, ps[1..])
  }

  /** The first pattern that matches decides the result, wherever later patterns would match. */
  lemma {:induction false} MatchInIsFirstHit(url: string, ps: seq<TypedPattern>, k: nat)
    requires FirstHit(url, ps, k)
    ensures MatchIn(url, ps) == Some(Hit(url, ps[k]))
  {
    if k > 0 {
      assert FirstHit(url, ps[1..], k - 1) by {
        forall j | 0 <= j < k - 1
          ensures !Occurs(url, ps[1..][j].pattern)
        {
          assert ps[1..][j] == ps[j + 1];
        }
      }
      MatchInIsFirstHit(url, ps[1..], k - 1);
    }
  }

  /** `linkedinHandler.match`: null exactly when none of the five patterns matches. */
  function Match(url: string): (r: Option<LinkMatch>)
    ensures r.None? <==> forall k :: 0 <= k < |Patterns| ==> !Occurs(url, Patterns[k].pattern)
  {
    MatchIn(url, Patterns)
  }

  /** `buildResult`: every LinkedIn result is tagged `linkedin` and keeps the web URL. */
  function BuildResult(webUrl: string, ios: Option<string>, android: Option<string>): (r: DeepLink.DeepLinkResult)
    ensures r.platform == DeepLink.LinkedIn && r.webUrl == webUrl
    ensures r.ios == ios && r.android == android
  {
    DeepLink.DeepLinkResult(webUrl, ios, android, DeepLink.LinkedIn)
  }

  const IntentTail := "#Intent;scheme=linkedin;package=com.linkedin.android;end"

  /** `builders`: link type to a builder of both URIs from the id. */
  const Builders: map<string, (string, string) -> DeepLink.DeepLinkResult> := map[
    "profile" := (id: string, webUrl: string) =>
      BuildResult(webUrl, Some("linkedin://in/" + id), Some("intent://in/" + id + IntentTail)),
    "post" := (id: string, webUrl: string) =>
      BuildResult(webUrl, Some("linkedin://urn:li:activity:" + id), Some("intent://urn:li:activity:" + id + IntentTail)),
    "company" := (id: string, webUrl: string) =>
      BuildResult(webUrl, Some("linkedin://company/" + id), Some("intent://company/" + id + IntentTail)),
    "job" := (id: string, webUrl: string) =>
      BuildResult(webUrl, Some("linkedin://job/" + id), Some("intent://job/" + id + IntentTail))
  ]

  /** `linkedinHandler.build`: the builder for the match's type, or a partial result with both URIs null. */
  function Build(webUrl: string, m: LinkMatch): (r: DeepLink.DeepLinkResult)
    ensures r.platform == DeepLink.LinkedIn && r.webUrl == webUrl
    ensures r.ios.Some? <==> m.linkType in LinkTypes
    ensures r.android.Some? <==> m.linkType in LinkTypes
  {
    if m.linkType in Builders then Builders[m.linkType](m.id, webUrl)
    else BuildResult(webUrl, None, None)
  }

  /** What every pattern of `ps` shares carries over to whatever `MatchIn` reports. */
  lemma {:induction false} MatchInShape(url: string, ps: seq<TypedPattern>, types: set<string>, stops: set<char>)
    requires forall j :: 0 <= j < |ps| ==> ps[j].linkType in types && ps[j].pattern.stops == stops
    ensures MatchIn(url, ps).Some? ==>
      var m := MatchIn(url, ps).value;
      m.linkType in types && |m.id| > 0 && FreeOf(m.id, stops) && Text.Within(url, m.text)
  {
    if ps != [] {
      var m := FirstMatch(url, ps[0].pattern);
      if m.Some? {
        assert Text.StartsAt(url, m.value.start, m.value.text);
      } else {
        assert forall j :: 0 <= j < |ps[1..]| ==> ps[1..][j] == ps[j + 1];
        MatchInShape(url, ps[1..], types, stops);
      }
    }
  }

  /** A reported match is `[matchedText, type, id]` with `matchedText` taken from the URL,
      `type` one of the four link types, and `id` non-empty and free of `/`, `?` and `#`. */
  lemma MatchShape(url: string)
    ensures Match(url).Some? ==>
      var m := Match(url).value;
      m.linkType in LinkTypes && |m.id| > 0 && '/' !in m.id && '?' !in m.id && '#' !in m.id
      && Text.Within(url, m.text)
  {
    MatchInShape(url, Patterns, LinkTypes, Stops);
    if Match(url).Some? {
      var id := Match(url).value.id;
      FreeOfExcludes(id, Stops, '/');
      FreeOfExcludes(id, Stops, '?');
      FreeOfExcludes(id, Stops, '#');
    }
  }

  /** When the `/feed/update/` pattern is the first to match, the result is a `post` whose id has
      the `urn:li:activity:` prefix stripped whenever a capture can follow it, and is taken
      right after `/feed/update/` (the backtracked alternative) otherwise. */
  lemma FeedUpdateIsPost(url: string)
    requires FirstHit(url, Patterns, 2)
    ensures var p := Patterns[2].pattern; var m := FirstMatch(url, p).value;
      Match(url) == Some(LinkMatch(m.text, "post", m.id))
      && (PrefixApplies(url, p, m.start) ==> m.text == "linkedin.com/feed/update/" + "urn:li:activity:" + m.id)
      && (!PrefixApplies(url, p, m.start) ==> m.text == "linkedin.com/feed/update/" + m.id)
  {
    var p := Patterns[2].pattern;
    var m := FirstMatch(url, p).value;
    MatchInIsFirstHit(url, Patterns, 2);
    FirstMatchIsLeftmost(url, p);
    MatchAtShape(url, p, m.start);
  }

  /** The builders' literals split into the shared scheme and the type's path. */
  lemma ProfileTemplate(id: string)
    ensures "linkedin://in/" + id == "linkedin://" + ("in/" + id)
    ensures "intent://in/" + id + IntentTail == "intent://" + ("in/" + id) + IntentTail
  {
    assert "linkedin://in/" == "linkedin://" + "in/";
    assert "intent://in/" == "intent://" + "in/";
  }

  lemma PostTemplate(id: string)
    ensures "linkedin://urn:li:activity:" + id == "linkedin://" + ("urn:li:activity:" + id)
    ensures "intent://urn:li:activity:" + id + IntentTail == "intent://" + ("urn:li:activity:" + id) + IntentTail
  {
    assert "linkedin://urn:li:activity:" == "linkedin://" + "urn:li:activity:";
    assert "intent://urn:li:activity:" == "intent://" + "urn:li:activity:";
  }

  lemma CompanyTemplate(id: string)
    ensures "linkedin://company/" + id == "linkedin://" + ("company/" + id)
    ensures "intent://company/" + id + IntentTail == "intent://" + ("company/" + id) + IntentTail
  {
    assert "linkedin://company/" == "linkedin://" + "company/";
    assert "intent://company/" == "intent://" + "company/";
  }

  lemma JobTemplate(id: string)
    ensures "linkedin://job/" + id == "linkedin://" + ("job/" + id)
    ensures "intent://job/" + id + IntentTail == "intent://" + ("job/" + id) + IntentTail
  {
    assert "linkedin://job/" == "linkedin://" + "job/";
    assert "intent://job/" == "intent://" + "job/";
  }

  /** Both URIs follow the type's template: `linkedin://P` and `intent://P#Intent;...;end`. */
  lemma BuildTemplates(webUrl: string, m: LinkMatch)
    ensures var r := Build(webUrl, m);
      var path := if m.linkType == "profile" then "in/" + m.id
        else if m.linkType == "post" then "urn:li:activity:" + m.id
        else if m.linkType == "company" then "company/" + m.id
        else "job/" + m.id;
      m.linkType in LinkTypes ==>
        r.ios == Some("linkedin://" + path)
        && r.android == Some("intent://" + path + "#Intent;scheme=linkedin;package=com.linkedin.android;end")
  {
    ProfileTemplate(m.id);
    PostTemplate(m.id);
    CompanyTemplate(m.id);
    JobTemplate(m.id);
  }

  /** Every type `match` reports has a builder, so building after a match gives both URIs. */
  lemma BuildAfterMatch(url: string, webUrl: string)
    requires Match(url).Some?
    ensures var r := Build(webUrl, Match(url).value);
      r.ios.Some? && r.android.Some? && r.platform == DeepLink.LinkedIn && r.webUrl == webUrl
  {
    MatchShape(url);
  }

  /** `build` reads only the type and the id of the match: the matched text plays no part. */
  lemma BuildIgnoresMatchedText(webUrl: string, m: LinkMatch, n: LinkMatch)
    requires m.linkType == n.linkType && m.id == n.id
    ensures Build(webUrl, m) == Build(webUrl, n)
  {
  }
}
