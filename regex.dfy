/** The only regular-expression shape the deep-link core uses:

      anchor (?:prefix)? ([^stops]+)

    a literal anchor, an optional literal group, then one greedy capture of at least one
    character outside a fixed stop set. An empty `prefix` stands for a pattern without the
    optional group (both alternatives of the group then coincide). Matching follows
    ECMAScript backtracking order: leftmost start first; at a start, the optional group is
    tried before skipping it; the capture takes as many characters as it can. */
module Regex {
  import opened Wrappers
  import opened Text

  datatype Pattern = Pattern(anchor: string, prefix: string, stops: set<char>)

  /** A successful match: `text` is `match[0]` (the whole matched substring), `id` is `match[1]`. */
  datatype Match = Match(start: nat, text: string, id: string)

  /** The character at `k` exists and may be captured. */
  predicate Allowed(s: string, k: nat, stops: set<char>) {
    k < |s| && s[k] !in stops
  }

  /** Characters of `t` that the capture class `[^stops]` admits: all of them. */
  ghost predicate FreeOf(t: string, stops: set<char>) {
    forall k :: 0 <= k < |t| ==> t[k] !in stops
  }

  /** Length of the greedy run of capturable characters starting at `from`. */
  function RunLength(s: string, from: nat, stops: set<char>): (n: nat)
    requires from <= |s|
    ensures from + n <= |s|
    ensures FreeOf(s[from..from + n], stops)
    ensures from + n == |s| || s[from + n] in stops
    decreases |s| - from
  {
    if Allowed(s, from, stops) then 1 + RunLength(s, from + 1, stops) else 0
  }

  /** What one successful attempt of `p` at `i` yields, stated without reference to how it is found:
      a non-empty capture free of stop characters, preceded by the anchor and (possibly) the
      prefix, lying in `s` at `i`, and ended by the end of `s` or a stop character. */
  ghost predicate Captures(s: string, p: Pattern, i: nat, m: Match) {
    m.start == i && |m.id| > 0 && FreeOf(m.id, p.stops)
    && (m.text == p.anchor + p.prefix + m.id || m.text == p.anchor + m.id)
    && StartsAt(s, i, m.text)
    && (i + |m.text| == |s| || s[i + |m.text|] in p.stops)
  }

  /** Whether the optional group can be taken at `i` with a capture behind it. */
  predicate PrefixApplies(s: string, p: Pattern, i: nat) {
    StartsAt(s, i + |p.anchor|, p.prefix) && Allowed(s, i + |p.anchor| + |p.prefix|, p.stops)
  }

  /** The regular expression tried at exactly position `i` (a sticky match). */
  function MatchAt(s: string, p: Pattern, i: nat): (r: Option<Match>)
    requires i <= |s|
    ensures r.Some? <==> StartsAt(s, i, p.anchor)
                         && (PrefixApplies(s, p, i) || Allowed(s, i + |p.anchor|, p.stops))
  {
    if !StartsAt(s, i, p.anchor) then None
    else
      var j := i + |p.anchor|;
      if PrefixApplies(s, p, i) then
        var k := j + |p.prefix|;
        var n := RunLength(s, k, p.stops);
        Some(Match(i, s[i..k + n], s[k..k + n]))
      else if Allowed(s, j, p.stops) then
        var n := RunLength(s, j, p.stops);
        Some(Match(i, s[i..j + n], s[j..j + n]))
      else None
  }

  /** A successful attempt has the declarative shape, and it takes the optional group exactly
      when the group can be taken with a capture behind it. */
  lemma MatchAtShape(s: string, p: Pattern, i: nat)
    requires i <= |s|
    ensures var r := MatchAt(s, p, i);
      r.Some? ==>
        Captures(s, p, i, r.value)
        && (PrefixApplies(s, p, i) ==> r.value.text == p.anchor + p.prefix + r.value.id)
        && (!PrefixApplies(s, p, i) ==> r.value.text == p.anchor + r.value.id)
  {
    if StartsAt(s, i, p.anchor) {
      if PrefixApplies(s, p, i) {
        TakenShape(s, p, i);
      } else if Allowed(s, i + |p.anchor|, p.stops) {
        SkippedShape(s, p, i);
      }
    }
  }

  lemma TakenShape(s: string, p: Pattern, i: nat)
    requires i <= |s| && StartsAt(s, i, p.anchor) && PrefixApplies(s, p, i)
    ensures var r := MatchAt(s, p, i);
      r.Some? && Captures(s, p, i, r.value) && r.value.text == p.anchor + p.prefix + r.value.id
  {
    var k := i + |p.anchor| + |p.prefix|;
    var n := RunLength(s, k, p.stops);
    assert MatchAt(s, p, i) == Some(Match(i, s[i..k + n], s[k..k + n]));
    Glue(s, i, p.anchor, p.prefix, k + n);
    AttemptCaptures(s, p, i, p.prefix, k, n);
  }

  lemma SkippedShape(s: string, p: Pattern, i: nat)
    requires i <= |s| && StartsAt(s, i, p.anchor) && !PrefixApplies(s, p, i)
    requires Allowed(s, i + |p.anchor|, p.stops)
    ensures var r := MatchAt(s, p, i);
      r.Some? && Captures(s, p, i, r.value) && r.value.text == p.anchor + r.value.id
  {
    var j := i + |p.anchor|;
    var n := RunLength(s, j, p.stops);
    assert MatchAt(s, p, i) == Some(Match(i, s[i..j + n], s[j..j + n]));
    assert StartsAt(s, j, []);
    Glue(s, i, p.anchor, [], j + n);
    AttemptCaptures(s, p, i, [], j, n);
  }

  /** The text read as the anchor, `q` (the optional group or nothing) and a greedy capture
      has the declarative shape. */
  lemma AttemptCaptures(s: string, p: Pattern, i: nat, q: string, k: nat, n: nat)
    requires q == p.prefix || q == []
    requires k == i + |p.anchor| + |q| && 0 < n && k + n <= |s|
    requires FreeOf(s[k..k + n], p.stops) && (k + n == |s| || s[k + n] in p.stops)
    requires s[i..k + n] == p.anchor + q + s[k..k + n]
    ensures Captures(s, p, i, Match(i, s[i..k + n], s[k..k + n]))
    ensures q == [] ==> s[i..k + n] == p.anchor + s[k..k + n]
  {
    var id := s[k..k + n];
    if q == [] {
      assert p.anchor + q + id == p.anchor + id;
    }
  }

  /** A slice that starts with `a` and then `b` is `a`, `b` and the rest. */
  lemma Glue(s: string, i: nat, a: string, b: string, l: nat)
    requires StartsAt(s, i, a) && StartsAt(s, i + |a|, b) && i + |a| + |b| <= l <= |s|
    ensures s[i..l] == a + b + s[i + |a| + |b|..l]
  {
    var k := i + |a| + |b|;
    var t := a + b + s[k..l];
    assert forall x :: 0 <= x < |a| ==> s[i..l][x] == s[i..i + |a|][x] == t[x];
    assert forall x :: |a| <= x < |a| + |b| ==> s[i..l][x] == s[i + |a|..k][x - |a|] == t[x];
    assert forall x :: |a| + |b| <= x < l - i ==> s[i..l][x] == s[k..l][x - |a| - |b|] == t[x];
  }

  /** The attempt at `i` is the only outcome the regular expression admits there: any match
      that has the declarative shape, and skips the optional group only when it must, is it. */
  lemma MatchAtUnique(s: string, p: Pattern, i: nat, m: Match)
    requires i <= |s|
    requires Captures(s, p, i, m)
    requires m.text != p.anchor + p.prefix + m.id ==> !PrefixApplies(s, p, i)
    ensures MatchAt(s, p, i) == Some(m)
  {
    if m.text == p.anchor + p.prefix + m.id {
      MatchAtTakingPrefix(s, p, i, m);
    } else {
      MatchAtSkippingPrefix(s, p, i, m);
    }
  }

  lemma MatchAtTakingPrefix(s: string, p: Pattern, i: nat, m: Match)
    requires i <= |s|
    requires Captures(s, p, i, m)
    requires m.text == p.anchor + p.prefix + m.id
    ensures MatchAt(s, p, i) == Some(m)
  {
    var k := i + |p.anchor| + |p.prefix|;
    var n := |m.id|;
    Pieces(s, i, p.anchor, p.prefix, m.id);
    assert s[k..k + n] == m.id;
    assert s[k] == m.id[0];
    assert PrefixApplies(s, p, i);
    assert k + n == i + |m.text|;
    RunLengthUnique(s, k, p.stops, n);
    assert MatchAt(s, p, i) == Some(Match(i, s[i..k + n], s[k..k + n]));
    assert s[i..k + n] == m.text;
  }

  lemma MatchAtSkippingPrefix(s: string, p: Pattern, i: nat, m: Match)
    requires i <= |s|
    requires Captures(s, p, i, m)
    requires m.text == p.anchor + m.id
    requires !PrefixApplies(s, p, i)
    ensures MatchAt(s, p, i) == Some(m)
  {
    var j := i + |p.anchor|;
    var n := |m.id|;
    Halves(s, i, p.anchor, m.id);
    assert s[j..j + n] == m.id;
    assert s[j] == m.id[0];
    assert j + n == i + |m.text|;
    RunLengthUnique(s, j, p.stops, n);
    assert MatchAt(s, p, i) == Some(Match(i, s[i..j + n], s[j..j + n]));
    assert s[i..j + n] == m.text;
  }

  /** An occurrence of a concatenation is an occurrence of each part, one after the other. */
  lemma Pieces(s: string, i: nat, a: string, b: string, c: string)
    requires StartsAt(s, i, a + b + c)
    ensures StartsAt(s, i, a) && StartsAt(s, i + |a|, b) && StartsAt(s, i + |a| + |b|, c)
  {
    Halves(s, i, a + b, c);
    Halves(s, i, a, b);
  }

  /** An occurrence of `x + y` is an occurrence of `x` followed by one of `y`. */
  lemma Halves(s: string, i: nat, x: string, y: string)
    requires StartsAt(s, i, x + y)
    ensures StartsAt(s, i, x) && StartsAt(s, i + |x|, y)
  {
    var t := x + y;
    assert forall k :: 0 <= k < |x| ==> s[i..i + |x|][k] == s[i..i + |t|][k] == t[k] == x[k];
    assert forall k :: 0 <= k < |y| ==> s[i + |x|..i + |t|][k] == s[i..i + |t|][|x| + k] == t[|x| + k] == y[k];
  }

  /** The greedy run is the only stop-free stretch that ends at a stop character or at the end. */
  lemma {:induction false} RunLengthUnique(s: string, from: nat, stops: set<char>, n: nat)
    requires from + n <= |s|
    requires FreeOf(s[from..from + n], stops)
    requires from + n == |s| || s[from + n] in stops
    ensures RunLength(s, from, stops) == n
    decreases n
  {
    if n > 0 {
      assert s[from] == s[from..from + n][0];
      assert s[from + 1..from + n] == s[from..from + n][1..];
      RunLengthUnique(s, from + 1, stops, n - 1);
    }
  }

  /** Leftmost search from position `from` on. */
  function Find(s: string, p: Pattern, from: nat): (r: Option<Match>)
    requires from <= |s|
    ensures r.Some? ==> from <= r.value.start <= |s| && MatchAt(s, p, r.value.start) == r
    ensures forall k :: from <= k <= |s| && (r.None? || k < r.value.start) ==> MatchAt(s, p, k).None?
    decreases |s| - from
  {
    var m := MatchAt(s, p, from);
    if m.Some? then m
    else if from == |s| then None
    else Find(s, p, from + 1)
  }

  /** The regular expression matches somewhere in `s`. */
  ghost predicate Occurs(s: string, p: Pattern) {
    exists i :: 0 <= i <= |s| && MatchAt(s, p, i).Some?
  }

  /** `s.match(regex)` for a regex without the global flag: the leftmost match, or null. */
  function FirstMatch(s: string, p: Pattern): (r: Option<Match>)
    ensures r.Some? <==> Occurs(s, p)
    ensures r.Some? ==> Captures(s, p, r.value.start, r.value)
  {
    var r := Find(s, p, 0);
    if r.Some? then MatchAtShape(s, p, r.value.start); r else r
  }

  /** The reported match is the attempt at its start, and every earlier attempt fails. */
  lemma FirstMatchIsLeftmost(s: string, p: Pattern)
    ensures var r := FirstMatch(s, p);
      r.Some? ==>
        r.value.start <= |s| && MatchAt(s, p, r.value.start) == r
        && forall k :: 0 <= k < r.value.start ==> MatchAt(s, p, k).None?
  {
  }

  /** A capture free of the stop characters contains none of them. */
  lemma FreeOfExcludes(t: string, stops: set<char>, c: char)
    requires FreeOf(t, stops) && c in stops
    ensures c !in t
  {
  }

  /** The leftmost search returns the attempt at `i` when every earlier attempt fails. */
  lemma {:induction false} FindFirstAt(s: string, p: Pattern, from: nat, i: nat)
    requires from <= i <= |s|
    requires forall k :: from <= k < i ==> MatchAt(s, p, k).None?
    requires MatchAt(s, p, i).Some?
    ensures Find(s, p, from) == MatchAt(s, p, i)
    decreases i - from
  {
    if from < i {
      FindFirstAt(s, p, from + 1, i);
    }
  }

  /** No attempt can start before `i` when the anchor's first character is absent there. */
  lemma NoMatchBefore(s: string, p: Pattern, i: nat)
    requires i <= |s| && |p.anchor| > 0 && p.anchor[0] !in s[..i]
    ensures forall k :: 0 <= k < i ==> MatchAt(s, p, k).None?
  {
    forall k | 0 <= k < i
      ensures MatchAt(s, p, k).None?
    {
      assert s[k] == s[..i][k];
      assert k + |p.anchor| <= |s| ==> s[k..k + |p.anchor|][0] == s[k];
    }
  }

  /** A pattern cannot match where a character of its anchor never appears. */
  lemma AbsentAnchorChar(s: string, p: Pattern, c: char)
    requires c in p.anchor && c !in s
    ensures !Occurs(s, p)
  {
    var d :| 0 <= d < |p.anchor| && p.anchor[d] == c;
    forall i | 0 <= i <= |s|
      ensures MatchAt(s, p, i).None?
    {
      assert i + |p.anchor| <= |s| ==> s[i..i + |p.anchor|][d] == s[i + d] != c;
    }
  }

  /** A pattern cannot match `pre + rest` when its anchor's first character is absent from `pre`
      and one of its characters is absent from `rest`: no occurrence can start in `pre` or in `rest`. */
  lemma AnchorSplit(s: string, p: Pattern, pre: string, rest: string, d: nat)
    requires s == pre + rest && d < |p.anchor|
    requires p.anchor[0] !in pre && p.anchor[d] !in rest
    ensures !Occurs(s, p)
  {
    forall i | 0 <= i <= |s|
      ensures MatchAt(s, p, i).None?
    {
      if i + |p.anchor| <= |s| {
        assert s[i..i + |p.anchor|][0] == s[i];
        assert s[i..i + |p.anchor|][d] == s[i + d];
        assert i < |pre| ==> s[i] == pre[i];
        assert i + d >= |pre| ==> s[i + d] == rest[i + d - |pre|];
      }
    }
  }

  /** A pattern cannot match when the anchor's `d`-th character occurs only at `k` and is not
      followed there by the anchor's next character. */
  lemma MisplacedAnchorChar(s: string, p: Pattern, d: nat, k: nat)
    requires d + 1 < |p.anchor| && k + 1 < |s|
    requires forall j :: 0 <= j < |s| && s[j] == p.anchor[d] ==> j == k
    requires s[k + 1] != p.anchor[d + 1]
    ensures !Occurs(s, p)
  {
    forall i | 0 <= i <= |s|
      ensures MatchAt(s, p, i).None?
    {
      if i + |p.anchor| <= |s| {
        assert s[i..i + |p.anchor|][d] == s[i + d];
        assert s[i..i + |p.anchor|][d + 1] == s[i + d + 1];
      }
    }
  }

  /** A string laid out as `pre`, the anchor, `q`, a capture and `post` is matched first right
      after `pre`, when the anchor's first character does not occur in `pre`, the capture ends at
      `post`, and `q` is the optional group taken or, where it cannot be taken, skipped. */
  lemma MatchAfter(s: string, p: Pattern, pre: string, q: string, id: string, post: string, text: string)
    requires text == p.anchor + q + id && s == pre + text + post
    requires |p.anchor| > 0 && p.anchor[0] !in pre
    requires q == p.prefix || (q == [] && !PrefixApplies(s, p, |pre|))
    requires |id| > 0 && FreeOf(id, p.stops) && (post == [] || post[0] in p.stops)
    ensures FirstMatch(s, p) == Some(Match(|pre|, text, id))
  {
    var i := |pre|;
    var m := Match(i, text, id);
    Infix(pre, text, post);
    assert s[..i] == pre;
    assert post != [] ==> s[i + |m.text|] == post[0];
    assert q == [] ==> m.text == p.anchor + id;
    MatchAtUnique(s, p, i, m);
    NoMatchBefore(s, p, i);
    FindFirstAt(s, p, 0, i);
  }

  /** Right after `pre`, the optional group is taken when a capture follows it. */
  lemma GroupTaken(p: Pattern, pre: string, n: string)
    requires |p.anchor| > 0 && p.anchor[0] !in pre && |n| > 0 && FreeOf(n, p.stops)
    ensures FirstMatch(pre + p.anchor + p.prefix + n, p) == Some(Match(|pre|, p.anchor + p.prefix + n, n))
  {
    var s := pre + p.anchor + p.prefix + n;
    assert s == pre + (p.anchor + p.prefix + n) + [];
    MatchAfter(s, p, pre, p.prefix, n, [], p.anchor + p.prefix + n);
  }

  /** Right after `pre`, the optional group is given back when nothing follows it, and the
      capture is the group's text. */
  lemma GroupGivenBack(p: Pattern, pre: string)
    requires |p.anchor| > 0 && p.anchor[0] !in pre && |p.prefix| > 0 && FreeOf(p.prefix, p.stops)
    ensures FirstMatch(pre + p.anchor + p.prefix, p) == Some(Match(|pre|, p.anchor + p.prefix, p.prefix))
  {
    var s := pre + p.anchor + p.prefix;
    assert s == pre + (p.anchor + p.prefix) + [];
    assert p.anchor + p.prefix == p.anchor + [] + p.prefix;
    assert !PrefixApplies(s, p, |pre|);
    MatchAfter(s, p, pre, [], p.prefix, [], p.anchor + p.prefix);
  }
}
