/**
 * The video-id extraction of the manual-override route in
 * `src/routes/youtube.js`: the first match of the pattern
 * `(?:youtube\.com\/watch\?v=|youtu\.be\/|youtube\.com\/embed\/)([^&\s]+)`,
 * written out as an explicit leftmost search over the three prefixes.
 */
module VideoUrl {
  import opened Common
  import opened Text

  const WatchPrefix: string := "youtube.com/watch?v="
  const ShortPrefix: string := "youtu.be/"
  const EmbedPrefix: string := "youtube.com/embed/"

  /** The characters the captured group may hold: `[^&\s]`. */
  predicate IsIdChar(c: char) {
    c != '&' && !IsSpace(c)
  }

  /** The length of the longest run of id characters starting at `from`. */
  function IdRun(s: string, from: nat): (n: nat)
    requires from <= |s|
    ensures from + n <= |s|
    ensures forall k :: from <= k < from + n ==> IsIdChar(s[k])
    ensures from + n == |s| || !IsIdChar(s[from + n])
    decreases |s| - from
  {
    if from == |s| || !IsIdChar(s[from]) then 0 else 1 + IdRun(s, from + 1)
  }

  /** `prefix` occurs in `s` at position `p`. */
  predicate HasAt(s: string, p: nat, prefix: string) {
    p + |prefix| <= |s| && s[p..p + |prefix|] == prefix
  }

  /** The group captured by one alternative at `p`: the greedy, non-empty run after the prefix. */
  function Capture(s: string, p: nat, prefix: string): Option<string>
    requires p <= |s|
  {
    if HasAt(s, p, prefix) && IdRun(s, p + |prefix|) > 0 then
      Some(s[p + |prefix|..p + |prefix| + IdRun(s, p + |prefix|)])
    else None
  }

  /** A match starting at `p`: the alternatives are tried in the order written. */
  function MatchAt(s: string, p: nat): Option<string>
    requires p <= |s|
  {
    var w := Capture(s, p, WatchPrefix);
    if w.Some? then w
    else
      var b := Capture(s, p, ShortPrefix);
      if b.Some? then b else Capture(s, p, EmbedPrefix)
  }

  /** The leftmost position at or after `from` where the pattern matches, with its group. */
  function Search(s: string, from: nat): (r: Option<(nat, string)>)
    requires from <= |s|
    ensures r.Some? ==> from <= r.value.0 <= |s| && MatchAt(s, r.value.0) == Some(r.value.1)
    ensures r.Some? ==> forall q :: from <= q < r.value.0 ==> MatchAt(s, q).None?
    ensures r.None? ==> forall q :: from <= q <= |s| ==> MatchAt(s, q).None?
    decreases |s| - from
  {
    var m := MatchAt(s, from);
    if m.Some? then Some((from, m.value))
    else if from == |s| then None
    else Search(s, from + 1)
  }

  /**
   * The id the route stores: the group of the leftmost match, or the input
   * unchanged when nothing matches.
   */
  function ExtractVideoId(s: string): (r: string)
    ensures (forall p :: 0 <= p <= |s| ==> MatchAt(s, p).None?) ==> r == s
    ensures forall p :: 0 <= p <= |s| && MatchAt(s, p).Some? && (forall q :: 0 <= q < p ==> MatchAt(s, q).None?) ==>
      r == MatchAt(s, p).value
  {
    var m := Search(s, 0);
    if m.Some? then m.value.1 else s
  }

  // ---------------------------------------------------------------- lemmas

  lemma CaptureShape(s: string, p: nat, prefix: string)
    requires p <= |s| && Capture(s, p, prefix).Some?
    ensures HasAt(s, p, prefix)
    ensures Capture(s, p, prefix).value != []
    ensures forall c :: c in Capture(s, p, prefix).value ==> IsIdChar(c)
  {
  }

  /** Any match captures a non-empty run of id characters right after one of the prefixes. */
  lemma MatchShape(s: string, p: nat)
    requires p <= |s| && MatchAt(s, p).Some?
    ensures HasAt(s, p, WatchPrefix) || HasAt(s, p, ShortPrefix) || HasAt(s, p, EmbedPrefix)
    ensures MatchAt(s, p).value != []
    ensures forall c :: c in MatchAt(s, p).value ==> IsIdChar(c)
  {
    if Capture(s, p, WatchPrefix).Some? {
      CaptureShape(s, p, WatchPrefix);
    } else if Capture(s, p, ShortPrefix).Some? {
      CaptureShape(s, p, ShortPrefix);
    } else {
      CaptureShape(s, p, EmbedPrefix);
    }
  }

  /** A non-empty input never yields an empty id, so the override the route stores is truthy. */
  lemma ExtractNonEmpty(s: string)
    requires s != ""
    ensures ExtractVideoId(s) != ""
  {
    var m := Search(s, 0);
    if m.Some? {
      MatchShape(s, m.value.0);
    }
  }

  lemma NotAtUnlessY(s: string, p: nat, prefix: string)
    requires prefix != [] && prefix[0] == 'y'
    requires p < |s| && s[p] != 'y'
    ensures !HasAt(s, p, prefix)
  {
    if p + |prefix| <= |s| {
      assert s[p..p + |prefix|][0] == s[p];
    }
  }

  /** Every prefix starts with `y`, so no match starts where there is none. */
  lemma NoMatchUnlessY(s: string, p: nat)
    requires p <= |s| && (p < |s| ==> s[p] != 'y')
    ensures MatchAt(s, p).None?
  {
    if p < |s| {
      NotAtUnlessY(s, p, WatchPrefix);
      NotAtUnlessY(s, p, ShortPrefix);
      NotAtUnlessY(s, p, EmbedPrefix);
    }
  }

  /** A bare id (anything without a `y`, in particular) is stored verbatim. */
  lemma BareIdVerbatim(s: string)
    requires forall k :: 0 <= k < |s| ==> s[k] != 'y'
    ensures ExtractVideoId(s) == s
  {
    forall p | 0 <= p <= |s| ensures MatchAt(s, p).None? {
      NoMatchUnlessY(s, p);
    }
  }

  /** The group captured after `prefix` at `p` is exactly `id` when a stop character or the end follows it. */
  lemma CaptureOf(s: string, p: nat, prefix: string, id: string, rest: string)
    requires p <= |s| && s[p..] == prefix + id + rest
    requires id != [] && forall k :: 0 <= k < |id| ==> IsIdChar(id[k])
    requires rest == [] || !IsIdChar(rest[0])
    ensures Capture(s, p, prefix) == Some(id)
  {
    var n := p + |prefix|;
    assert s[p..n] == (prefix + id + rest)[..|prefix|] == prefix;
    forall k | n <= k < n + |id| ensures IsIdChar(s[k]) {
      assert s[k] == s[p..][k - p] == id[k - n];
    }
    if n + |id| < |s| {
      assert s[n + |id|] == s[p..][|prefix| + |id|] == rest[0];
    }
    IdRunExact(s, n, |id|);
    assert s[n..n + |id|] == s[p..][|prefix|..|prefix| + |id|] == id;
  }

  /**
   * A short link round-trips: the id of `youtu.be/<id>` followed by nothing,
   * a `&` parameter or white space is `<id>`.
   */
  lemma ShortLinkRoundTrip(id: string, rest: string)
    requires id != [] && forall k :: 0 <= k < |id| ==> IsIdChar(id[k])
    requires rest == [] || !IsIdChar(rest[0])
    ensures ExtractVideoId(ShortPrefix + id + rest) == id
  {
    var s := ShortPrefix + id + rest;
    assert s[0..] == s;
    assert !HasAt(s, 0, WatchPrefix) by {
      if |WatchPrefix| <= |s| {
        assert s[..|WatchPrefix|][5] == s[5] == '.' != WatchPrefix[5];
      }
    }
    CaptureOf(s, 0, ShortPrefix, id, rest);
    assert MatchAt(s, 0) == Some(id);
  }

  /** A full watch link round-trips: the id of `https://www.youtube.com/watch?v=<id>&...` is `<id>`. */
  lemma WatchLinkRoundTrip(id: string, rest: string)
    requires id != [] && forall k :: 0 <= k < |id| ==> IsIdChar(id[k])
    requires rest == [] || !IsIdChar(rest[0])
    ensures ExtractVideoId("https://www." + WatchPrefix + id + rest) == id
  {
    var host := "https://www.";
    var s := host + WatchPrefix + id + rest;
    assert s[|host|..] == WatchPrefix + id + rest;
    CaptureOf(s, |host|, WatchPrefix, id, rest);
    forall q | 0 <= q < |host| ensures MatchAt(s, q).None? {
      assert s[q] == host[q];
      NoMatchUnlessY(s, q);
    }
    assert MatchAt(s, |host|) == Some(id);
  }

  /** The run after position `from` is exactly `len` long when `len` id characters are followed by a stop. */
  lemma {:induction false} IdRunExact(s: string, from: nat, len: nat)
    requires from + len <= |s|
    requires forall k :: from <= k < from + len ==> IsIdChar(s[k])
    requires from + len == |s| || !IsIdChar(s[from + len])
    ensures IdRun(s, from) == len
    decreases len
  {
    if len > 0 {
      IdRunExact(s, from + 1, len - 1);
    }
  }
}
