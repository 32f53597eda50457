/**
 * The podcast card's embed link: `youtubeLink.replace('watch?v=', 'embed/')`,
 * which rewrites a YouTube watch URL into its embeddable form. With a
 * string pattern, `replace` rewrites only the first occurrence.
 */
module PodcastEmbed {
  import opened Wrappers

  const WatchMarker := "watch?v="
  const EmbedMarker := "embed/"

  /** `pattern` occurs in `s` starting at index `i`. */
  predicate OccursAt(s: string, pattern: string, i: nat)
  {
    i + |pattern| <= |s| && s[i..i + |pattern|] == pattern
  }

  /** The first index at or after `from` where `pattern` occurs, if any. */
  function FirstOccurrence(s: string, pattern: string, from: nat): (k: Option<nat>)
    decreases |s| - from
    ensures k.Some? ==> from <= k.value && OccursAt(s, pattern, k.value)
    ensures k.Some? ==> forall j :: from <= j < k.value ==> !OccursAt(s, pattern, j)
    ensures k.None? ==> forall j :: from <= j ==> !OccursAt(s, pattern, j)
  {
    if from + |pattern| > |s| then None
    else if s[from..from + |pattern|] == pattern then Some(from)
    else FirstOccurrence(s, pattern, from + 1)
  }

  /** `s.replace(pattern, replacement)` for a string pattern and a replacement with no `$`. */
  function ReplaceFirst(s: string, pattern: string, replacement: string): (r: string)
    ensures (forall j :: !OccursAt(s, pattern, j)) ==> r == s
    ensures forall k: nat :: OccursAt(s, pattern, k) && (forall j :: 0 <= j < k ==> !OccursAt(s, pattern, j))
              ==> r == s[..k] + replacement + s[k + |pattern|..]
  {
    match FirstOccurrence(s, pattern, 0)
    case None => s
    case Some(k) => s[..k] + replacement + s[k + |pattern|..]
  }

  /** The embed URL the podcast card's iframe uses. */
  function EmbedUrl(youtubeLink: string): (r: string)
    ensures r == youtubeLink <==> forall j :: !OccursAt(youtubeLink, WatchMarker, j)
    ensures r != youtubeLink ==> |r| == |youtubeLink| - 2
    ensures r != youtubeLink ==> exists k: nat :: OccursAt(youtubeLink, WatchMarker, k) && OccursAt(r, EmbedMarker, k)
                                             && r[..k] == youtubeLink[..k]
  {
    assert FirstOccurrence(youtubeLink, WatchMarker, 0).Some? ==>
      var k := FirstOccurrence(youtubeLink, WatchMarker, 0).value;
      var r := youtubeLink[..k] + EmbedMarker + youtubeLink[k + |WatchMarker|..];
      r[k..k + |EmbedMarker|] == EmbedMarker && r[..k] == youtubeLink[..k]
    by {
      var first := FirstOccurrence(youtubeLink, WatchMarker, 0);
      if first.Some? {
        var k := first.value;
        var r := youtubeLink[..k] + EmbedMarker + youtubeLink[k + |WatchMarker|..];
        assert r[k..k + |EmbedMarker|] == EmbedMarker;
        assert r[..k] == youtubeLink[..k];
      }
    }
    ReplaceFirst(youtubeLink, WatchMarker, EmbedMarker)
  }

  /**
   * A link that contains `watch?v=` has its first occurrence, and only that
   * one, replaced by `embed/`: the text before it and the text after it are kept.
   */
  lemma EmbedRewritesFirst(youtubeLink: string, k: nat)
    requires OccursAt(youtubeLink, WatchMarker, k)
    requires forall j :: 0 <= j < k ==> !OccursAt(youtubeLink, WatchMarker, j)
    ensures EmbedUrl(youtubeLink) == youtubeLink[..k] + EmbedMarker + youtubeLink[k + |WatchMarker|..]
    ensures |EmbedUrl(youtubeLink)| == |youtubeLink| - 2
  {
  }

  /** A link without `watch?v=` is used unchanged. */
  lemma EmbedKeepsOtherLinks(youtubeLink: string)
    requires forall j :: !OccursAt(youtubeLink, WatchMarker, j)
    ensures EmbedUrl(youtubeLink) == youtubeLink
  {
  }

  /** A canonical watch URL becomes the matching embed URL. */
  lemma EmbedOfWatchUrl(videoId: string)
    ensures EmbedUrl("https://www.youtube.com/" + WatchMarker + videoId)
            == "https://www.youtube.com/" + EmbedMarker + videoId
  {
    var link := "https://www.youtube.com/" + WatchMarker + videoId;
    assert OccursAt(link, WatchMarker, 24);
    var head := "https://www.youtube.com/watch";
    assert link[..29] == head;
    assert forall i :: 0 <= i < |head| ==> head[i] != '?';
    forall j | 0 <= j < 24 ensures !OccursAt(link, WatchMarker, j) {
      assert link[j + 5] == head[j + 5];
      assert link[j..j + |WatchMarker|][5] == link[j + 5];
    }
    EmbedRewritesFirst(link, 24);
    assert link[..24] == "https://www.youtube.com/";
    assert link[24 + |WatchMarker|..] == videoId;
  }
}
