/**
 * `renderVideo` on the product page: a YouTube address becomes an embedded player for the video id
 * taken out of it with `split`; anything else is played as a direct video file.
 */
module YouTube {
  import opened Wrappers
  import opened Text

  const WatchMarker := "youtube.com/watch?v="
  const ShortMarker := "youtu.be/"
  const EmbedPrefix := "https://www.youtube.com/embed/"

  /** What `renderVideo` draws: an iframe on the embed address, or a `<video>` on the given address. */
  datatype Video = Embed(src: string) | Direct(src: string, poster: Option<string>)

  /**
   * `url.split(sep)[1]?.split(c)[0] || ''`: the text after the first `sep`, bounded by the next
   * `sep`, cut at the first `c`; the empty string when `sep` does not occur.
   */
  function Extract(url: string, sep: string, c: char): (id: string)
    requires |sep| > 0
    ensures c !in id
  {
    match SecondPiece(url, sep)
    case None => ""
    case Some(rest) => SplitHeadNoChar(rest, c); Split(rest, [c])[0]
  }

  /** Watch form: after `v=`, up to the first `&`. */
  function WatchId(url: string): (id: string)
    ensures '&' !in id
  {
    Extract(url, "v=", '&')
  }

  /** Short form: after `youtu.be/`, up to the first `?`. */
  function ShortId(url: string): (id: string)
    ensures '?' !in id
  {
    Extract(url, ShortMarker, '?')
  }

  /** The head piece of a split on one character does not hold that character. */
  lemma SplitHeadNoChar(s: string, c: char)
    ensures c !in Split(s, [c])[0]
  {
    SplitHead(s, [c]);
    IncludesChar(Split(s, [c])[0], c);
  }

  /**
   * The video id: the watch form is tried before the short form; neither gives the empty id. An id
   * only comes out of an address carrying one of the two markers, and it stops before the `&` of a
   * watch address or the `?` of a short one.
   */
  function VideoId(url: string): (id: string)
    ensures id != "" ==> Includes(url, WatchMarker) || Includes(url, ShortMarker)
    ensures Includes(url, WatchMarker) ==> '&' !in id
    ensures !Includes(url, WatchMarker) ==> '?' !in id
  {
    if Includes(url, WatchMarker) then WatchId(url)
    else if Includes(url, ShortMarker) then ShortId(url)
    else ""
  }

  /** The branch of `renderVideo`. `poster` is the url of the product's first image, if any. */
  function RenderVideo(url: string, poster: Option<string>): (v: Video)
    ensures v.Embed? <==> (Includes(url, "youtube.com") || Includes(url, "youtu.be")) && VideoId(url) != ""
    ensures v.Embed? ==> v.src == EmbedPrefix + VideoId(url)
    ensures v.Direct? ==> v == Direct(url, poster)
  {
    if Includes(url, "youtube.com") || Includes(url, "youtu.be") then
      var videoId := VideoId(url);
      if videoId != "" then Embed(EmbedPrefix + videoId) else Direct(url, poster)
    else
      Direct(url, poster)
  }

  /**
   * The first `includes` test never rejects an address that yields an id: both markers contain
   * one of the two host names. So the player is embedded exactly when the id is non-empty.
   */
  lemma EmbedIffId(url: string, poster: Option<string>)
    ensures RenderVideo(url, poster).Embed? <==> VideoId(url) != ""
  {
    if Includes(url, WatchMarker) {
      IncludesPrefix(WatchMarker, "youtube.com");
      IncludesTransitive(url, WatchMarker, "youtube.com");
    } else if Includes(url, ShortMarker) {
      IncludesPrefix(ShortMarker, "youtu.be");
      IncludesTransitive(url, ShortMarker, "youtu.be");
    }
  }

  /** No proper suffix of `sep` begins with `sep`'s first character, so occurrences cannot overlap a boundary from the left. */
  predicate LeadIsUnique(sep: string) {
    |sep| > 0 && forall m :: 0 < m < |sep| ==> sep[m] != sep[0]
  }

  /** In `pre + sep + rest`, the first `sep` is the one placed after `pre` when `pre` holds none. */
  lemma FirstAfter(pre: string, sep: string, rest: string)
    requires LeadIsUnique(sep) && !Includes(pre, sep)
    ensures IndexFrom(pre + sep + rest, sep, 0) == Some(|pre|)
  {
    var s := pre + sep + rest;
    assert OccursAt(s, sep, |pre|) by { assert s[|pre|..][..|sep|] == sep; }
    IncludesIff(pre, sep);
    forall j | 0 <= j < |pre| ensures !OccursAt(s, sep, j) {
      if j + |sep| <= |pre| {
        assert s[j..][..|sep|] == pre[j..][..|sep|];
        assert !OccursAt(pre, sep, j);
      } else {
        var m := |pre| - j;
        assert s[j..][m] == s[|pre|] == sep[0] != sep[m];
      }
    }
    IndexFromFirst(s, sep, 0, |pre|);
  }

  /** In `id + [c] + query`, no `sep` starts at or before the `c`, when `id` holds no `sep` and `sep` no `c`. */
  lemma NoneThrough(id: string, c: char, query: string, sep: string)
    requires |sep| > 0 && !Includes(id, sep) && c !in sep
    ensures forall j :: 0 <= j <= |id| ==> !OccursAt(id + [c] + query, sep, j)
  {
    var s := id + [c] + query;
    IncludesIff(id, sep);
    forall j | 0 <= j <= |id| ensures !OccursAt(s, sep, j) {
      if j + |sep| <= |id| {
        assert s[j..][..|sep|] == id[j..][..|sep|];
        assert !OccursAt(id, sep, j);
      } else if j + |sep| <= |s| {
        assert s[j..][|id| - j] == s[|id|] == c != sep[|id| - j];
      }
    }
  }

  /**
   * Extraction round trip: an id holding neither `sep` nor `c`, placed after the first `sep` of an
   * address that ends there, is the id taken back out.
   */
  lemma ExtractRoundTrip(pre: string, sep: string, c: char, id: string)
    requires LeadIsUnique(sep)
    requires !Includes(pre, sep) && !Includes(id, sep) && c !in id
    ensures Extract(pre + sep + id, sep, c) == id
  {
    IncludesChar(id, c);
    FirstAfter(pre, sep, id);
    assert (pre + sep + id)[|pre| + |sep|..] == id;
    SplitHead(id, sep);
    SplitHead(id, [c]);
  }

  /** The same round trip when the id is followed by `c` and any further query text. */
  lemma ExtractRoundTripQuery(pre: string, sep: string, c: char, id: string, query: string)
    requires LeadIsUnique(sep) && c !in sep
    requires !Includes(pre, sep) && !Includes(id, sep) && c !in id
    ensures Extract(pre + sep + id + [c] + query, sep, c) == id
  {
    var tail := id + [c] + query;
    var full := pre + sep + tail;
    assert pre + sep + id + [c] + query == full;
    FirstAfter(pre, sep, tail);
    assert full[|pre| + |sep|..] == tail;
    var v := Split(tail, sep)[0];
    PieceReachesCut(id, c, query, sep);
    CutAtFirst(v, id, c);
  }

  /** The piece of `id + [c] + query` before its first `sep` runs at least through the `c`. */
  lemma PieceReachesCut(id: string, c: char, query: string, sep: string)
    requires |sep| > 0 && !Includes(id, sep) && c !in sep
    ensures var v := Split(id + [c] + query, sep)[0]; |v| > |id| && v[..|id| + 1] == id + [c]
  {
    var tail := id + [c] + query;
    NoneThrough(id, c, query, sep);
    match IndexFrom(tail, sep, 0)
    case None =>
    case Some(i) => assert i > |id|;
  }

  /** A string that begins with `id + [c]`, where `id` holds no `c`, is cut back to `id` at its first `c`. */
  lemma CutAtFirst(v: string, id: string, c: char)
    requires |v| > |id| && v[..|id| + 1] == id + [c] && c !in id
    ensures Split(v, [c])[0] == id
  {
    assert v[|id|] == (id + [c])[|id|];
    assert v[..|id|] == id;
    SplitAtChar(v, c, |id|);
  }

  /** An address carrying the watch marker and a non-empty watch id embeds that id. */
  lemma WatchFormEmbeds(url: string, poster: Option<string>)
    requires Includes(url, WatchMarker) && WatchId(url) != ""
    ensures RenderVideo(url, poster) == Embed(EmbedPrefix + WatchId(url))
  {
    EmbedIffId(url, poster);
  }

  /** An address without the watch marker but with the short marker and a non-empty short id embeds that id. */
  lemma ShortFormEmbeds(url: string, poster: Option<string>)
    requires !Includes(url, WatchMarker) && Includes(url, ShortMarker) && ShortId(url) != ""
    ensures RenderVideo(url, poster) == Embed(EmbedPrefix + ShortId(url))
  {
    EmbedIffId(url, poster);
  }

  /** The canonical watch address of an id yields that id. */
  lemma WatchUrlId(id: string)
    requires '&' !in id && !Includes(id, "v=")
    ensures WatchId("https://www." + WatchMarker + id) == id
  {
    WatchIdAfter("https://www.youtube.com/watch?", id);
    WatchAddressSplitsAtV();
  }

  /** The canonical watch address is a prefix without `v` followed by `v=`. */
  lemma WatchAddressSplitsAtV()
    ensures "https://www." + WatchMarker == "https://www.youtube.com/watch?" + "v="
  {
  }

  /** The canonical watch address of a non-empty id embeds that id. */
  lemma WatchUrlEmbeds(id: string, poster: Option<string>)
    requires id != "" && '&' !in id && !Includes(id, "v=")
    ensures RenderVideo("https://www." + WatchMarker + id, poster) == Embed(EmbedPrefix + id)
  {
    WatchUrlId(id);
    IncludesMiddle("https://www.", WatchMarker, id);
    WatchFormEmbeds("https://www." + WatchMarker + id, poster);
  }

  /** The watch id placed after a prefix without a `v` is taken back out. */
  lemma WatchIdAfter(pre: string, id: string)
    requires 'v' !in pre && '&' !in id && !Includes(id, "v=")
    ensures WatchId(pre + "v=" + id) == id
  {
    NoLeadNoOccurrence(pre, "v=");
    ExtractRoundTrip(pre, "v=", '&', id);
  }

  /** The short id placed after a prefix without a `y` is taken back out. */
  lemma ShortIdAfter(pre: string, id: string)
    requires 'y' !in pre && '?' !in id && !Includes(id, ShortMarker)
    ensures ShortId(pre + ShortMarker + id) == id
  {
    NoLeadNoOccurrence(pre, ShortMarker);
    ExtractRoundTrip(pre, ShortMarker, '?', id);
  }

  /** The canonical short address of an id yields that id. */
  lemma ShortUrlId(id: string)
    requires '?' !in id && !Includes(id, ShortMarker)
    ensures ShortId("https://" + ShortMarker + id) == id
  {
    ShortIdAfter("https://", id);
  }

  /** A short address whose prefix holds neither `y` nor `?` embeds its non-empty id. */
  lemma ShortAfterEmbeds(pre: string, id: string, poster: Option<string>)
    requires 'y' !in pre && '?' !in pre
    requires id != "" && '?' !in id && !Includes(id, ShortMarker)
    ensures RenderVideo(pre + ShortMarker + id, poster) == Embed(EmbedPrefix + id)
  {
    var url := pre + ShortMarker + id;
    ShortIdAfter(pre, id);
    IncludesMiddle(pre, ShortMarker, id);
    ShortAddressHasNoQuestion(pre, id);
    NoQuestionNoWatch(url);
    ShortFormEmbeds(url, poster);
  }

  /** A short address built from a prefix and an id without `?` holds none, the marker having none. */
  lemma ShortAddressHasNoQuestion(pre: string, id: string)
    requires '?' !in pre && '?' !in id
    ensures '?' !in pre + ShortMarker + id
  {
    assert '?' !in ShortMarker;
  }

  /** The canonical short address of a non-empty id embeds that id. */
  lemma ShortUrlEmbeds(id: string, poster: Option<string>)
    requires id != "" && '?' !in id && !Includes(id, ShortMarker)
    ensures RenderVideo("https://" + ShortMarker + id, poster) == Embed(EmbedPrefix + id)
  {
    ShortAfterEmbeds("https://", id, poster);
  }

  /** The watch marker holds a `?`, so an address without one does not carry it. */
  lemma NoQuestionNoWatch(url: string)
    requires '?' !in url
    ensures !Includes(url, WatchMarker)
  {
    assert WatchMarker[17..18] == "?";
    OccursAtSlice(WatchMarker, "?", 17);
    IncludesIff(WatchMarker, "?");
    IncludesChar(url, '?');
    if Includes(url, WatchMarker) {
      IncludesTransitive(url, WatchMarker, "?");
    }
  }
}
