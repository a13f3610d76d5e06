/**
 * What the upstream YouTube client (`ytdl.getInfo`) hands the handlers: video details and a
 * list of stream formats; and the two operations every handler applies to the formats,
 * the `audioonly` filter and the "highest audio bitrate first" sort.
 */
module Media {
  import opened Wrappers

  /** One stream format, with the fields the handlers read. */
  datatype Format = Format(
    hasAudio: bool,
    hasVideo: bool,
    container: string,
    url: Option<string>,
    audioBitrate: Option<nat>,
    audioCodec: Option<string>,
    audioQuality: Option<string>,
    audioSampleRate: Option<string>,
    contentLength: Option<string>)

  /** `videoDetails.author`: absent, a plain string, or an object whose `name` may be absent. */
  datatype Author = NoAuthor | AuthorText(text: string) | AuthorObject(name: Option<string>)

  datatype VideoDetails = VideoDetails(
    title: Option<string>,
    author: Author,
    lengthSeconds: Option<string>,
    duration: Option<string>,
    viewCount: Option<string>,
    thumbnails: Option<seq<Option<string>>>,  // each entry's `url`
    isPrivate: bool,
    isUnlisted: bool)

  /** The result of `ytdl.getInfo`: `videoDetails` may be missing. */
  datatype VideoInfo = VideoInfo(details: Option<VideoDetails>, formats: seq<Format>)

  /** A thrown value: an `Error` with its message, or anything else. */
  datatype Exception = Error(message: string) | NonError

  /** One call to the upstream client: it returns, or it throws. */
  datatype Fetched = Got(info: VideoInfo) | Threw(e: Exception)

  /** A format with audio and without video. */
  predicate IsAudioOnly(f: Format) { f.hasAudio && !f.hasVideo }

  /** A format `ytdl.filterFormats(formats, 'audioonly')` keeps: the library also drops any format without a `url`. */
  predicate IsYtdlAudioOnly(f: Format) { IsAudioOnly(f) && f.url.Some? && f.url.value != "" }

  /** `formats.filter(f => f.hasAudio && !f.hasVideo)`, the service's own filter, order kept. */
  function AudioOnly(formats: seq<Format>): (r: seq<Format>)
    ensures |r| <= |formats|
    ensures forall k :: 0 <= k < |r| ==> IsAudioOnly(r[k])
    ensures forall f :: f in r <==> f in formats && IsAudioOnly(f)
  {
    if formats == [] then []
    else
      var rest := AudioOnly(formats[1..]);
      assert formats == [formats[0]] + formats[1..];
      if IsAudioOnly(formats[0]) then [formats[0]] + rest else rest
  }

  /** `ytdl.filterFormats(formats, 'audioonly')`, order kept. */
  function YtdlAudioOnly(formats: seq<Format>): (r: seq<Format>)
    ensures |r| <= |formats|
    ensures forall k :: 0 <= k < |r| ==> IsYtdlAudioOnly(r[k])
    ensures forall f :: f in r <==> f in formats && IsYtdlAudioOnly(f)
  {
    if formats == [] then []
    else
      var rest := YtdlAudioOnly(formats[1..]);
      assert formats == [formats[0]] + formats[1..];
      if IsYtdlAudioOnly(formats[0]) then [formats[0]] + rest else rest
  }

  /** The library's filter is the service's filter with the url-less formats removed. */
  lemma {:induction false} YtdlFilterNarrows(formats: seq<Format>)
    ensures YtdlAudioOnly(formats) == AudioOnly(WithUrl(formats))
  {
    if formats != [] {
      YtdlFilterNarrows(formats[1..]);
      assert formats == [formats[0]] + formats[1..];
    }
  }

  /** The formats that carry a non-empty `url`, order kept. */
  function WithUrl(formats: seq<Format>): (r: seq<Format>)
    ensures forall f :: f in r <==> f in formats && f.url.Some? && f.url.value != ""
  {
    if formats == [] then []
    else
      var rest := WithUrl(formats[1..]);
      assert formats == [formats[0]] + formats[1..];
      if formats[0].url.Some? && formats[0].url.value != "" then [formats[0]] + rest else rest
  }

  /** Filtering a concatenation filters each part. */
  lemma {:induction false} AudioOnlyAppend(a: seq<Format>, b: seq<Format>)
    ensures AudioOnly(a + b) == AudioOnly(a) + AudioOnly(b)
  {
    if a == [] {
      assert a + b == b;
    } else {
      assert (a + b)[1..] == a[1..] + b;
      AudioOnlyAppend(a[1..], b);
    }
  }

  /** `format.audioBitrate || 0`. */
  function Bitrate(f: Format): nat { f.audioBitrate.GetOr(0) }

  /** Highest bitrate first. */
  predicate SortedDesc(s: seq<Format>) {
    forall i, j :: 0 <= i < j < |s| ==> Bitrate(s[i]) >= Bitrate(s[j])
  }

  /**
   * `formats.sort((a, b) => (b.audioBitrate || 0) - (a.audioBitrate || 0))`: a stable sort,
   * so formats of equal bitrate keep their relative order.
   */
  function SortByBitrateDesc(s: seq<Format>): (r: seq<Format>)
    ensures SortedDesc(r)
    ensures multiset(r) == multiset(s)
    ensures |r| == |s|
  {
    if s == [] then []
    else
      assert s == [s[0]] + s[1..];
      InsertAfterSorted(s[0], SortByBitrateDesc(s[1..]))
  }

  /**
   * Inserting the front element into the sorted rest: the element goes in front of every
   * element of equal bitrate, since it came earlier.
   */
  function InsertAfterSorted(x: Format, s: seq<Format>): (r: seq<Format>)
    requires SortedDesc(s)
    ensures SortedDesc(r)
    ensures multiset(r) == multiset(s) + multiset{x}
    ensures |r| == |s| + 1
  {
    if s == [] || Bitrate(s[0]) <= Bitrate(x) then [x] + s
    else
      var rest := InsertAfterSorted(x, s[1..]);
      InsertStep(x, s, rest);
      [s[0]] + rest
  }

  /** Putting back the front of `s` ahead of `x` inserted into the rest keeps the order. */
  lemma InsertStep(x: Format, s: seq<Format>, rest: seq<Format>)
    requires s != [] && SortedDesc(s) && Bitrate(s[0]) > Bitrate(x)
    requires SortedDesc(rest) && multiset(rest) == multiset(s[1..]) + multiset{x}
    ensures SortedDesc([s[0]] + rest)
    ensures multiset([s[0]] + rest) == multiset(s) + multiset{x}
  {
    assert s == [s[0]] + s[1..];
    forall k | 0 <= k < |rest| ensures Bitrate(rest[k]) <= Bitrate(s[0]) {
      assert rest[k] in multiset(rest);
      if rest[k] != x {
        assert rest[k] in multiset(s[1..]);
        var i :| 0 <= i < |s[1..]| && s[1..][i] == rest[k];
        assert s[i + 1] == rest[k];
      }
    }
    var r := [s[0]] + rest;
    forall i, j | 0 <= i < j < |r| ensures Bitrate(r[i]) >= Bitrate(r[j]) {
      assert r[j] == rest[j - 1];
      if i > 0 {
        assert r[i] == rest[i - 1];
      }
    }
  }

  /** `s[i]` has the highest bitrate in `s`, and every earlier format's is strictly lower. */
  predicate FirstMaximumAt(s: seq<Format>, i: nat) {
    i < |s|
    && (forall k :: 0 <= k < |s| ==> Bitrate(s[k]) <= Bitrate(s[i]))
    && (forall k :: 0 <= k < i ==> Bitrate(s[k]) < Bitrate(s[i]))
  }

  /** The stable sort's head: the front element, unless the sorted rest starts higher. */
  lemma SortHead(s: seq<Format>)
    requires |s| >= 2
    ensures var t := SortByBitrateDesc(s[1..]);
      SortByBitrateDesc(s)[0] == if Bitrate(t[0]) <= Bitrate(s[0]) then s[0] else t[0]
  {
  }

  /**
   * The head of the stable sort is the FIRST format, in the original order, that has the
   * highest bitrate.
   */
  lemma {:induction false} SortedHeadIsFirstMaximum(s: seq<Format>)
    requires s != []
    ensures exists i: nat :: FirstMaximumAt(s, i) && SortByBitrateDesc(s)[0] == s[i]
  {
    if |s| == 1 {
      assert SortByBitrateDesc(s) == [s[0]];
      assert FirstMaximumAt(s, 0);
    } else {
      var tail := SortByBitrateDesc(s[1..]);
      SortHead(s);
      SortedHeadIsFirstMaximum(s[1..]);
      var j: nat :| FirstMaximumAt(s[1..], j) && tail[0] == s[1..][j];
      FirstMaximumStep(s, j);
    }
  }

  /** Extending the first maximum of `s[1..]` (at `j`) to one of `s`. */
  lemma FirstMaximumStep(s: seq<Format>, j: nat)
    requires |s| >= 2 && FirstMaximumAt(s[1..], j)
    ensures Bitrate(s[j + 1]) <= Bitrate(s[0]) ==> FirstMaximumAt(s, 0)
    ensures Bitrate(s[j + 1]) > Bitrate(s[0]) ==> FirstMaximumAt(s, j + 1)
  {
    assert forall k :: 1 <= k < |s| ==> s[k] == s[1..][k - 1];
  }

  /** `formats.find(f => f.container === 'mp4')`. */
  function FindMp4(formats: seq<Format>): (r: Option<Format>)
    ensures r.Some? ==> r.value in formats && r.value.container == "mp4"
    ensures r.None? <==> forall k :: 0 <= k < |formats| ==> formats[k].container != "mp4"
    ensures r.Some? ==> exists i :: 0 <= i < |formats| && formats[i] == r.value
                          && forall k :: 0 <= k < i ==> formats[k].container != "mp4"
  {
    if formats == [] then None
    else if formats[0].container == "mp4" then Some(formats[0])
    else
      var r := FindMp4(formats[1..]);
      assert forall k :: 1 <= k < |formats| ==> formats[k] == formats[1..][k - 1];
      if r.Some? then
        var i :| 0 <= i < |formats[1..]| && formats[1..][i] == r.value
                 && forall k :: 0 <= k < i ==> formats[1..][k].container != "mp4";
        assert formats[i + 1] == r.value;
        r
      else r
  }
}
