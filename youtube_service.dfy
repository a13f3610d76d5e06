/**
 * The backend's `YouTubeService`: its own video-id extractor, the existence check, the
 * cached video-info projection and the `formatDuration` clock.
 */
module YouTubeService {
  import opened Wrappers
  import opened Text
  import opened Search
  import opened Media
  import opened Clock
  import YouTubeRoute

  // ---- extractVideoId ----

  const UrlForms: seq<string> := ["youtube.com/watch?v=", "youtu.be/", "youtube.com/embed/", "youtube.com/v/"]

  /** `(?:youtube\.com\/watch\?v=|youtu\.be\/|youtube\.com\/embed\/|youtube\.com\/v\/)([^&\n?#]+)` at `i`. */
  function UrlFormAt(s: string, i: nat): (r: Option<string>)
    ensures r.Some? ==> r.value != [] && AllIn(r.value, NotUrlStop)
  {
    FirstLiteralThenRun(s, i, UrlForms, 0, NotUrlStop)
  }

  /** `^([a-zA-Z0-9_-]{11})$`: only at the start, and only when it is the whole string. */
  function BareIdAt(s: string, i: nat): (r: Option<string>)
    ensures r.Some? ==> YouTubeRoute.IsValidVideoId(r.value)
  {
    if i == 0 && YouTubeRoute.IsValidVideoId(s) then Some(s) else None
  }

  const Patterns: seq<Matcher> := [UrlFormAt, BareIdAt]

  /** `YouTubeService.extractVideoId(url)`. */
  function ExtractVideoId(url: Option<string>): Option<string> {
    if !YouTubeRoute.Truthy(url) then None else FirstMatch(Patterns, url.value)
  }

  /**
   * An extracted id is a non-empty run without `&`, `?`, `#` or a newline, of any length: the
   * URL pattern checks neither the length nor the characters of what it captures.
   */
  lemma ExtractedIdShape(url: Option<string>)
    ensures ExtractVideoId(url).Some? ==> YouTubeRoute.Truthy(url)
    ensures ExtractVideoId(url).Some? ==> ExtractVideoId(url).value != [] && AllIn(ExtractVideoId(url).value, NotUrlStop)
  {
    if ExtractVideoId(url).Some? {
      var s := url.value;
      var r := FirstMatch(Patterns, s);
      var j :| 0 <= j < |Patterns| && Exec(Patterns[j], s).Some? && Exec(Patterns[j], s).value.group == r.value;
      assert Patterns[j](s, Exec(Patterns[j], s).value.at) == Some(r.value);
      assert j == 0 || j == 1;
    }
  }

  /** The URL forms all hold a dot at index 5 or 7, so a string without dots matches none. */
  lemma NoUrlFormWithoutDot(s: string, i: nat)
    requires '.' !in s
    ensures UrlFormAt(s, i).None?
  {
    forall p | 0 <= p < |UrlForms| ensures !HasAt(s, i, UrlForms[p]) {
      var lit := UrlForms[p];
      var d := if p == 1 then 5 else 7;
      assert lit[d] == '.';
      if i + |lit| <= |s| {
        assert s[i..i + |lit|][d] == s[i + d];
      }
    }
  }

  /** A bare eleven-character id is returned as it is. */
  lemma BareIdRoundTrip(id: string)
    requires YouTubeRoute.IsValidVideoId(id)
    ensures ExtractVideoId(Some(id)) == Some(id)
  {
    assert '.' !in id by {
      forall k | 0 <= k < |id| ensures id[k] != '.' { assert InClass(IdChars, id[k]); }
    }
    forall q | 0 <= q <= |id| ensures UrlFormAt(id, q).None? {
      NoUrlFormWithoutDot(id, q);
    }
    assert Exec(UrlFormAt, id).None?;
    LeftmostIs(BareIdAt, id, 0, 0, id);
    assert Patterns[0] == UrlFormAt && Patterns[1] == BareIdAt;
  }

  lemma UrlFormMatchesAt(s: string, i: nat, p: nat, id: string)
    requires p < |UrlForms| && HasAt(s, i, UrlForms[p])
    requires RunLength(s, i + |UrlForms[p]|, NotUrlStop) == |id| > 0
    requires HasAt(s, i + |UrlForms[p]|, id)
    ensures UrlFormAt(s, i) == Some(id)
  {
    var lit := UrlForms[p];
    assert LiteralThenRun(s, i, lit, NotUrlStop) == Some(id);
    if p == 1 {
      Exclusive(s, i, lit, UrlForms[0], 5);
    } else if p == 2 {
      Exclusive(s, i, lit, UrlForms[0], 12);
      Exclusive(s, i, lit, UrlForms[1], 5);
    } else if p == 3 {
      Exclusive(s, i, lit, UrlForms[0], 12);
      Exclusive(s, i, lit, UrlForms[1], 5);
      Exclusive(s, i, lit, UrlForms[2], 12);
    }
  }

  /** No URL form starts at a position that does not hold a `y`. */
  lemma NoUrlFormBeforeY(s: string, i: nat)
    requires i < |s| && s[i] != 'y'
    ensures UrlFormAt(s, i).None?
  {
    forall p | 0 <= p < |UrlForms| ensures !HasAt(s, i, UrlForms[p]) {
      if i + |UrlForms[p]| <= |s| {
        assert s[i..i + |UrlForms[p]|][0] == s[i];
      }
    }
  }

  /** A stop character of the capture, or nothing: where an id in a link ends. */
  predicate EndsCapture(post: string) {
    post == [] || !InClass(NotUrlStop, post[0])
  }

  /**
   * A link in any of the four forms, after a prefix without a `y`, yields exactly the run
   * of characters up to the next `&`, `?`, `#`, newline or the end.
   */
  lemma LinkRoundTrip(pre: string, p: nat, id: string, post: string)
    requires 'y' !in pre && p < |UrlForms| && id != [] && AllIn(id, NotUrlStop) && EndsCapture(post)
    ensures ExtractVideoId(Some(pre + UrlForms[p] + id + post)) == Some(id)
  {
    var form := UrlForms[p];
    var s := pre + form + id + post;
    var i := |pre|;
    var j := i + |form|;
    assert s[i..j] == form;
    assert s[j..j + |id|] == id;
    forall k | j <= k < j + |id| ensures InClass(NotUrlStop, s[k]) {
      assert s[k] == id[k - j];
    }
    if j + |id| < |s| {
      assert s[j + |id|] == post[0];
    }
    RunLengthOfRun(s, j, |id|, NotUrlStop);
    UrlFormMatchesAt(s, i, p, id);
    forall q | 0 <= q < i ensures UrlFormAt(s, q).None? {
      assert s[q] == pre[q];
      NoUrlFormBeforeY(s, q);
    }
    LeftmostIs(UrlFormAt, s, 0, i, id);
    assert Patterns[0] == UrlFormAt;
  }

  // ---- validateVideo ----

  /**
   * `validateVideo`: `idAccepted` is what `ytdl.validateID` said, `probe` what `ytdl.getInfo`
   * did. Any exception makes the answer false.
   */
  function ValidateVideo(idAccepted: bool, probe: Fetched): (r: bool)
    ensures r <==> idAccepted && probe.Got? && probe.info.details.Some?
  {
    if !idAccepted then false
    else match probe
      case Threw(_) => false
      case Got(info) => info.details.Some?
  }

  // ---- formatDuration ----

  /** `formatDuration(seconds)`: `H:MM:SS` from one hour on, `M:SS` below. */
  function FormatDuration(seconds: nat): string {
    var hours := seconds / 3600;
    var minutes := seconds % 3600 / 60;
    var secs := seconds % 60;
    if hours > 0 then NatToString(hours) + ":" + Pad2(NatToString(minutes)) + ":" + Pad2(NatToString(secs))
    else NatToString(minutes) + ":" + Pad2(NatToString(secs))
  }

  /** The clock `formatDuration` prints reads back as the same number of seconds. */
  lemma FormatDurationReadsBack(seconds: nat)
    ensures ParseClock(FormatDuration(seconds)) == seconds && WellFormedClock(FormatDuration(seconds))
    ensures |SplitColons(FormatDuration(seconds))| == (if seconds >= 3600 then 3 else 2)
  {
    if seconds >= 3600 {
      assert seconds / 3600 > 0;
      HoursClock(seconds);
    } else {
      assert seconds / 3600 == 0 && seconds % 3600 == seconds;
      MinutesSecondsClock(seconds);
    }
  }

  // ---- getVideoInfo ----

  /** One entry of `availableAudioFormats`. `size` is `None` for `null` and for NaN alike: both serialise as `null`. */
  datatype AudioSummary = AudioSummary(quality: Option<string>, codec: Option<string>, bitrate: Option<nat>,
                                       sampleRate: Option<string>, size: Option<int>)

  function Summary(f: Format): AudioSummary {
    AudioSummary(f.audioQuality, f.audioCodec, f.audioBitrate, f.audioSampleRate,
                 if YouTubeRoute.Truthy(f.contentLength) then ParseInt(f.contentLength.value) else None)
  }

  /** The audio projection: the audio-only formats, in their order, summarised. */
  function AudioSummaries(formats: seq<Format>): (r: seq<AudioSummary>)
    ensures |r| == |AudioOnly(formats)|
    ensures forall k :: 0 <= k < |r| ==> r[k] == Summary(AudioOnly(formats)[k])
  {
    var audio := AudioOnly(formats);
    seq(|audio|, k requires 0 <= k < |audio| => Summary(audio[k]))
  }

  datatype VideoData = VideoData(
    videoId: string,
    title: Option<string>,
    duration: Option<int>,
    durationFormatted: string,
    authorName: Option<string>,
    views: int,
    bestThumbnail: Option<string>,
    isPrivate: bool,
    availableAudioFormats: seq<AudioSummary>,
    url: string,
    embedUrl: string)

  lemma ZeroDuration()
    ensures FormatDuration(0) == "0:00"
  {
    assert NatToString(0) == "0";
  }

  /** What `formatDuration` prints for NaN: the comparison with 0 fails and each field prints as `NaN`. */
  const NaNClock := "NaN:NaN"

  /**
   * `formatDuration(videoDetails.lengthSeconds)`: the arithmetic first turns the string into a
   * number. A decimal numeral is its value, the empty string is 0, and an absent field or any
   * other text is NaN.
   */
  function DurationFormatted(lengthSeconds: Option<string>): (r: string)
    ensures lengthSeconds.Some? && AllIn(lengthSeconds.value, DecimalDigits) ==>
              ParseClock(r) == ValueOf(lengthSeconds.value, 10) && WellFormedClock(r)
    ensures lengthSeconds == Some("") ==> r == "0:00"
    ensures lengthSeconds.None? || !AllIn(lengthSeconds.value, DecimalDigits) ==> r == NaNClock
  {
    if lengthSeconds.Some? && AllIn(lengthSeconds.value, DecimalDigits) then
      var n := ValueOf(lengthSeconds.value, 10);
      FormatDurationReadsBack(n);
      if lengthSeconds.value == "" then ZeroDuration(); FormatDuration(n)
      else FormatDuration(n)
    else NaNClock
  }

  function ReadError(property: string): string {
    "Cannot read properties of undefined (reading '" + property + "')"
  }

  /** Building the response object; a missing part throws the `TypeError` whose message is returned. */
  function Project(videoId: string, info: VideoInfo): (r: Result<VideoData, string>)
    ensures r.Ok? ==> r.value.videoId == videoId && r.value.availableAudioFormats == AudioSummaries(info.formats)
    ensures r.Ok? ==> r.value.url == "https://www.youtube.com/watch?v=" + videoId
                      && r.value.embedUrl == "https://www.youtube.com/embed/" + videoId
    ensures r.Ok? <==> info.details.Some? && !info.details.value.author.NoAuthor?
                       && info.details.value.thumbnails.Some? && info.details.value.thumbnails.value != []
  {
    match info.details
    case None => Err(ReadError("title"))
    case Some(d) =>
      if d.author.NoAuthor? then Err(ReadError("name"))
      else if d.thumbnails.None? then Err(ReadError("length"))
      else if d.thumbnails.value == [] then Err(ReadError("url"))
      else Ok(VideoData(
        videoId, d.title,
        if d.lengthSeconds.Some? then ParseInt(d.lengthSeconds.value) else None,
        DurationFormatted(d.lengthSeconds),
        if d.author.AuthorObject? then d.author.name else None,
        if d.viewCount.Some? then ParseInt(d.viewCount.value).GetOr(0) else 0,
        d.thumbnails.value[|d.thumbnails.value| - 1],
        d.isPrivate,
        AudioSummaries(info.formats),
        "https://www.youtube.com/watch?v=" + videoId,
        "https://www.youtube.com/embed/" + videoId))
  }

  const FailurePrefix := "Failed to get video info: "

  /** What `${error.message}` prints for a thrown value. */
  function MessageOf(e: Exception): string {
    match e
    case Error(m) => m
    case NonError => "undefined"
  }

  /** The uncached path: fetch, project, and rethrow any failure with the prefix. */
  function Fetch(videoId: string, fetched: Fetched): (r: Result<VideoData, string>)
    ensures r.Err? ==> HasAt(r.error, 0, FailurePrefix)
    ensures r.Ok? ==> fetched.Got? && r == Project(videoId, fetched.info)
  {
    match fetched
    case Threw(e) => Err(FailurePrefix + MessageOf(e))
    case Got(info) =>
      match Project(videoId, info)
      case Ok(d) => Ok(d)
      case Err(m) => Err(FailurePrefix + m)
  }

  /** The watch link the service hands out leads back to the video through the web app's extractor. */
  lemma WatchUrlLeadsBack(videoId: string)
    requires YouTubeRoute.IsValidVideoId(videoId)
    ensures YouTubeRoute.ExtractVideoId("https://www.youtube.com/watch?v=" + videoId) == Some(videoId)
  {
    var pre := "https://www.";
    var url := "https://www.youtube.com/watch?v=" + videoId;
    assert pre + YouTubeRoute.WatchPrefix == "https://www.youtube.com/watch?v=";
    assert url == pre + YouTubeRoute.WatchPrefix + videoId + "";
    YouTubeRoute.ExtractVideoIdOfLink(pre, YouTubeRoute.WatchPrefix, videoId, "");
  }

  /** ... and through the service's own extractor. */
  lemma WatchUrlReadBack(videoId: string)
    requires YouTubeRoute.IsValidVideoId(videoId)
    ensures ExtractVideoId(Some("https://www.youtube.com/watch?v=" + videoId)) == Some(videoId)
  {
    var pre := "https://www.";
    var url := "https://www.youtube.com/watch?v=" + videoId;
    assert pre + UrlForms[0] == "https://www.youtube.com/watch?v=";
    assert url == pre + UrlForms[0] + videoId + "";
    assert AllIn(videoId, NotUrlStop) by {
      forall k | 0 <= k < |videoId| ensures InClass(NotUrlStop, videoId[k]) {
        assert InClass(IdChars, videoId[k]);
      }
    }
    LinkRoundTrip(pre, 0, videoId, "");
  }

  /** The embed link the service hands out leads back to the video through the web app's extractor. */
  lemma EmbedUrlLeadsBack(videoId: string)
    requires YouTubeRoute.IsValidVideoId(videoId)
    ensures YouTubeRoute.ExtractVideoId("https://www.youtube.com/embed/" + videoId) == Some(videoId)
  {
    var pre := "https://www.";
    var url := "https://www.youtube.com/embed/" + videoId;
    assert pre + YouTubeRoute.EmbedPrefix == "https://www.youtube.com/embed/";
    assert url == pre + YouTubeRoute.EmbedPrefix + videoId + "";
    YouTubeRoute.ExtractVideoIdOfLink(pre, YouTubeRoute.EmbedPrefix, videoId, "");
  }

  /** A cache entry: the data and the time (ms) after which it has expired. */
  datatype CacheEntry = CacheEntry(data: VideoData, expiresAt: nat)

  /** `stdTTL: 3600` seconds, in milliseconds. */
  const TtlMillis: nat := 3600000

  /** An entry is served while the clock has not passed its expiry time. */
  predicate Live(cache: map<string, CacheEntry>, key: string, now: nat) {
    key in cache && now <= cache[key].expiresAt
  }

  /** What `getVideoInfo` answers given the cache it finds: the live entry, or a fresh fetch. */
  function Served(cache: map<string, CacheEntry>, videoId: string, fetched: Fetched, now: nat): Result<VideoData, string> {
    if Live(cache, videoId, now) then Ok(cache[videoId].data) else Fetch(videoId, fetched)
  }

  /**
   * The cache after `getVideoInfo`: a live entry leaves it as it was; otherwise the stale
   * entry is dropped and a fetched result is stored until the TTL runs out.
   */
  function CacheAfter(cache: map<string, CacheEntry>, videoId: string, fetched: Fetched, now: nat): map<string, CacheEntry> {
    if Live(cache, videoId, now) then cache
    else match Fetch(videoId, fetched)
      case Ok(data) => cache[videoId := CacheEntry(data, now + TtlMillis)]
      case Err(_) => cache - {videoId}
  }

  /**
   * Once a fetch has been stored at `now`, every request for the same id up to the expiry
   * time is answered from the cache, whatever upstream would do.
   */
  lemma ServedFromCacheUntilExpiry(cache: map<string, CacheEntry>, videoId: string, fetched: Fetched, now: nat,
                                   later: Fetched, t: nat)
    requires !Live(cache, videoId, now) && Fetch(videoId, fetched).Ok?
    requires now <= t <= now + TtlMillis
    ensures Served(cache[videoId := CacheEntry(Fetch(videoId, fetched).value, now + TtlMillis)], videoId, later, t)
            == Fetch(videoId, fetched)
  {
  }

  /** The module-level cache behind `YouTubeService`'s static methods. */
  class Service {
    var cache: map<string, CacheEntry>

    /** Every entry is filed under its own video id. */
    predicate Valid()
      reads this
    {
      forall k :: k in cache ==> cache[k].data.videoId == k
    }

    constructor()
      ensures cache == map[] && Valid()
    {
      cache := map[];
    }

    /**
     * `getVideoInfo(videoId)` at time `now`: a live entry is returned without asking
     * upstream; otherwise the expired entry (if any) is dropped, and a fresh result is stored.
     */
    method GetVideoInfo(videoId: string, fetched: Fetched, now: nat) returns (r: Result<VideoData, string>)
      requires Valid()
      modifies this
      ensures Valid()
      ensures r == Served(old(cache), videoId, fetched, now) && cache == CacheAfter(old(cache), videoId, fetched, now)
      ensures Live(old(cache), videoId, now) ==> r == Ok(old(cache)[videoId].data) && cache == old(cache)
      ensures !Live(old(cache), videoId, now) && r.Ok? ==> cache == old(cache)[videoId := CacheEntry(r.value, now + TtlMillis)]
      ensures !Live(old(cache), videoId, now) && r.Err? ==> cache == old(cache) - {videoId}
      ensures r.Ok? ==> r.value.videoId == videoId && Live(cache, videoId, now)
    {
      if Live(cache, videoId, now) {
        return Ok(cache[videoId].data);
      }
      cache := cache - {videoId};
      r := Fetch(videoId, fetched);
      if r.Ok? {
        cache := cache[videoId := CacheEntry(r.value, now + TtlMillis)];
      }
    }
  }
}
