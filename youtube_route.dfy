/**
 * The `/api/youtube` route of the web app: video-id validation and extraction from URLs,
 * the retrying fetch of video info, the choice of the best audio format, and the
 * JSON response of `GET` and `POST`.
 */
module YouTubeRoute {
  import opened Wrappers
  import opened Text
  import opened Search
  import opened Media

  /** `/^[a-zA-Z0-9_-]{11}$/`: exactly eleven id characters. */
  predicate IsValidVideoId(id: string) {
    |id| == 11 && AllIn(id, IdChars)
  }

  /** `([a-zA-Z0-9_-]{11})` at position `j`. */
  function IdAt(s: string, j: nat): (r: Option<string>)
    ensures r.Some? ==> IsValidVideoId(r.value) && HasAt(s, j, r.value)
  {
    if j + 11 <= |s| && AllIn(s[j..j + 11], IdChars) then Some(s[j..j + 11]) else None
  }

  /** A literal followed by an eleven-character id. */
  function IdAfter(s: string, i: nat, lit: string): (r: Option<string>)
    ensures r.Some? ==> IsValidVideoId(r.value) && HasAt(s, i, lit) && HasAt(s, i + |lit|, r.value)
  {
    if HasAt(s, i, lit) then IdAt(s, i + |lit|) else None
  }

  /** The first alternative that matches wins, as in a regular-expression alternation. */
  function Or(a: Option<string>, b: Option<string>): Option<string> {
    if a.Some? then a else b
  }

  const WatchPrefix := "youtube.com/watch?v="
  const ShortPrefix := "youtu.be/"
  const EmbedPrefix := "youtube.com/embed/"
  const LegacyPrefix := "youtube.com/v/"
  const WatchQueryPrefix := "youtube.com/watch?"

  /** `(?:youtube\.com\/watch\?v=|youtu\.be\/|youtube\.com\/embed\/)([a-zA-Z0-9_-]{11})` at `i`. */
  function WatchShortEmbedAt(s: string, i: nat): (r: Option<string>)
    ensures r.Some? ==> IsValidVideoId(r.value)
  {
    Or(IdAfter(s, i, WatchPrefix), Or(IdAfter(s, i, ShortPrefix), IdAfter(s, i, EmbedPrefix)))
  }

  /** `youtube\.com\/v\/([a-zA-Z0-9_-]{11})` at `i`. */
  function LegacyAt(s: string, i: nat): (r: Option<string>)
    ensures r.Some? ==> IsValidVideoId(r.value)
  {
    IdAfter(s, i, LegacyPrefix)
  }

  /** `v=([a-zA-Z0-9_-]{11})` at `p`. */
  function VAt(s: string, p: nat): (r: Option<string>)
    ensures r.Some? ==> IsValidVideoId(r.value)
  {
    IdAfter(s, p, "v=")
  }

  /**
   * Backtracking out of a greedy `.*` that has consumed `k` characters from `start`: the
   * longest consumption after which `v=` and an id follow wins.
   */
  function LastVFrom(s: string, start: nat, k: nat): (r: Option<string>)
    decreases k
    ensures r.Some? ==> IsValidVideoId(r.value)
    ensures r.Some? ==> exists p :: start <= p <= start + k && VAt(s, p) == r
                          && forall q :: p < q <= start + k ==> VAt(s, q).None?
    ensures r.None? ==> forall q :: start <= q <= start + k ==> VAt(s, q).None?
  {
    var here := VAt(s, start + k);
    if here.Some? || k == 0 then here else LastVFrom(s, start, k - 1)
  }

  /** `youtube\.com\/watch\?.*v=([a-zA-Z0-9_-]{11})` at `i`: `.` stops at line terminators. */
  function WatchQueryAt(s: string, i: nat): (r: Option<string>)
    ensures r.Some? ==> IsValidVideoId(r.value)
  {
    if HasAt(s, i, WatchQueryPrefix) then
      LastVFrom(s, i + 18, RunLength(s, i + 18, NotLineTerminator))
    else None
  }

  /** The three patterns, tried in this order. */
  const Patterns: seq<Matcher> := [WatchShortEmbedAt, LegacyAt, WatchQueryAt]

  /** `extractVideoId(url)`: the capture of the first pattern that matches anywhere. */
  function ExtractVideoId(url: string): Option<string> {
    FirstMatch(Patterns, url)
  }

  /** Whatever the extractor returns passes `isValidVideoId`. */
  lemma ExtractedIdIsValid(url: string)
    ensures ExtractVideoId(url).Some? ==> IsValidVideoId(ExtractVideoId(url).value)
  {
    var r := FirstMatch(Patterns, url);
    if r.Some? {
      var j :| 0 <= j < |Patterns| && Exec(Patterns[j], url).Some? && Exec(Patterns[j], url).value.group == r.value;
      var f := Exec(Patterns[j], url).value;
      assert Patterns[j](url, f.at) == Some(r.value);
      assert j == 0 || j == 1 || j == 2;
    }
  }

  /** The first pattern does not match at a position that does not hold a `y`. */
  lemma NoLinkMatchBeforeY(s: string, i: nat)
    requires i < |s| && s[i] != 'y'
    ensures WatchShortEmbedAt(s, i).None?
  {
    assert !HasAt(s, i, WatchPrefix) && !HasAt(s, i, ShortPrefix) && !HasAt(s, i, EmbedPrefix);
  }

  /** The three link forms the first pattern accepts. */
  predicate IsLinkForm(form: string) {
    form == WatchPrefix || form == ShortPrefix || form == EmbedPrefix
  }

  lemma LinkMatchesAtForm(s: string, p: nat, form: string, id: string)
    requires IsLinkForm(form) && IsValidVideoId(id)
    requires HasAt(s, p, form) && HasAt(s, p + |form|, id)
    ensures WatchShortEmbedAt(s, p) == Some(id)
  {
    assert s[p..p + |form|] == form;
    if form == ShortPrefix {
      assert s[p + 5] == form[5];
      assert !HasAt(s, p, WatchPrefix) by { assert WatchPrefix[5] != form[5]; }
    } else if form == EmbedPrefix {
      assert s[p + 5] == form[5] && s[p + 12] == form[12];
      assert !HasAt(s, p, WatchPrefix) by { assert WatchPrefix[12] != form[12]; }
      assert !HasAt(s, p, ShortPrefix) by { assert ShortPrefix[5] != form[5]; }
    }
  }

  /**
   * A link in one of the three forms, after any scheme and host prefix without a `y`
   * (`https://www.`, `http://m.`) and before any suffix (`&t=42`), yields its id.
   */
  lemma ExtractVideoIdOfLink(pre: string, form: string, id: string, post: string)
    requires 'y' !in pre && IsLinkForm(form) && IsValidVideoId(id)
    ensures ExtractVideoId(pre + form + id + post) == Some(id)
  {
    var s := pre + form + id + post;
    var p := |pre|;
    assert s[p..p + |form|] == form;
    assert s[p + |form|..p + |form| + 11] == id;
    LinkMatchesAtForm(s, p, form, id);
    forall q | 0 <= q < p ensures WatchShortEmbedAt(s, q).None? {
      assert s[q] == pre[q];
      NoLinkMatchBeforeY(s, q);
    }
    LeftmostIs(WatchShortEmbedAt, s, 0, p, id);
    assert Patterns[0] == WatchShortEmbedAt;
  }

  // ---- fetching with retries ----

  /** `getVideoInfoWithYtdl`'s default number of attempts. */
  const MaxRetries: nat := 5

  function Pow2(k: nat): (r: nat)
    ensures r >= 1
  {
    if k == 0 then 1 else 2 * Pow2(k - 1)
  }

  /** The waits before attempts 2, 3, …: `1000 * 2^(attempt - 1)` milliseconds each. */
  function Backoff(n: nat): (r: seq<nat>)
    ensures |r| == n && forall k :: 0 <= k < n ==> r[k] == 1000 * Pow2(k)
  {
    seq(n, k requires 0 <= k => 1000 * Pow2(k))
  }

  /** One more backoff appends the next doubling. */
  lemma BackoffStep(n: nat)
    ensures Backoff(n) + [1000 * Pow2(n)] == Backoff(n + 1)
  {
    assert forall k :: 0 <= k < n + 1 ==> (Backoff(n) + [1000 * Pow2(n)])[k] == Backoff(n + 1)[k];
  }

  function Sum(s: seq<nat>): nat {
    if s == [] then 0 else Sum(s[..|s| - 1]) + s[|s| - 1]
  }

  /** Waiting out `n` backoffs takes `1000 * (2^n - 1)` milliseconds: 15 seconds for five attempts. */
  lemma {:induction false} TotalBackoff(n: nat)
    ensures Sum(Backoff(n)) == 1000 * (Pow2(n) - 1)
  {
    if n > 0 {
      assert Backoff(n)[..n - 1] == Backoff(n - 1);
      TotalBackoff(n - 1);
    }
  }

  /** How the retrying fetch ends: with info, by rethrowing the last error, or (no attempts) with `undefined`. */
  datatype Outcome = Returned(info: VideoInfo) | Rethrown(e: Exception) | NoAttempt

  /** The retry loop from `attempt` on; `getInfo(k)` is what the `k`-th upstream call does. */
  function RetryFrom(getInfo: nat -> Fetched, maxRetries: nat, attempt: nat): (r: Outcome)
    requires 1 <= attempt
    decreases maxRetries + 1 - attempt
    ensures r.NoAttempt? <==> attempt > maxRetries
  {
    if attempt > maxRetries then NoAttempt
    else match getInfo(attempt)
      case Got(info) => Returned(info)
      case Threw(e) => if attempt == maxRetries then Rethrown(e) else RetryFrom(getInfo, maxRetries, attempt + 1)
  }

  /**
   * The retry loop returns the first info an attempt yields, with every earlier attempt
   * having thrown; it rethrows the last attempt's error exactly when every attempt threw.
   */
  lemma {:induction false} RetryFromMeaning(getInfo: nat -> Fetched, maxRetries: nat, attempt: nat)
    requires 1 <= attempt
    decreases maxRetries + 1 - attempt
    ensures var r := RetryFrom(getInfo, maxRetries, attempt);
      (r.Returned? ==> exists n :: attempt <= n <= maxRetries && getInfo(n) == Got(r.info)
                                   && forall k :: attempt <= k < n ==> getInfo(k).Threw?)
      && (r.Rethrown? <==> attempt <= maxRetries && forall k :: attempt <= k <= maxRetries ==> getInfo(k).Threw?)
      && (r.Rethrown? ==> getInfo(maxRetries) == Threw(r.e))
  {
    if attempt <= maxRetries && getInfo(attempt).Threw? && attempt < maxRetries {
      RetryFromMeaning(getInfo, maxRetries, attempt + 1);
    }
  }

  /** What the loop does at one attempt, read off `RetryFrom`. */
  lemma RetryAt(getInfo: nat -> Fetched, maxRetries: nat, attempt: nat)
    requires 1 <= attempt <= maxRetries
    ensures getInfo(attempt).Got? ==> RetryFrom(getInfo, maxRetries, attempt) == Returned(getInfo(attempt).info)
    ensures getInfo(attempt).Threw? && attempt == maxRetries ==> RetryFrom(getInfo, maxRetries, attempt) == Rethrown(getInfo(attempt).e)
    ensures getInfo(attempt).Threw? && attempt < maxRetries ==>
              RetryFrom(getInfo, maxRetries, attempt) == RetryFrom(getInfo, maxRetries, attempt + 1)
  {
  }

  /**
   * `getVideoInfoWithYtdl`: up to `maxRetries` attempts; the waits between them are
   * returned instead of slept.
   */
  method GetVideoInfoWithYtdl(getInfo: nat -> Fetched, maxRetries: nat) returns (r: Outcome, waits: seq<nat>)
    ensures r == RetryFrom(getInfo, maxRetries, 1)
    ensures waits == Backoff(|waits|)
    ensures forall k :: 1 <= k <= |waits| ==> getInfo(k).Threw?
    ensures r.Returned? ==> getInfo(|waits| + 1) == Got(r.info)
    ensures r.Rethrown? ==> |waits| + 1 == maxRetries
    ensures r.NoAttempt? ==> waits == []
    ensures |waits| < maxRetries || waits == []
  {
    waits := [];
    var attempt := 1;
    while attempt <= maxRetries
      invariant 1 <= attempt <= maxRetries + 1 || (maxRetries == 0 && attempt == 1)
      invariant |waits| == attempt - 1 && waits == Backoff(attempt - 1)
      invariant forall k :: 1 <= k < attempt ==> getInfo(k).Threw?
      invariant attempt <= maxRetries ==> RetryFrom(getInfo, maxRetries, 1) == RetryFrom(getInfo, maxRetries, attempt)
      invariant attempt > maxRetries ==> maxRetries == 0
    {
      RetryAt(getInfo, maxRetries, attempt);
      match getInfo(attempt) {
        case Got(info) =>
          return Returned(info), waits;
        case Threw(e) =>
          if attempt == maxRetries {
            return Rethrown(e), waits;
          }
          BackoffStep(attempt - 1);
          waits := waits + [1000 * Pow2(attempt - 1)];
          attempt := attempt + 1;
      }
    }
    return NoAttempt, waits;
  }

  // ---- choosing the audio format ----

  const NoAudioMessage := "No audio format available for this video"

  /** `getBestAudioFormat`: the first audio-only format of the highest bitrate, or an error. */
  function GetBestAudioFormat(formats: seq<Format>): (r: Result<Format, Exception>)
    ensures r.Err? <==> forall f :: f in formats ==> !IsYtdlAudioOnly(f)
    ensures r.Err? ==> r.error == Error(NoAudioMessage)
    ensures r.Ok? ==> r.value in formats && IsYtdlAudioOnly(r.value)
    ensures r.Ok? ==> exists i: nat :: FirstMaximumAt(YtdlAudioOnly(formats), i) && YtdlAudioOnly(formats)[i] == r.value
  {
    var audio := YtdlAudioOnly(formats);
    if |audio| == 0 then Err(Error(NoAudioMessage))
    else
      SortedHeadIsFirstMaximum(audio);
      var best := SortByBitrateDesc(audio)[0];
      assert best in multiset(audio);
      Ok(best)
  }

  // ---- the response ----

  /** `videoDetails.author?.name || videoDetails.author || 'Unknown Artist'`. */
  datatype AuthorValue = Named(name: string) | PassedThrough(author: Author)

  function AuthorOf(a: Author): (r: AuthorValue)
    ensures r.PassedThrough? <==> a.AuthorObject? && (a.name.None? || a.name.value == "")
    ensures r.PassedThrough? ==> r.author == a
    ensures r.Named? ==> r.name != ""
    ensures a.AuthorObject? && a.name.Some? && a.name.value != "" ==> r == Named(a.name.value)
    ensures a.AuthorText? && a.text != "" ==> r == Named(a.text)
    ensures a.NoAuthor? || a == AuthorText("") ==> r == Named("Unknown Artist")
  {
    match a
    case NoAuthor => Named("Unknown Artist")
    case AuthorText(t) => Named(if t != "" then t else "Unknown Artist")
    case AuthorObject(name) =>
      if name.Some? && name.value != "" then Named(name.value) else PassedThrough(a)
  }

  /** A present, non-empty string: JavaScript's truthiness for strings. */
  predicate Truthy(s: Option<string>) { s.Some? && s.value != "" }

  /** `lengthSeconds`, else `duration`, parsed; else 0. `None` is NaN, which JSON shows as `null`. */
  function DurationOf(d: VideoDetails): (r: Option<int>)
    ensures Truthy(d.lengthSeconds) ==> r == ParseInt(d.lengthSeconds.value)
    ensures !Truthy(d.lengthSeconds) && Truthy(d.duration) ==> r == ParseInt(d.duration.value)
    ensures !Truthy(d.lengthSeconds) && !Truthy(d.duration) ==> r == Some(0)
  {
    if Truthy(d.lengthSeconds) then ParseInt(d.lengthSeconds.value)
    else if Truthy(d.duration) then ParseInt(d.duration.value)
    else Some(0)
  }

  /** The last thumbnail's URL, else the `maxresdefault.jpg` image of the video. */
  function ThumbnailOf(d: VideoDetails, videoId: string): (r: string)
    ensures var thumbs := d.thumbnails.GetOr([]);
      (thumbs != [] && Truthy(thumbs[|thumbs| - 1]) ==> r == thumbs[|thumbs| - 1].value)
      && (thumbs == [] || !Truthy(thumbs[|thumbs| - 1]) ==> r == "https://img.youtube.com/vi/" + videoId + "/maxresdefault.jpg")
  {
    var last := if d.thumbnails.Some? && |d.thumbnails.value| > 0
                then d.thumbnails.value[|d.thumbnails.value| - 1] else None;
    if Truthy(last) then last.value else "https://img.youtube.com/vi/" + videoId + "/maxresdefault.jpg"
  }

  /** `${audioFormat.audioBitrate || 'Unknown'}kbps`. */
  function QualityOf(f: Format): (r: string)
    ensures f.audioBitrate.Some? && f.audioBitrate.value != 0 ==> r == NatToString(f.audioBitrate.value) + "kbps"
    ensures f.audioBitrate.None? || f.audioBitrate.value == 0 ==> r == "Unknownkbps"
  {
    (if f.audioBitrate.Some? && f.audioBitrate.value != 0 then NatToString(f.audioBitrate.value) else "Unknown") + "kbps"
  }

  /** The keywords the error handler looks for, in order, and the message for each. */
  const ErrorKeys: seq<string> := [
    "Could not extract functions", "Video unavailable", "Private video", "Age-restricted",
    "Sign in to confirm your age", "This video is not available", "No audio format available"]
  const ErrorMessages: seq<string> := [
    "YouTube has updated their system. Please try again later or use a different video.",
    "This video is not available or has been removed.",
    "This video is private and cannot be accessed.",
    "This video is age-restricted and cannot be processed.",
    "This video requires age verification and cannot be processed.",
    "This video is not available in your region or has been removed.",
    "No audio format is available for this video."]

  /** The user-facing message for a caught error. */
  function ClassifyError(e: Exception): (r: string)
    ensures e.NonError? ==> r == "Failed to process video"
    ensures e.Error? ==> match FirstIncluded(ErrorKeys, e.message)
                         case Some(k) => r == ErrorMessages[k]
                         case None => r == e.message
  {
    match e
    case NonError => "Failed to process video"
    case Error(m) =>
      match FirstIncluded(ErrorKeys, m)
      case Some(k) => ErrorMessages[k]
      case None => m
  }

  /** A caught error's `details`: its message, or `Unknown error`. */
  function DetailsOf(e: Exception): string {
    match e
    case Error(m) => m
    case NonError => "Unknown error"
  }

  datatype ApiResponse =
    | Failure(status: nat, error: string, details: Option<string>)
    | Success(title: string, author: AuthorValue, duration: Option<int>, thumbnail: string,
              audioUrl: string, videoId: string, quality: string, methodName: string, note: string)

  function ServerError(e: Exception): ApiResponse {
    Failure(500, ClassifyError(e), Some(DetailsOf(e)))
  }

  /** What reading `.formats` of `undefined` throws. */
  const UndefinedFormats := Error("Cannot read properties of undefined (reading 'formats')")

  const BadRequest: nat := 400

  /** The `GET` handler, given what the retrying fetch produced. */
  function Handle(videoId: Option<string>, outcome: Outcome): (r: ApiResponse)
    ensures !Truthy(videoId) ==> r == Failure(400, "Video ID is required", None)
    ensures Truthy(videoId) && !IsValidVideoId(videoId.value) ==> r == Failure(400, "Invalid video ID format", None)
    ensures r.Failure? ==> r.status == 400 || r.status == 500
    ensures r.Success? ==> IsValidVideoId(r.videoId) && Some(r.videoId) == videoId && r.audioUrl != ""
    ensures r.Success? <==> Truthy(videoId) && IsValidVideoId(videoId.value) && outcome.Returned?
                            && outcome.info.details.Some?
                            && GetBestAudioFormat(outcome.info.formats).Ok?
                            && Truthy(GetBestAudioFormat(outcome.info.formats).value.url)
    ensures r.Success? ==> r.audioUrl == GetBestAudioFormat(outcome.info.formats).value.url.value
    ensures Truthy(videoId) && IsValidVideoId(videoId.value) && outcome.Rethrown? ==> r == ServerError(outcome.e)
    ensures (Truthy(videoId) && IsValidVideoId(videoId.value) && outcome.Returned?
             && GetBestAudioFormat(outcome.info.formats).Err?)
            ==> r == ServerError(GetBestAudioFormat(outcome.info.formats).error)
    ensures (Truthy(videoId) && IsValidVideoId(videoId.value) && outcome.Returned?
             && GetBestAudioFormat(outcome.info.formats).Ok? && outcome.info.details.None?)
            ==> r == Failure(400, "Could not extract video details", None)
    ensures (Truthy(videoId) && IsValidVideoId(videoId.value) && outcome.Returned?
             && GetBestAudioFormat(outcome.info.formats).Ok? && outcome.info.details.Some?
             && !Truthy(GetBestAudioFormat(outcome.info.formats).value.url))
            ==> r == Failure(400, "Could not extract audio URL", None)
  {
    if !Truthy(videoId) then Failure(400, "Video ID is required", None)
    else if !IsValidVideoId(videoId.value) then Failure(400, "Invalid video ID format", None)
    else
      var id := videoId.value;
      match outcome
      case NoAttempt => ServerError(UndefinedFormats)
      case Rethrown(e) => ServerError(e)
      case Returned(info) =>
        match GetBestAudioFormat(info.formats)
        case Err(e) => ServerError(e)
        case Ok(f) =>
          if info.details.None? then Failure(400, "Could not extract video details", None)
          else
            var d := info.details.value;
            var audioUrl := f.url.GetOr("");
            if audioUrl == "" then Failure(BadRequest, "Could not extract audio URL", None)
            else Success(
              if Truthy(d.title) then d.title.value else "Unknown Title",
              AuthorOf(d.author), DurationOf(d), ThumbnailOf(d, id), audioUrl, id,
              QualityOf(f), "ytdl-core", "Real YouTube audio extraction")
  }

  /**
   * The fallbacks of a successful answer: the title is the video's or "Unknown Title"; the
   * author is AuthorOf; the duration is `lengthSeconds` parsed, else `duration` parsed, else 0;
   * the thumbnail is the last thumbnail's URL when that is non-empty, else the id's
   * `maxresdefault.jpg`; the quality is the best format's bitrate, or "Unknown", then `kbps`.
   */
  lemma SuccessFields(videoId: string, info: VideoInfo)
    ensures var r := Handle(Some(videoId), Returned(info));
      r.Success? ==>
        var d := info.details.value;
        var f := GetBestAudioFormat(info.formats).value;
        var thumbs := d.thumbnails.GetOr([]);
        (Truthy(d.title) ==> r.title == d.title.value) && (!Truthy(d.title) ==> r.title == "Unknown Title")
        && r.author == AuthorOf(d.author)
        && (Truthy(d.lengthSeconds) ==> r.duration == ParseInt(d.lengthSeconds.value))
        && (!Truthy(d.lengthSeconds) && Truthy(d.duration) ==> r.duration == ParseInt(d.duration.value))
        && (!Truthy(d.lengthSeconds) && !Truthy(d.duration) ==> r.duration == Some(0))
        && (thumbs != [] && Truthy(thumbs[|thumbs| - 1]) ==> r.thumbnail == thumbs[|thumbs| - 1].value)
        && (thumbs == [] || !Truthy(thumbs[|thumbs| - 1]) ==>
              r.thumbnail == "https://img.youtube.com/vi/" + videoId + "/maxresdefault.jpg")
        && (f.audioBitrate.Some? && f.audioBitrate.value != 0 ==> r.quality == NatToString(f.audioBitrate.value) + "kbps")
        && (f.audioBitrate.None? || f.audioBitrate.value == 0 ==> r.quality == "Unknownkbps")
        && r.methodName == "ytdl-core" && r.note == "Real YouTube audio extraction"
  {
    var r := Handle(Some(videoId), Returned(info));
    if r.Success? {
      var d := info.details.value;
      var f := GetBestAudioFormat(info.formats).value;
      assert r == Success(if Truthy(d.title) then d.title.value else "Unknown Title",
                          AuthorOf(d.author), DurationOf(d), ThumbnailOf(d, videoId), f.url.value, videoId,
                          QualityOf(f), "ytdl-core", "Real YouTube audio extraction");
    }
  }

  /**
   * The `audioUrl` check never fires: the library's filter has already dropped every format
   * without a URL, so the best format always has one.
   */
  lemma BestFormatHasUrl(formats: seq<Format>)
    ensures GetBestAudioFormat(formats).Ok? ==> Truthy(GetBestAudioFormat(formats).value.url)
  {
  }

  /** The "no audio" error is recognised by the last row of the table only. */
  lemma NoAudioClassified()
    ensures ClassifyError(Error(NoAudioMessage)) == ErrorMessages[6]
  {
    var m := NoAudioMessage;
    assert HasAt(m, 0, ErrorKeys[6]);
    NoAudioMissesEarlierKeys();
  }

  lemma NoAudioMissesEarlierKeys()
    ensures forall q :: 0 <= q < 6 ==> !Includes(NoAudioMessage, ErrorKeys[q])
  {
    forall q | 0 <= q < 6 ensures !Includes(NoAudioMessage, ErrorKeys[q]) {
      NoAudioMissesKey(q);
    }
  }

  lemma NoAudioMissesKey(q: nat)
    requires q < 6
    ensures !Includes(NoAudioMessage, ErrorKeys[q])
  {
    var key := ErrorKeys[q];
    assert IsCapital(key[0]) && key[0] != 'N';
    NoInnerCapital();
    NotIncludedCapitalised(NoAudioMessage, key);
  }

  lemma NoInnerCapital()
    ensures forall k :: 1 <= k < |NoAudioMessage| ==> !IsCapital(NoAudioMessage[k])
  {
  }

  predicate IsCapital(c: char) { 'A' <= c <= 'Z' }

  /** A sentence with no capital after its first letter includes no phrase with another capital initial. */
  lemma NotIncludedCapitalised(s: string, lit: string)
    requires lit != [] && IsCapital(lit[0]) && s != [] && s[0] != lit[0]
    requires forall k :: 1 <= k < |s| ==> !IsCapital(s[k])
    ensures !Includes(s, lit)
  {
    NotIncludedWithoutFirstChar(s, lit);
  }

  /** A formats list with no audio-only entry ends in the "no audio" message with status 500. */
  lemma NoAudioIsServerError(videoId: string, info: VideoInfo)
    requires IsValidVideoId(videoId)
    requires forall f :: f in info.formats ==> !IsYtdlAudioOnly(f)
    ensures Handle(Some(videoId), Returned(info)) == Failure(500, "No audio format is available for this video.", Some(NoAudioMessage))
  {
    NoAudioClassified();
    assert GetBestAudioFormat(info.formats) == Err(Error(NoAudioMessage));
  }

  /** `GET /api/youtube?videoId=…`. */
  method Get(videoId: Option<string>, getInfo: nat -> Fetched) returns (r: ApiResponse, waits: seq<nat>)
    ensures r == Handle(videoId, RetryFrom(getInfo, MaxRetries, 1))
    ensures waits == Backoff(|waits|) && |waits| < MaxRetries
    ensures !Truthy(videoId) || !IsValidVideoId(videoId.value) ==> waits == []
  {
    if !Truthy(videoId) || !IsValidVideoId(videoId.value) {
      return Handle(videoId, NoAttempt), [];
    }
    var outcome;
    outcome, waits := GetVideoInfoWithYtdl(getInfo, MaxRetries);
    r := Handle(videoId, outcome);
  }

  /** The body of a `POST`: JSON that failed to parse, or an object whose `url` may be absent. */
  datatype PostBody = Unparsable(message: string) | Body(url: Option<string>)

  /**
   * `POST /api/youtube`. Building the internal `GET` request is done by the framework and
   * may throw: `forwardError` is what it throws, if anything.
   */
  method Post(body: PostBody, forwardError: Option<string>, getInfo: nat -> Fetched) returns (r: ApiResponse)
    ensures body.Unparsable? ==> r == Failure(500, body.message, None)
    ensures body.Body? && !Truthy(body.url) ==> r == Failure(400, "URL is required", None)
    ensures body.Body? && Truthy(body.url) && ExtractVideoId(body.url.value).None? ==> r == Failure(400, "Invalid YouTube URL", None)
    ensures body.Body? && Truthy(body.url) && ExtractVideoId(body.url.value).Some? ==>
              r == match forwardError
                   case Some(m) => Failure(500, m, None)
                   case None => Handle(ExtractVideoId(body.url.value), RetryFrom(getInfo, MaxRetries, 1))
  {
    match body {
      case Unparsable(m) => return Failure(500, m, None);
      case Body(url) =>
        if !Truthy(url) {
          return Failure(400, "URL is required", None);
        }
        var id := ExtractVideoId(url.value);
        if id.None? {
          return Failure(400, "Invalid YouTube URL", None);
        }
        if forwardError.Some? {
          return Failure(500, forwardError.value, None);
        }
        var waits;
        r, waits := Get(id, getInfo);
    }
  }

  /** A URL the extractor accepts never fails `GET`'s format check. */
  lemma ExtractedIdPassesFormatCheck(url: string, outcome: Outcome)
    requires ExtractVideoId(url).Some?
    ensures Handle(ExtractVideoId(url), outcome) != Failure(400, "Invalid video ID format", None)
    ensures Handle(ExtractVideoId(url), outcome) != Failure(400, "Video ID is required", None)
  {
    ExtractedIdIsValid(url);
  }
}
