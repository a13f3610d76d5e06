/**
 * The `/api/youtube/stream` route: `GET` streams a video's audio with CORS and caching
 * headers, `HEAD` answers range probes, `OPTIONS` answers CORS preflight.
 */
module StreamRoute {
  import opened Wrappers
  import opened Text
  import opened Media

  /** A `Headers` object: `set` replaces any earlier value of the same name. */
  class Headers {
    var fields: map<string, string>

    constructor()
      ensures fields == map[]
    {
      fields := map[];
    }

    method Set(name: string, value: string)
      modifies this
      ensures fields == old(fields)[name := value]
    {
      fields := fields[name := value];
    }
  }

  /** What a response carries: nothing, a JSON error, or the audio stream of a chosen format. */
  datatype Body = Empty | JsonError(error: string, suggestion: Option<string>) | AudioStream(format: Option<Format>)

  datatype Response = Response(status: nat, headers: map<string, string>, body: Body)

  const AllowOrigin := "Access-Control-Allow-Origin"
  const AllowMethods := "Access-Control-Allow-Methods"
  const AllowHeaders := "Access-Control-Allow-Headers"

  /** The CORS grant every successful answer of this route carries. */
  predicate AllowsCrossOrigin(h: map<string, string>) {
    AllowOrigin in h && h[AllowOrigin] == "*"
    && AllowMethods in h && h[AllowMethods] == "GET, HEAD, OPTIONS"
    && AllowHeaders in h && (h[AllowHeaders] == "Range" || h[AllowHeaders] == "Range, Content-Type")
  }

  const Suggestion := "Please try again later or check if the video is available."

  /** The status and message for an error caught while preparing the stream. */
  function StreamError(e: Exception): (r: (nat, string))
    ensures e.NonError? ==> r == (500, "Failed to stream audio")
    ensures e.Error? && Includes(e.message, "Video unavailable") ==> r == (404, "This video is not available or has been removed")
    ensures (e.Error? && !Includes(e.message, "Video unavailable") && Includes(e.message, "private"))
            ==> r == (403, "This video is private and cannot be accessed")
    ensures (e.Error? && !Includes(e.message, "Video unavailable") && !Includes(e.message, "private")
             && Includes(e.message, "age-restricted")) ==> r == (403, "This video is age-restricted and cannot be processed")
    ensures r.0 == 500 <==> e.NonError? || FirstIncluded(["Video unavailable", "private", "age-restricted"], e.message).None?
    ensures e.Error? && r.0 == 500 ==> r.1 == e.message
  {
    match e
    case NonError => (500, "Failed to stream audio")
    case Error(m) =>
      if Includes(m, "Video unavailable") then (404, "This video is not available or has been removed")
      else if Includes(m, "private") then (403, "This video is private and cannot be accessed")
      else if Includes(m, "age-restricted") then (403, "This video is age-restricted and cannot be processed")
      else (500, m)
  }

  /**
   * The keyword test is case-sensitive: upstream's "Private video" message is not
   * recognised here and ends as a plain 500 carrying that message.
   */
  lemma CapitalisedPrivateIsServerError()
    ensures StreamError(Error("Private video")) == (500, "Private video")
  {
    NotIncludedWithoutFirstChar("Private video", "Video unavailable");
    NotIncludedWithoutFirstChar("Private video", "private");
    NotIncludedWhenShorter("Private video", "age-restricted");
  }

  /** `GET`: `fetched` is what the one call to `ytdl.getInfo` did. */
  method Get(videoId: Option<string>, fetched: Fetched) returns (r: Response)
    ensures !(videoId.Some? && videoId.value != "") ==> r == Response(400, map[], JsonError("Video ID is required", None))
    ensures videoId.Some? && videoId.value != "" ==>
              (match fetched
               case Threw(e) => r == Response(StreamError(e).0, map[], JsonError(StreamError(e).1, Some(Suggestion)))
               case Got(info) =>
                 if info.details.None? then r == Response(404, map[], JsonError("Video not found or unavailable", None))
                 else if info.details.value.isPrivate || info.details.value.isUnlisted then
                   r == Response(403, map[], JsonError("This video is private or unlisted", None))
                 else r.status == 200 && r.body == AudioStream(FindMp4(YtdlAudioOnly(info.formats))))
    ensures r.status == 200 ==> AllowsCrossOrigin(r.headers) && r.body.AudioStream?
    ensures r.status == 200 ==>
              ("Content-Type" in r.headers
               && (r.headers["Content-Type"] == "audio/mp4" <==> r.body.format.Some?)
               && (r.body.format.Some? ==> r.body.format.value.container == "mp4" && IsYtdlAudioOnly(r.body.format.value)))
    ensures r.status == 200 ==>
              (r.headers["Content-Type"] in {"audio/mp4", "audio/mpeg"}
               && "Accept-Ranges" in r.headers && r.headers["Accept-Ranges"] == "bytes"
               && "Cache-Control" in r.headers && r.headers["Cache-Control"] == "public, max-age=3600"
               && "Content-Disposition" in r.headers && r.headers["Content-Disposition"] == "inline"
               && r.headers[AllowHeaders] == "Range, Content-Type")
  {
    if videoId.None? || videoId.value == "" {
      return Response(400, map[], JsonError("Video ID is required", None));
    }
    match fetched {
      case Threw(e) =>
        var (status, message) := StreamError(e);
        return Response(status, map[], JsonError(message, Some(Suggestion)));
      case Got(info) =>
        if info.details.None? {
          return Response(404, map[], JsonError("Video not found or unavailable", None));
        }
        if info.details.value.isPrivate || info.details.value.isUnlisted {
          return Response(403, map[], JsonError("This video is private or unlisted", None));
        }
        var mp4 := FindMp4(YtdlAudioOnly(info.formats));
        var headers := StreamHeaders(if mp4.Some? then "audio/mp4" else "audio/mpeg");
        return Response(200, headers, AudioStream(mp4));
    }
  }

  /** The headers `GET` sets on a stream of the given content type. */
  method StreamHeaders(contentType: string) returns (h: map<string, string>)
    ensures AllowsCrossOrigin(h) && h[AllowHeaders] == "Range, Content-Type"
    ensures "Content-Type" in h && h["Content-Type"] == contentType
    ensures "Accept-Ranges" in h && h["Accept-Ranges"] == "bytes"
    ensures "Cache-Control" in h && h["Cache-Control"] == "public, max-age=3600"
    ensures "Content-Disposition" in h && h["Content-Disposition"] == "inline"
  {
    var headers := new Headers();
    headers.Set("Content-Type", contentType);
    headers.Set("Accept-Ranges", "bytes");
    headers.Set("Cache-Control", "public, max-age=3600");
    headers.Set(AllowOrigin, "*");
    headers.Set(AllowMethods, "GET, HEAD, OPTIONS");
    headers.Set(AllowHeaders, "Range, Content-Type");
    headers.Set("Content-Disposition", "inline");
    return headers.fields;
  }

  /** `HEAD`: 400 without an id, 404 when the info cannot be fetched, else the stream's headers. */
  method Head(videoId: Option<string>, fetched: Fetched) returns (r: Response)
    ensures r.body == Empty
    ensures !(videoId.Some? && videoId.value != "") ==> r == Response(400, map[], Empty)
    ensures videoId.Some? && videoId.value != "" && fetched.Threw? ==> r == Response(404, map[], Empty)
    ensures r.status == 200 <==> videoId.Some? && videoId.value != "" && fetched.Got?
    ensures r.status == 200 ==> AllowsCrossOrigin(r.headers) && r.headers[AllowHeaders] == "Range"
    ensures r.status == 200 ==>
              ("Content-Type" in r.headers && r.headers["Content-Type"] == "audio/mpeg"
               && "Content-Length" in r.headers && r.headers["Content-Length"] == "0"
               && "Accept-Ranges" in r.headers && r.headers["Accept-Ranges"] == "bytes"
               && "Cache-Control" in r.headers && r.headers["Cache-Control"] == "public, max-age=3600")
  {
    if videoId.None? || videoId.value == "" {
      return Response(400, map[], Empty);
    }
    if fetched.Threw? {
      return Response(404, map[], Empty);
    }
    var headers := new Headers();
    headers.Set("Content-Type", "audio/mpeg");
    headers.Set("Accept-Ranges", "bytes");
    headers.Set("Content-Length", "0");
    headers.Set("Cache-Control", "public, max-age=3600");
    headers.Set(AllowOrigin, "*");
    headers.Set(AllowMethods, "GET, HEAD, OPTIONS");
    headers.Set(AllowHeaders, "Range");
    return Response(200, headers.fields, Empty);
  }

  /** `OPTIONS`: the CORS preflight answer, cached for a day. */
  method Options() returns (r: Response)
    ensures r.status == 200 && r.body == Empty && AllowsCrossOrigin(r.headers)
    ensures r.headers[AllowHeaders] == "Range, Content-Type"
    ensures "Access-Control-Max-Age" in r.headers && r.headers["Access-Control-Max-Age"] == "86400"
    ensures |r.headers| == 4
  {
    var headers := new Headers();
    headers.Set(AllowOrigin, "*");
    headers.Set(AllowMethods, "GET, HEAD, OPTIONS");
    headers.Set(AllowHeaders, "Range, Content-Type");
    headers.Set("Access-Control-Max-Age", "86400");
    return Response(200, headers.fields, Empty);
  }
}
