/**
 * The `/api/test-audio` diagnostic route: fetch one video's info and report its best audio
 * format and every audio-only format. Every answer has status 200, failures included.
 */
module TestAudioRoute {
  import opened Wrappers
  import opened Media
  import opened YouTubeRoute

  /** The video used when the request names none. */
  const DefaultVideoId := "dQw4w9WgXcQ"

  /** The watch URL the route asks upstream about. */
  function RequestedUrl(videoId: Option<string>): (r: string)
    ensures Truthy(videoId) ==> r == "https://www.youtube.com/watch?v=" + videoId.value
    ensures !Truthy(videoId) ==> r == "https://www.youtube.com/watch?v=" + DefaultVideoId
  {
    "https://www.youtube.com/watch?v=" + (if Truthy(videoId) then videoId.value else DefaultVideoId)
  }

  /** The fields reported for a format. */
  datatype FormatReport = FormatReport(url: Option<string>, audioBitrate: Option<nat>, audioCodec: Option<string>,
                                       container: string, contentLength: Option<string>)

  function Report(f: Format): FormatReport {
    FormatReport(f.url, f.audioBitrate, f.audioCodec, f.container, f.contentLength)
  }

  /** `allFormats` leaves out `contentLength`. */
  function ReportAll(fs: seq<Format>): (r: seq<FormatReport>)
    ensures |r| == |fs| && forall k :: 0 <= k < |fs| ==> r[k] == Report(fs[k]).(contentLength := None)
  {
    seq(|fs|, k requires 0 <= k < |fs| => Report(fs[k]).(contentLength := None))
  }

  datatype TestResponse =
    | Failed(error: string)
    | Succeeded(title: Option<string>, author: Option<string>, duration: Option<string>,
                audioFormat: FormatReport, allFormats: seq<FormatReport>)

  /** `videoDetails.author?.name`. */
  function AuthorName(a: Author): Option<string> {
    match a
    case AuthorObject(name) => name
    case _ => None
  }

  /**
   * `GET`, given what the one upstream call did. The formats are sorted in place, so the
   * listing of all formats comes out sorted as well, the chosen one first.
   */
  function Get(fetched: Fetched): (r: TestResponse)
    ensures fetched.Threw? ==> r == Failed(if fetched.e.Error? then fetched.e.message else "Unknown error")
    ensures fetched.Got? && (forall f :: f in fetched.info.formats ==> !IsYtdlAudioOnly(f)) ==> r == Failed("No audio format available")
    ensures fetched.Got? && (exists f :: f in fetched.info.formats && IsYtdlAudioOnly(f)) && fetched.info.details.None? ==>
              r == Failed("Cannot read properties of undefined (reading 'title')")
    ensures r.Succeeded? ==>
              (fetched.Got? && fetched.info.details.Some?
               && |r.allFormats| == |YtdlAudioOnly(fetched.info.formats)| > 0
               && r.allFormats[0] == r.audioFormat.(contentLength := None)
               && exists i: nat :: FirstMaximumAt(YtdlAudioOnly(fetched.info.formats), i)
                                 && r.audioFormat == Report(YtdlAudioOnly(fetched.info.formats)[i]))
    ensures r.Succeeded? ==> exists sorted :: SortedDesc(sorted) && multiset(sorted) == multiset(YtdlAudioOnly(fetched.info.formats))
                                              && r.allFormats == ReportAll(sorted)
  {
    match fetched
    case Threw(e) => Failed(if e.Error? then e.message else "Unknown error")
    case Got(info) =>
      var audio := YtdlAudioOnly(info.formats);
      var sorted := SortByBitrateDesc(audio);
      if |sorted| == 0 then Failed("No audio format available")
      else if info.details.None? then Failed("Cannot read properties of undefined (reading 'title')")
      else
        SortedHeadIsFirstMaximum(audio);
        var d := info.details.value;
        Succeeded(d.title, AuthorName(d.author), d.lengthSeconds, Report(sorted[0]), ReportAll(sorted))
  }
}
