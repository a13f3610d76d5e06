/**
 * The backend's `/api/video` router: `POST /info` and `GET /validate/:videoId`, plus the
 * url-or-id ladder the audio router shares with it.
 */
module VideoRoutes {
  import opened Wrappers
  import opened Media
  import opened YouTubeService
  import YouTubeRoute

  const MissingInput := "URL or video ID is required"
  const InvalidInput := "Invalid YouTube URL or video ID"

  /**
   * `const id = videoId || YouTubeService.extractVideoId(url)` behind its two 400 checks:
   * the id to use, or the error the request is rejected with.
   */
  function ResolveId(url: Option<string>, videoId: Option<string>): (r: Result<string, string>)
    ensures !YouTubeRoute.Truthy(url) && !YouTubeRoute.Truthy(videoId) ==> r == Err(MissingInput)
    ensures YouTubeRoute.Truthy(videoId) ==> r == Ok(videoId.value)
    ensures YouTubeRoute.Truthy(url) && !YouTubeRoute.Truthy(videoId) ==>
              (r.Ok? <==> ExtractVideoId(url).Some?) && (r.Err? ==> r.error == InvalidInput)
    ensures r.Ok? ==> r.value != []
    ensures r.Ok? && !YouTubeRoute.Truthy(videoId) ==> r == Ok(ExtractVideoId(url).value)
  {
    if !YouTubeRoute.Truthy(url) && !YouTubeRoute.Truthy(videoId) then Err(MissingInput)
    else if YouTubeRoute.Truthy(videoId) then Ok(videoId.value)
    else
      ExtractedIdShape(url);
      match ExtractVideoId(url)
      case None => Err(InvalidInput)
      case Some(id) => Ok(id)
  }

  /** A link in any of the service's URL forms resolves to the id it carries when no id is given. */
  lemma LinkResolves(pre: string, p: nat, id: string, post: string)
    requires 'y' !in pre && p < |UrlForms| && id != [] && Text.AllIn(id, Text.NotUrlStop) && EndsCapture(post)
    ensures ResolveId(Some(pre + UrlForms[p] + id + post), None) == Ok(id)
  {
    LinkRoundTrip(pre, p, id, post);
  }

  datatype InfoBody = InfoFailure(error: string) | InfoSuccess(data: VideoData)

  /** `GET /validate/:videoId`'s body: always a success, carrying the verdict and the id. */
  datatype ValidateBody = ValidateBody(success: bool, valid: bool, videoId: string)

  /**
   * `GET /validate/:videoId`: `idAccepted` is `ytdl.validateID`'s verdict, `probe` what
   * `ytdl.getInfo` did. The answer is a success whatever the verdict.
   */
  function Validate(videoId: string, idAccepted: bool, probe: Fetched): (r: ValidateBody)
    ensures r.success && r.videoId == videoId
    ensures r.valid <==> idAccepted && probe.Got? && probe.info.details.Some?
  {
    ValidateBody(true, ValidateVideo(idAccepted, probe), videoId)
  }

  /**
   * `POST /info`. `idAccepted`/`probe` feed `validateVideo`, `fetched` is what upstream does
   * if `getVideoInfo` misses the cache, `now` is the clock.
   */
  method Info(service: Service, url: Option<string>, videoId: Option<string>, idAccepted: bool, probe: Fetched,
              fetched: Fetched, now: nat) returns (status: nat, body: InfoBody)
    requires service.Valid()
    modifies service
    ensures service.Valid()
    ensures ResolveId(url, videoId).Err? ==>
              status == 400 && body == InfoFailure(ResolveId(url, videoId).error) && service.cache == old(service.cache)
    ensures (ResolveId(url, videoId).Ok? && !Validate(ResolveId(url, videoId).value, idAccepted, probe).valid) ==>
              status == 404 && body == InfoFailure("Video not found or not accessible") && service.cache == old(service.cache)
    ensures status == 404 <==> ResolveId(url, videoId).Ok? && !Validate(ResolveId(url, videoId).value, idAccepted, probe).valid
    ensures (ResolveId(url, videoId).Ok? && Validate(ResolveId(url, videoId).value, idAccepted, probe).valid) ==>
              (match Served(old(service.cache), ResolveId(url, videoId).value, fetched, now)
               case Ok(data) => status == 200 && body == InfoSuccess(data)
               case Err(m) => status == 500 && body == InfoFailure(m))
    ensures (ResolveId(url, videoId).Ok? && Validate(ResolveId(url, videoId).value, idAccepted, probe).valid) ==>
              service.cache == CacheAfter(old(service.cache), ResolveId(url, videoId).value, fetched, now)
    ensures body.InfoSuccess? ==> status == 200 && body.data.videoId == ResolveId(url, videoId).value
  {
    var resolved := ResolveId(url, videoId);
    if resolved.Err? {
      return 400, InfoFailure(resolved.error);
    }
    var id := resolved.value;
    if !ValidateVideo(idAccepted, probe) {
      return 404, InfoFailure("Video not found or not accessible");
    }
    var info := service.GetVideoInfo(id, fetched, now);
    match info {
      case Ok(data) => return 200, InfoSuccess(data);
      case Err(m) => return 500, InfoFailure(m);
    }
  }
}
