/**
 * The backend's `/api/audio` router: `POST /extract`, `GET /download/:downloadId` and
 * `GET /stream`, sharing the module-level `activeDownloads` table. The table maps a video
 * id to the download id being produced for it, and a download id to the finished file.
 */
module AudioRoutes {
  import opened Wrappers
  import opened Text
  import opened Media
  import opened YouTubeService
  import opened VideoRoutes

  /** What the converter reports for a finished file (`AudioService.extractAudio`'s result). */
  datatype Extraction = Extraction(fileName: string, path: string, format: string, bitrate: string, processingTime: nat)

  /** The title, author name and formatted duration remembered with a finished download. */
  datatype Remembered = Remembered(title: Option<string>, author: Option<string>, duration: string)

  /** An entry of `activeDownloads`. */
  datatype Entry =
    | InProgress(downloadId: string)
    | Finished(file: Extraction, videoInfo: Remembered, createdAt: nat)

  datatype ExtractBody =
    | ExtractFailure(error: string)
    | AlreadyProcessing(entry: Entry)
    | Extracted(downloadId: string, downloadUrl: string, fileName: string, format: string, bitrate: string,
                processingTime: string, videoTitle: Option<string>, duration: string)

  /**
   * The table step of `/extract` once the video info is in hand (`served`): the answer and
   * the new table. `downloadId` is the id `generateDownloadId` would return, `extraction` what
   * the conversion did.
   */
  function ExtractStep(table: map<string, Entry>, id: string, served: Result<VideoData, string>, downloadId: string,
                       extraction: Result<Extraction, string>, now: nat): (r: (nat, ExtractBody, map<string, Entry>))
  {
    match served
    case Err(m) => (500, ExtractFailure(m), table)
    case Ok(data) =>
      if id in table then (200, AlreadyProcessing(table[id]), table)
      else
        var marked := table[id := InProgress(downloadId)];
        match extraction
        case Err(m) => (500, ExtractFailure(m), marked)
        case Ok(x) =>
          var entry := Finished(x, Remembered(data.title, data.authorName, data.durationFormatted), now);
          (200, Extracted(downloadId, "/api/audio/download/" + downloadId, x.fileName, x.format, x.bitrate,
                          NatToString(x.processingTime) + "ms", data.title, data.durationFormatted),
           marked[downloadId := entry] - {id})
  }

  /** A video already in the table is answered with its entry, and nothing starts. */
  lemma AlreadyProcessingStartsNothing(table: map<string, Entry>, id: string, data: VideoData, downloadId: string,
                                       extraction: Result<Extraction, string>, now: nat)
    requires id in table
    ensures ExtractStep(table, id, Ok(data), downloadId, extraction, now) == (200, AlreadyProcessing(table[id]), table)
  {
  }

  /**
   * A successful extraction files the download under its id and no longer holds the video
   * id; every other entry is untouched.
   */
  lemma ExtractionFilesDownload(table: map<string, Entry>, id: string, data: VideoData, downloadId: string,
                                x: Extraction, now: nat)
    requires id !in table && downloadId != id
    ensures var (status, body, after) := ExtractStep(table, id, Ok(data), downloadId, Ok(x), now);
      status == 200 && body.Extracted? && body.downloadUrl == "/api/audio/download/" + downloadId
      && downloadId in after && after[downloadId].Finished? && after[downloadId].file == x
      && id !in after
      && forall k :: k in table && k != downloadId ==> k in after && after[k] == table[k]
  {
  }

  /**
   * A failed conversion leaves the video id marked as in progress, so every later request
   * for it answers "Already processing" with the dead download id and never retries.
   */
  lemma FailedExtractionSticks(table: map<string, Entry>, id: string, data: VideoData, downloadId: string, m: string,
                               now: nat, data': VideoData, downloadId': string,
                               extraction': Result<Extraction, string>, now': nat)
    requires id !in table
    ensures var (status, body, after) := ExtractStep(table, id, Ok(data), downloadId, Err(m), now);
      status == 500 && body == ExtractFailure(m)
      && ExtractStep(after, id, Ok(data'), downloadId', extraction', now')
         == (200, AlreadyProcessing(InProgress(downloadId)), after)
  {
  }

  datatype DownloadAnswer =
    | NotFound(error: string)
    | SendFile(path: string, contentType: string, contentDisposition: string)

  /** `downloadInfo.videoInfo.title` as a template literal prints it. */
  function TitleText(title: Option<string>): string {
    match title
    case Some(t) => t
    case None => "undefined"
  }

  /**
   * The answer and new table of `/download/:downloadId`. `fileExists` is `existsSync`; an
   * in-progress entry has no `path`, and `existsSync(undefined)` is false.
   */
  function DownloadStep(table: map<string, Entry>, downloadId: string, fileExists: string -> bool):
    (r: (DownloadAnswer, map<string, Entry>))
    ensures downloadId !in table ==> r == (NotFound("Download not found or expired"), table)
    ensures r.0.SendFile? <==> downloadId in table && table[downloadId].Finished? && fileExists(table[downloadId].file.path)
    ensures r.0.NotFound? && downloadId in table ==> r == (NotFound("File not found"), table - {downloadId})
    ensures r.0.SendFile? ==> r.1 == table && r.0.contentType == "audio/mpeg"
                              && r.0.path == table[downloadId].file.path
  {
    if downloadId !in table then (NotFound("Download not found or expired"), table)
    else
      match table[downloadId]
      case InProgress(_) => (NotFound("File not found"), table - {downloadId})
      case Finished(file, info, _) =>
        if !fileExists(file.path) then (NotFound("File not found"), table - {downloadId})
        else (SendFile(file.path, "audio/mpeg", "attachment; filename=\"" + TitleText(info.title) + ".mp3\""), table)
  }

  /** The file produced by a successful extraction is served under the video's title while it exists. */
  lemma ExtractedFileDownloads(table: map<string, Entry>, id: string, data: VideoData, downloadId: string,
                               x: Extraction, now: nat, fileExists: string -> bool)
    requires id !in table && downloadId != id && fileExists(x.path)
    ensures var after := ExtractStep(table, id, Ok(data), downloadId, Ok(x), now).2;
      DownloadStep(after, downloadId, fileExists)
      == (SendFile(x.path, "audio/mpeg", "attachment; filename=\"" + TitleText(data.title) + ".mp3\""), after)
  {
  }

  datatype StreamAnswer = StreamRejected(error: string) | Streaming(videoId: string)

  /** `/stream`: the url-or-id ladder; the id that passes it is handed to the streamer. */
  function Stream(url: Option<string>, videoId: Option<string>): (r: StreamAnswer)
    ensures r.StreamRejected? <==> ResolveId(url, videoId).Err?
    ensures r.Streaming? ==> r.videoId != [] && Ok(r.videoId) == ResolveId(url, videoId)
  {
    match ResolveId(url, videoId)
    case Err(e) => StreamRejected(e)
    case Ok(id) => Streaming(id)
  }

  /** The router and its `activeDownloads` map. */
  class Router {
    var activeDownloads: map<string, Entry>

    constructor()
      ensures activeDownloads == map[]
    {
      activeDownloads := map[];
    }

    /**
     * `POST /extract`. `idAccepted`/`probe` feed `validateVideo`, `fetched` is what upstream
     * does on a cache miss, `downloadId` the id `generateDownloadId` returns, `extraction`
     * what the conversion does, `now` the clock.
     */
    method Extract(service: Service, url: Option<string>, videoId: Option<string>, idAccepted: bool, probe: Fetched,
                   fetched: Fetched, downloadId: string, extraction: Result<Extraction, string>, now: nat)
      returns (status: nat, body: ExtractBody)
      requires service.Valid()
      modifies this, service
      ensures service.Valid()
      ensures ResolveId(url, videoId).Err? ==>
                status == 400 && body == ExtractFailure(ResolveId(url, videoId).error)
                && activeDownloads == old(activeDownloads) && service.cache == old(service.cache)
      ensures ResolveId(url, videoId).Ok? && !ValidateVideo(idAccepted, probe) ==>
                status == 404 && body == ExtractFailure("Video not found or not accessible")
                && activeDownloads == old(activeDownloads) && service.cache == old(service.cache)
      ensures ResolveId(url, videoId).Ok? && ValidateVideo(idAccepted, probe) ==>
                (status, body, activeDownloads)
                == ExtractStep(old(activeDownloads), ResolveId(url, videoId).value,
                               Served(old(service.cache), ResolveId(url, videoId).value, fetched, now),
                               downloadId, extraction, now)
                && service.cache == CacheAfter(old(service.cache), ResolveId(url, videoId).value, fetched, now)
    {
      var resolved := ResolveId(url, videoId);
      if resolved.Err? {
        return 400, ExtractFailure(resolved.error);
      }
      var id := resolved.value;
      if !ValidateVideo(idAccepted, probe) {
        return 404, ExtractFailure("Video not found or not accessible");
      }
      var info := service.GetVideoInfo(id, fetched, now);
      if info.Err? {
        return 500, ExtractFailure(info.error);
      }
      var data := info.value;
      if id in activeDownloads {
        return 200, AlreadyProcessing(activeDownloads[id]);
      }
      activeDownloads := activeDownloads[id := InProgress(downloadId)];
      if extraction.Err? {
        return 500, ExtractFailure(extraction.error);
      }
      var x := extraction.value;
      activeDownloads := activeDownloads[downloadId := Finished(x, Remembered(data.title, data.authorName, data.durationFormatted), now)];
      activeDownloads := activeDownloads - {id};
      status := 200;
      body := Extracted(downloadId, "/api/audio/download/" + downloadId, x.fileName, x.format, x.bitrate,
                        NatToString(x.processingTime) + "ms", data.title, data.durationFormatted);
    }

    /** `GET /download/:downloadId`. */
    method Download(downloadId: string, fileExists: string -> bool) returns (r: DownloadAnswer)
      modifies this
      ensures (r, activeDownloads) == DownloadStep(old(activeDownloads), downloadId, fileExists)
    {
      if downloadId !in activeDownloads {
        return NotFound("Download not found or expired");
      }
      var entry := activeDownloads[downloadId];
      if entry.InProgress? || !fileExists(entry.file.path) {
        activeDownloads := activeDownloads - {downloadId};
        return NotFound("File not found");
      }
      r := SendFile(entry.file.path, "audio/mpeg", "attachment; filename=\"" + TitleText(entry.videoInfo.title) + ".mp3\"");
    }
  }
}
