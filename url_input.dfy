/**
 * The URL input form: the link check it runs as the user types, the id it pulls out of a
 * link, and the submit handler that asks `/api/youtube` for the audio and files the track
 * in the persisted store, creating a playlist first when none is current.
 */
module UrlInput {
  import opened Wrappers
  import opened Text
  import opened Search
  import opened Media
  import opened Library
  import opened PlayerStore
  import YouTubeRoute

  // ---- validateYouTubeUrl ----

  /** What `^(https?:\/\/)?(www\.)?` can match at the start of a string. */
  const Leads: seq<string> := ["", "www.", "http://", "http://www.", "https://", "https://www."]

  /** `lead`, then `lit`, at the start of `s`, then one character of `cc`. */
  predicate LeadThenAt(s: string, lead: string, lit: string, cc: CharClass) {
    HasAt(s, 0, lead + lit) && |lead + lit| < |s| && InClass(cc, s[|lead + lit|])
  }

  /** The anchored prefix, then `lit`, then one character of `cc`. */
  predicate LeadThen(s: string, lit: string, cc: CharClass) {
    exists k :: 0 <= k < |Leads| && LeadThenAt(s, Leads[k], lit, cc)
  }

  /** `/^(https?:\/\/)?(www\.)?(youtube\.com|youtu\.be)\/.+/`. */
  predicate AnyHostLink(s: string) {
    LeadThen(s, "youtube.com/", NotLineTerminator) || LeadThen(s, "youtu.be/", NotLineTerminator)
  }

  /** `/^(https?:\/\/)?(www\.)?youtube\.com\/watch\?v=[\w-]+/`. */
  predicate WatchLink(s: string) { LeadThen(s, "youtube.com/watch?v=", IdChars) }

  /** `/^(https?:\/\/)?(www\.)?youtu\.be\/[\w-]+/`. */
  predicate ShortLink(s: string) { LeadThen(s, "youtu.be/", IdChars) }

  /** `patterns.some(pattern => pattern.test(url))`. */
  predicate ValidateYouTubeUrl(url: string) {
    AnyHostLink(url) || WatchLink(url) || ShortLink(url)
  }

  /** A string that starts with `a + b` starts with `a`, and then holds `b`'s first character. */
  lemma StartsWithJoin(s: string, a: string, b: string)
    requires HasAt(s, 0, a + b) && b != []
    ensures HasAt(s, 0, a) && |a| < |s| && s[|a|] == b[0]
  {
    assert s[..|a|] == (a + b)[..|a|];
    assert s[0..|a + b|][|a|] == s[|a|];
  }

  /** A watch link has `youtube.com/` followed by `w`. */
  lemma WatchIsAnyHost(url: string)
    requires WatchLink(url)
    ensures LeadThen(url, "youtube.com/", NotLineTerminator)
  {
    var k :| 0 <= k < |Leads| && LeadThenAt(url, Leads[k], "youtube.com/watch?v=", IdChars);
    var lead := Leads[k];
    assert lead + "youtube.com/watch?v=" == (lead + "youtube.com/") + "watch?v=";
    StartsWithJoin(url, lead + "youtube.com/", "watch?v=");
    assert LeadThenAt(url, lead, "youtube.com/", NotLineTerminator);
  }

  /** A short link has `youtu.be/` followed by an id character, which `.` matches. */
  lemma ShortIsAnyHost(url: string)
    requires ShortLink(url)
    ensures LeadThen(url, "youtu.be/", NotLineTerminator)
  {
    var k :| 0 <= k < |Leads| && LeadThenAt(url, Leads[k], "youtu.be/", IdChars);
    assert LeadThenAt(url, Leads[k], "youtu.be/", NotLineTerminator);
  }

  /**
   * The second and third patterns add nothing: every string they accept has a host, a
   * slash and a character after it, so the check is the first pattern alone.
   */
  lemma ValidationIsFirstPattern(url: string)
    ensures ValidateYouTubeUrl(url) <==> AnyHostLink(url)
  {
    if WatchLink(url) {
      WatchIsAnyHost(url);
    }
    if ShortLink(url) {
      ShortIsAnyHost(url);
    }
  }

  // ---- extractVideoId ----

  /** The alternatives of `(?:youtube\.com\/watch\?v=|youtu\.be\/)`, in order. */
  const ClientForms: seq<string> := ["youtube.com/watch?v=", "youtu.be/"]
  const EmbedForm := "youtube.com/embed/"

  /** `/(?:youtube\.com\/watch\?v=|youtu\.be\/)([\w-]+)/` tried at `i`. */
  function WatchOrShortAt(s: string, i: nat): (r: Option<string>)
    ensures r.Some? ==> r.value != [] && AllIn(r.value, IdChars)
  {
    FirstLiteralThenRun(s, i, ClientForms, 0, IdChars)
  }

  /** `/youtube\.com\/embed\/([\w-]+)/` tried at `i`. */
  function EmbedAt(s: string, i: nat): (r: Option<string>)
    ensures r.Some? ==> r.value != [] && AllIn(r.value, IdChars)
  {
    LiteralThenRun(s, i, EmbedForm, IdChars)
  }

  const ClientPatterns: seq<Matcher> := [WatchOrShortAt, EmbedAt]

  /**
   * The form's `extractVideoId`: the first capture of the first pattern found anywhere in
   * the string. Unlike the server's, the capture is any run of id characters, of any length.
   */
  function ExtractVideoId(url: string): (r: Option<string>)
    ensures r.Some? ==> r.value != [] && AllIn(r.value, IdChars)
  {
    MatchShape(url);
    FirstMatch(ClientPatterns, url)
  }

  /** Both patterns capture a non-empty run of id characters. */
  lemma MatchShape(url: string)
    ensures FirstMatch(ClientPatterns, url).Some? ==>
              FirstMatch(ClientPatterns, url).value != [] && AllIn(FirstMatch(ClientPatterns, url).value, IdChars)
  {
    var r := FirstMatch(ClientPatterns, url);
    if r.Some? {
      var j :| 0 <= j < |ClientPatterns| && Exec(ClientPatterns[j], url).Some? && Exec(ClientPatterns[j], url).value.group == r.value;
      var f := Exec(ClientPatterns[j], url).value;
      assert ClientPatterns[j](url, f.at) == Some(f.group);
      assert j == 0 || j == 1;
    }
  }

  /** The character that ends a `[\w-]+` capture, or nothing. */
  predicate EndsIdRun(post: string) {
    post == [] || !IsIdChar(post[0])
  }

  /** No watch or short form starts at a position that does not hold a `y`. */
  lemma NoClientFormBeforeY(s: string, i: nat)
    requires i < |s| && s[i] != 'y'
    ensures WatchOrShortAt(s, i).None?
  {
    forall p | 0 <= p < |ClientForms| ensures !HasAt(s, i, ClientForms[p]) {
      if i + |ClientForms[p]| <= |s| {
        assert s[i..i + |ClientForms[p]|][0] == s[i];
      }
    }
  }

  /**
   * A watch or short link after a prefix without a `y` yields exactly the run of id
   * characters that follows the form, however long it is.
   */
  lemma ClientLinkRoundTrip(pre: string, p: nat, id: string, post: string)
    requires 'y' !in pre && p < |ClientForms| && id != [] && AllIn(id, IdChars) && EndsIdRun(post)
    ensures ExtractVideoId(pre + ClientForms[p] + id + post) == Some(id)
  {
    var form := ClientForms[p];
    var s := pre + form + id + post;
    var i := |pre|;
    var j := i + |form|;
    assert s[i..j] == form;
    assert s[j..j + |id|] == id;
    forall k | j <= k < j + |id| ensures InClass(IdChars, s[k]) {
      assert s[k] == id[k - j];
    }
    if j + |id| < |s| {
      assert s[j + |id|] == post[0];
    }
    RunLengthOfRun(s, j, |id|, IdChars);
    assert LiteralThenRun(s, i, form, IdChars) == Some(id);
    if p == 1 {
      Exclusive(s, i, form, ClientForms[0], 5);
    }
    assert WatchOrShortAt(s, i) == Some(id);
    forall q | 0 <= q < i ensures WatchOrShortAt(s, q).None? {
      assert s[q] == pre[q];
      NoClientFormBeforeY(s, q);
    }
    LeftmostIs(WatchOrShortAt, s, 0, i, id);
    assert ClientPatterns[0] == WatchOrShortAt;
  }

  /**
   * A watch or short link behind any of the accepted prefixes passes the link test and
   * yields its id.
   */
  lemma LinkAccepted(k: nat, p: nat, id: string, post: string)
    requires k < |Leads| && p < |ClientForms| && id != [] && AllIn(id, IdChars) && EndsIdRun(post)
    ensures ValidateYouTubeUrl(Leads[k] + ClientForms[p] + id + post)
    ensures ExtractVideoId(Leads[k] + ClientForms[p] + id + post) == Some(id)
  {
    var url := Leads[k] + ClientForms[p] + id + post;
    var head := Leads[k] + ClientForms[p];
    assert url == head + (id + post);
    assert HasAt(url, 0, head) by { assert url[0..|head|] == head; }
    assert url[|head|] == id[0];
    assert InClass(IdChars, id[0]);
    if p == 0 {
      assert WatchLink(url);
    } else {
      assert ShortLink(url);
    }
    assert 'y' !in Leads[k];
    ClientLinkRoundTrip(Leads[k], p, id, post);
  }

  /**
   * The form accepts ids of any length, but `/api/youtube` wants exactly eleven
   * characters: a short link with a longer or shorter id gets past the form and is
   * refused by the route with "Invalid video ID format".
   */
  lemma RouteRefusesOtherLengths(id: string, outcome: YouTubeRoute.Outcome)
    requires id != [] && AllIn(id, IdChars) && |id| != 11
    ensures ValidateYouTubeUrl("youtu.be/" + id) && ExtractVideoId("youtu.be/" + id) == Some(id)
    ensures YouTubeRoute.Handle(Some(id), outcome) == YouTubeRoute.Failure(400, "Invalid video ID format", None)
  {
    var url := "youtu.be/" + id;
    assert url == Leads[0] + ClientForms[1] + id + "";
    LinkAccepted(0, 1, id, "");
  }

  // ---- handleUrlChange ----

  /** `isValid`: `None` for blank input, otherwise the verdict of the link check. */
  function Verdict(value: string): (r: Option<bool>)
    ensures r.None? <==> AllWhitespace(value)
    ensures r.Some? ==> (r.value <==> AnyHostLink(value))
  {
    ValidationIsFirstPattern(value);
    if Trim(value) != [] then Some(ValidateYouTubeUrl(value)) else None
  }

  // ---- handleSubmit ----

  /** The JSON `/api/youtube` answers with, as `handleSubmit` reads it. */
  datatype Reply = Reply(status: nat, success: bool, error: Option<string>, suggestion: Option<string>,
                         retryAfter: Option<nat>, title: string, author: Option<string>, duration: Option<int>,
                         audioUrl: string, thumbnail: Option<string>)

  /** The request: it answers, or `fetch`/`json()` throws. */
  datatype Fetch = Replied(reply: Reply) | FetchThrew(e: Exception)

  /** `!response.ok || !data.success`. */
  predicate Refused(r: Reply) {
    !(200 <= r.status <= 299) || !r.success
  }

  /** `data.retryAfter || 60`. */
  function RetryAfterOr60(retryAfter: Option<nat>): (r: nat)
    ensures r > 0
    ensures retryAfter.Some? && retryAfter.value > 0 ==> r == retryAfter.value
  {
    if retryAfter.Some? && retryAfter.value != 0 then retryAfter.value else 60
  }

  /** `a || b` on strings that may be absent. */
  function OrElse(a: Option<string>, b: string): (r: string)
    ensures YouTubeRoute.Truthy(a) ==> r == a.value
    ensures !YouTubeRoute.Truthy(a) ==> r == b
  {
    if YouTubeRoute.Truthy(a) then a.value else b
  }

  /** A value a template literal prints: `undefined` when absent. */
  function Printed(s: Option<string>): string {
    match s
    case Some(v) => v
    case None => "undefined"
  }

  const RateLimitLead := "Rate limit exceeded"

  /** The sentence thrown for a 429 reply. */
  function RateLimitText(wait: nat): (m: string)
    ensures HasAt(m, 0, RateLimitLead)
  {
    var m := RateLimitLead + ". Please wait " + NatToString(wait) + " seconds before trying again.";
    assert m[..|RateLimitLead|] == RateLimitLead;
    m
  }

  /** The sentence thrown for a 503 reply: the server's error, then its suggestion or a default. */
  function BlockedText(error: Option<string>, suggestion: Option<string>): (m: string)
    ensures HasAt(m, 0, Printed(error) + " ")
  {
    var m := Printed(error) + " " + OrElse(suggestion, "Please try again later.");
    assert m[..|Printed(error) + " "|] == Printed(error) + " ";
    m
  }

  /** The message of the `Error` thrown for a refused reply. */
  function RefusalMessage(r: Reply): (m: string)
    ensures r.status == 429 ==> m == RateLimitText(RetryAfterOr60(r.retryAfter))
    ensures r.status == 503 ==> m == BlockedText(r.error, r.suggestion)
    ensures r.status != 429 && r.status != 503 && YouTubeRoute.Truthy(r.error) ==> m == r.error.value
    ensures r.status != 429 && r.status != 503 && !YouTubeRoute.Truthy(r.error) && YouTubeRoute.Truthy(r.suggestion) ==>
              m == r.suggestion.value
  {
    if r.status == 429 then RateLimitText(RetryAfterOr60(r.retryAfter))
    else if r.status == 503 then BlockedText(r.error, r.suggestion)
    else OrElse(r.error, OrElse(r.suggestion, "Failed to process video"))
  }

  /** The keywords the `catch` block looks for, in order. */
  const CatchKeys: seq<string> := [
    RateLimitLead, "YouTube is currently blocking", "video unavailable", "private video", "age-restricted",
    "no audio format available"]

  /** The message each of the last four keywords is replaced by. */
  const CatchMessages: seq<string> := [
    "This video is not available or has been removed.",
    "This video is private and cannot be accessed.",
    "This video is age-restricted and cannot be processed.",
    "No audio format is available for this video."]

  /**
   * The `catch` block's `errorMessage`: a rate-limit or blocking message is kept, the
   * next four keywords give a fixed message, anything else is kept; a thrown non-`Error`
   * gives "Failed to process video".
   */
  function CaughtMessage(e: Exception): (r: string)
    ensures e.NonError? ==> r == "Failed to process video"
    ensures e.Error? && FirstIncluded(CatchKeys, e.message).Some? && FirstIncluded(CatchKeys, e.message).value >= 2 ==>
              r == CatchMessages[FirstIncluded(CatchKeys, e.message).value - 2]
    ensures e.Error? && (FirstIncluded(CatchKeys, e.message).None? || FirstIncluded(CatchKeys, e.message).value < 2) ==>
              r == e.message
  {
    match e
    case NonError => "Failed to process video"
    case Error(m) =>
      match FirstIncluded(CatchKeys, m)
      case Some(k) => if k < 2 then m else CatchMessages[k - 2]
      case None => m
  }

  /** A message that includes one of the first two keywords is shown as it is. */
  lemma KeptWhenLeadingKey(m: string, k: nat)
    requires k < 2 && Includes(m, CatchKeys[k])
    ensures CaughtMessage(Error(m)) == m
  {
    var f := FirstIncluded(CatchKeys, m);
    assert f.Some?;
    assert f.value <= k;
  }

  /** A 429 reply shows the rate-limit sentence with the server's wait, or 60 seconds. */
  lemma RateLimitShown(r: Reply)
    requires Refused(r) && r.status == 429
    ensures CaughtMessage(Error(RefusalMessage(r))) == RateLimitText(RetryAfterOr60(r.retryAfter))
  {
    KeptWhenLeadingKey(RefusalMessage(r), 0);
  }

  /** A 503 reply whose error says YouTube is blocking is shown with its suggestion appended. */
  lemma BlockingShown(r: Reply, at: nat)
    requires Refused(r) && r.status == 503 && r.error.Some? && HasAt(r.error.value, at, CatchKeys[1])
    ensures CaughtMessage(Error(RefusalMessage(r))) == BlockedText(r.error, r.suggestion)
  {
    var m := RefusalMessage(r);
    var key := CatchKeys[1];
    assert m[at..at + |key|] == r.error.value[at..at + |key|];
    assert HasAt(m, at, key);
    KeptWhenLeadingKey(m, 1);
  }

  /** The track `handleSubmit` builds from a successful reply. */
  function BuildTrack(videoId: string, r: Reply, url: string, now: nat): (t: Track)
    ensures t.id == videoId && t.title == r.title && t.url == r.audioUrl && t.thumbnail == r.thumbnail
    ensures t.youtubeUrl == url && t.addedAt == now
    ensures t.artist != []
    ensures r.author.Some? && r.author.value != "" ==> t.artist == r.author.value
    ensures r.author.None? || r.author == Some("") ==> t.artist == "Unknown Artist"
    ensures r.duration.Some? && r.duration.value != 0 ==> t.duration == r.duration.value
    ensures r.duration.None? || r.duration == Some(0) ==> t.duration == 0
  {
    Track(videoId, r.title, OrElse(r.author, "Unknown Artist"),
          if r.duration.Some? then r.duration.value else 0, r.audioUrl, r.thumbnail, url, now)
  }

  /** How a submit ends: a toast and nothing else, an error in the store, or a new track. */
  datatype Submitted = Rejected(toast: string) | Failed(message: string) | Added(track: Track)

  /** What `handleSubmit` decides for the text in the box and what the request does. */
  function SubmitOutcome(url: string, fetched: Fetch, now: nat): (r: Submitted)
    ensures r.Rejected? <==> !AnyHostLink(url) || ExtractVideoId(url).None?
    ensures r.Added? <==> AnyHostLink(url) && ExtractVideoId(url).Some? && fetched.Replied? && !Refused(fetched.reply)
    ensures r.Added? ==> r.track.id == ExtractVideoId(url).value && r.track.youtubeUrl == url && r.track.addedAt == now
    ensures r.Failed? && fetched.Replied? ==> r.message == CaughtMessage(Error(RefusalMessage(fetched.reply)))
    ensures r.Failed? && fetched.FetchThrew? ==> r.message == CaughtMessage(fetched.e)
  {
    ValidationIsFirstPattern(url);
    if Trim(url) == [] then
      assert !AnyHostLink(url) by { BlankIsNoLink(url); }
      Rejected("Please enter a YouTube URL")
    else if !ValidateYouTubeUrl(url) then Rejected("Please enter a valid YouTube URL")
    else match ExtractVideoId(url)
      case None => Rejected("Could not extract video ID from URL")
      case Some(id) =>
        match fetched
        case FetchThrew(e) => Failed(CaughtMessage(e))
        case Replied(reply) =>
          if Refused(reply) then Failed(CaughtMessage(Error(RefusalMessage(reply))))
          else Added(BuildTrack(id, reply, url, now))
  }

  /** Every link the first pattern accepts holds a `y`, the first letter of either host. */
  lemma LinkHasY(url: string)
    ensures AnyHostLink(url) ==> 'y' in url
  {
    if AnyHostLink(url) {
      var lit := if LeadThen(url, "youtube.com/", NotLineTerminator) then "youtube.com/" else "youtu.be/";
      var k :| 0 <= k < |Leads| && LeadThenAt(url, Leads[k], lit, NotLineTerminator);
      var n := |Leads[k]|;
      assert url[n] == (Leads[k] + lit)[n] == 'y' by { assert url[0..|Leads[k] + lit|][n] == url[n]; }
    }
  }

  /** Blank input has no host in it. */
  lemma BlankIsNoLink(url: string)
    requires AllWhitespace(url)
    ensures !AnyHostLink(url)
  {
    LinkHasY(url);
  }

  /**
   * Where the store's playlists stand after a successful submit: with no current playlist,
   * `Playlist <n+1>` is created first and receives the track; otherwise the current one does.
   */
  function AfterAdd(current: Option<Playlist>, playlists: seq<Playlist>, track: Track, now: nat): (r: (Option<Playlist>, seq<Playlist>))
    ensures r.0.Some?
    ensures current.Some? ==> r.0.value.tracks == current.value.tracks + [track] && r.0.value.id == current.value.id
    ensures current.None? ==> r.0.value.tracks == [track] && r.0.value.name == "Playlist " + NatToString(|playlists| + 1)
    ensures current.None? ==> |r.1| == |playlists| + 1 && r.1[|playlists|] == r.0.value
    ensures current.Some? ==> |r.1| == |playlists|
    ensures forall k :: 0 <= k < |playlists| ==> r.1[k] == if playlists[k].id == r.0.value.id then r.0.value else playlists[k]
  {
    var p := if current.Some? then current.value else NewPlaylist("Playlist " + NatToString(|playlists| + 1), now);
    var list := if current.Some? then playlists else playlists + [p];
    var updated := WithTrackAdded(p, track, now);
    assert updated.tracks == p.tracks + [track];
    (Some(updated), ReplaceMatching(list, p.id, updated))
  }

  /** The success path's store calls: `createPlaylist` when nothing is current, then `addTrack`. */
  method FileTrack(store: Store, track: Track, now: nat)
    modifies store
    ensures store.UiState() == old(store.UiState()) && store.PlaybackState() == old(store.PlaybackState())
    ensures (store.currentPlaylist, store.playlists) == AfterAdd(old(store.currentPlaylist), old(store.playlists), track, now)
  {
    if store.currentPlaylist.None? {
      store.CreatePlaylist("Playlist " + NatToString(|store.playlists| + 1), now);
    }
    store.AddTrack(track, now);
  }

  /** The form's own state: the text in the box, the verdict shown, and the spinner. */
  class Form {
    var url: string
    var isValid: Option<bool>
    var isLoading: bool

    constructor()
      ensures url == "" && isValid == None && !isLoading
    {
      url, isValid, isLoading := "", None, false;
    }

    /** `handleUrlChange`: keep the text, clear the store's error, show the verdict. */
    method UrlChanged(store: Store, value: string)
      modifies this, store
      ensures url == value && isValid == Verdict(value) && isLoading == old(isLoading)
      ensures store.UiState() == old(store.UiState()).(error := None) && store.OnlyUiChanged()
    {
      url := value;
      store.ClearError();
      if Trim(value) != [] {
        isValid := Some(ValidateYouTubeUrl(value));
      } else {
        isValid := None;
      }
    }

    /**
     * `handleSubmit`, with the request's result given. A rejection changes nothing; a
     * failure puts its message in the store's error; a success files the track, clears the
     * error and empties the box. The spinner is off afterwards in both of the last two.
     */
    method Submit(store: Store, fetched: Fetch, now: nat) returns (r: Submitted)
      modifies this, store
      ensures r == SubmitOutcome(old(url), fetched, now)
      ensures r.Rejected? ==> url == old(url) && isValid == old(isValid) && isLoading == old(isLoading)
                              && store.UiState() == old(store.UiState()) && store.OnlyUiChanged()
      ensures r.Failed? ==> url == old(url) && isValid == old(isValid) && !isLoading
                            && store.UiState() == old(store.UiState()).(error := Some(r.message)) && store.OnlyUiChanged()
      ensures r.Added? ==> url == "" && isValid == None && !isLoading
                           && store.UiState() == old(store.UiState()).(error := None)
                           && store.PlaybackState() == old(store.PlaybackState())
                           && (store.currentPlaylist, store.playlists)
                              == AfterAdd(old(store.currentPlaylist), old(store.playlists), r.track, now)
    {
      r := SubmitOutcome(url, fetched, now);
      if r.Rejected? {
        return;
      }
      isLoading := true;
      if r.Failed? {
        store.SetError(Some(r.message));
      } else {
        store.SetError(None);
        FileTrack(store, r.track, now);
        url, isValid := "", None;
      }
      isLoading := false;
    }
  }
}
