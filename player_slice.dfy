/**
 * The Redux `player` slice: one object whose reducers assign its fields, push onto its
 * lists and rewrite a playlist in place. Clock readings (`Date.now()`, `new Date()`) are the
 * `now` parameter, in milliseconds.
 */
module PlayerSlice {
  import opened Wrappers
  import opened Library

  /** The "stats" fields. */
  datatype Stats = Stats(likedTracks: seq<string>, downloadCount: nat)

  class Player {
    var currentTrack: Option<Track>
    var isPlaying: bool
    var currentTime: nat
    var duration: nat
    var volume: Volume
    var isMuted: bool
    var isShuffled: bool
    var repeatMode: RepeatMode
    var currentPlaylist: Option<Playlist>
    var playlists: seq<Playlist>
    var likedTracks: seq<string>
    var downloadCount: nat
    var isPlayerVisible: bool
    var isPlaylistVisible: bool
    var isLoading: bool
    var error: Option<string>

    function PlaybackState(): Playback
      reads this
    {
      Playback(currentTrack, isPlaying, currentTime, duration, volume, isMuted, isShuffled, repeatMode)
    }

    function StatsState(): Stats
      reads this
    {
      Stats(likedTracks, downloadCount)
    }

    function UiState(): Ui
      reads this
    {
      Ui(isPlayerVisible, isPlaylistVisible, isLoading, error)
    }

    /** Every field but the playback group is as it was. */
    twostate predicate OnlyPlaybackChanged()
      reads this
    {
      currentPlaylist == old(currentPlaylist) && playlists == old(playlists)
      && StatsState() == old(StatsState()) && UiState() == old(UiState())
    }

    /** Every field but the two playlist fields is as it was. */
    twostate predicate OnlyPlaylistsChanged()
      reads this
    {
      PlaybackState() == old(PlaybackState()) && StatsState() == old(StatsState()) && UiState() == old(UiState())
    }

    /** Every field but the UI group is as it was. */
    twostate predicate OnlyUiChanged()
      reads this
    {
      PlaybackState() == old(PlaybackState()) && currentPlaylist == old(currentPlaylist) && playlists == old(playlists)
      && StatsState() == old(StatsState())
    }

    /** `initialState`. */
    constructor()
      ensures PlaybackState() == InitialPlayback
      ensures currentPlaylist == None && playlists == []
      ensures StatsState() == Stats([], 0) && UiState() == InitialUi
    {
      currentTrack, isPlaying, currentTime, duration, volume := None, false, 0, 0, FullVolume;
      isMuted, isShuffled, repeatMode := false, false, NoRepeat;
      currentPlaylist, playlists, likedTracks, downloadCount := None, [], [], 0;
      isPlayerVisible, isPlaylistVisible, isLoading, error := false, false, false, None;
    }

    /** `setCurrentTrack`: restart at 0; a track (not `null`) also shows the player. */
    method SetCurrentTrack(track: Option<Track>)
      modifies this
      ensures PlaybackState() == old(PlaybackState()).(currentTrack := track, currentTime := 0)
      ensures UiState() == old(UiState()).(isPlayerVisible := track.Some? || old(isPlayerVisible))
      ensures currentPlaylist == old(currentPlaylist) && playlists == old(playlists) && StatsState() == old(StatsState())
    {
      currentTrack, currentTime, isPlayerVisible := track, 0, track.Some? || isPlayerVisible;
    }

    /** `setCurrentTrackAndPlay`: as `setCurrentTrack`, and playing iff a track is given. */
    method SetCurrentTrackAndPlay(track: Option<Track>)
      modifies this
      ensures PlaybackState() == old(PlaybackState()).(currentTrack := track, currentTime := 0, isPlaying := track.Some?)
      ensures UiState() == old(UiState()).(isPlayerVisible := track.Some? || old(isPlayerVisible))
      ensures currentPlaylist == old(currentPlaylist) && playlists == old(playlists) && StatsState() == old(StatsState())
    {
      currentTrack, currentTime, isPlaying, isPlayerVisible := track, 0, track.Some?, track.Some? || isPlayerVisible;
    }

    method SetIsPlaying(playing: bool)
      modifies this
      ensures PlaybackState() == old(PlaybackState()).(isPlaying := playing) && OnlyPlaybackChanged()
    {
      isPlaying := playing;
    }

    method SetCurrentTime(time: nat)
      modifies this
      ensures PlaybackState() == old(PlaybackState()).(currentTime := time) && OnlyPlaybackChanged()
    {
      currentTime := time;
    }

    method SetDuration(d: nat)
      modifies this
      ensures PlaybackState() == old(PlaybackState()).(duration := d) && OnlyPlaybackChanged()
    {
      duration := d;
    }

    method SetVolume(v: Volume)
      modifies this
      ensures PlaybackState() == old(PlaybackState()).(volume := v) && OnlyPlaybackChanged()
    {
      volume := v;
    }

    method SetIsMuted(muted: bool)
      modifies this
      ensures PlaybackState() == old(PlaybackState()).(isMuted := muted) && OnlyPlaybackChanged()
    {
      isMuted := muted;
    }

    method SetIsShuffled(shuffled: bool)
      modifies this
      ensures PlaybackState() == old(PlaybackState()).(isShuffled := shuffled) && OnlyPlaybackChanged()
    {
      isShuffled := shuffled;
    }

    method SetRepeatMode(mode: RepeatMode)
      modifies this
      ensures PlaybackState() == old(PlaybackState()).(repeatMode := mode) && OnlyPlaybackChanged()
    {
      repeatMode := mode;
    }

    /**
     * `addTrack`: with no current playlist nothing happens. Otherwise the track is pushed onto
     * the first playlist carrying the current playlist's id, which becomes the current
     * playlist again; a player with no track starts playing this one; the player is shown.
     */
    method AddTrack(track: Track, now: nat)
      modifies this
      ensures old(currentPlaylist).None? ==> OnlyPlaylistsChanged() && currentPlaylist == old(currentPlaylist) && playlists == old(playlists)
      ensures old(currentPlaylist).Some? ==>
                var id := old(currentPlaylist).value.id;
                var i := FindPlaylistIndex(old(playlists), id);
                playlists == AddToFirst(old(playlists), id, track, now)
                && currentPlaylist == (if i == -1 then old(currentPlaylist) else Some(AddToFirst(old(playlists), id, track, now)[i]))
                && PlaybackState() == old(PlaybackState()).(currentTrack := if old(currentTrack).None? then Some(track) else old(currentTrack),
                                                            isPlaying := old(currentTrack).None? || old(isPlaying))
                && UiState() == old(UiState()).(isPlayerVisible := true)
      ensures StatsState() == old(StatsState())
    {
      if currentPlaylist.None? {
        return;
      }
      PushOntoCurrent(track, now);
      StartIfIdle(track);
    }

    /** The playlist half of `addTrack`, once a current playlist is known. */
    method PushOntoCurrent(track: Track, now: nat)
      requires currentPlaylist.Some?
      modifies this
      ensures OnlyPlaylistsChanged()
      ensures var id := old(currentPlaylist).value.id;
              var i := FindPlaylistIndex(old(playlists), id);
              playlists == AddToFirst(old(playlists), id, track, now)
              && currentPlaylist == (if i == -1 then old(currentPlaylist) else Some(AddToFirst(old(playlists), id, track, now)[i]))
    {
      var id := currentPlaylist.value.id;
      var i := FindPlaylistIndex(playlists, id);
      var lists := AddToFirst(playlists, id, track, now);
      playlists, currentPlaylist := lists, if i == -1 then currentPlaylist else Some(lists[i]);
    }

    /** The player half of `addTrack`: an idle player starts the track, and is shown. */
    method StartIfIdle(track: Track)
      modifies this
      ensures PlaybackState() == old(PlaybackState()).(currentTrack := if old(currentTrack).None? then Some(track) else old(currentTrack),
                                                       isPlaying := old(currentTrack).None? || old(isPlaying))
      ensures UiState() == old(UiState()).(isPlayerVisible := true)
      ensures currentPlaylist == old(currentPlaylist) && playlists == old(playlists) && StatsState() == old(StatsState())
    {
      currentTrack, isPlaying, isPlayerVisible := if currentTrack.None? then Some(track) else currentTrack, currentTrack.None? || isPlaying, true;
    }

    /**
     * `removeTrack`: every track with the id leaves the first playlist carrying the current
     * playlist's id, the rest keep their order, and that playlist becomes current again.
     */
    method RemoveTrack(trackId: string, now: nat)
      modifies this
      ensures OnlyPlaylistsChanged()
      ensures old(currentPlaylist).None? ==> currentPlaylist == old(currentPlaylist) && playlists == old(playlists)
      ensures old(currentPlaylist).Some? ==>
                var id := old(currentPlaylist).value.id;
                var i := FindPlaylistIndex(old(playlists), id);
                playlists == RemoveFromFirst(old(playlists), id, trackId, now)
                && currentPlaylist == if i == -1 then old(currentPlaylist) else Some(RemoveFromFirst(old(playlists), id, trackId, now)[i])
    {
      if currentPlaylist.None? {
        return;
      }
      var id := currentPlaylist.value.id;
      var i := FindPlaylistIndex(playlists, id);
      var lists := RemoveFromFirst(playlists, id, trackId, now);
      playlists, currentPlaylist := lists, if i == -1 then currentPlaylist else Some(lists[i]);
    }

    /** `playTrack`: play the current playlist's first track with the id, from 0. */
    method PlayTrack(trackId: string)
      modifies this
      ensures OnlyPlaybackChanged()
      ensures old(currentPlaylist).None? || FindTrack(old(currentPlaylist).value.tracks, trackId).None? ==>
                PlaybackState() == old(PlaybackState())
      ensures old(currentPlaylist).Some? && FindTrack(old(currentPlaylist).value.tracks, trackId).Some? ==>
                PlaybackState() == old(PlaybackState()).(currentTrack := FindTrack(old(currentPlaylist).value.tracks, trackId),
                                                         isPlaying := true, currentTime := 0)
                && currentTrack.value.id == trackId
    {
      if currentPlaylist.Some? {
        var track := FindTrack(currentPlaylist.value.tracks, trackId);
        if track.Some? {
          currentTrack, isPlaying, currentTime := track, true, 0;
        }
      }
    }

    /**
     * `playNext`: the move `NextIndex` describes, from the current track's position in the
     * current playlist; no move leaves every field as it was.
     */
    method PlayNext()
      modifies this
      ensures OnlyPlaybackChanged()
      ensures old(currentPlaylist).None? || old(currentTrack).None? ==> PlaybackState() == old(PlaybackState())
      ensures old(currentPlaylist).Some? && old(currentTrack).Some? ==>
                match NextIndex(old(currentPlaylist).value.tracks, old(currentTrack).value.id, old(repeatMode))
                case None => PlaybackState() == old(PlaybackState())
                case Some(n) => PlaybackState() == old(PlaybackState()).(currentTrack := Some(old(currentPlaylist).value.tracks[n]),
                                                                         isPlaying := true, currentTime := 0)
    {
      if currentPlaylist.None? || currentTrack.None? {
        return;
      }
      var tracks := currentPlaylist.value.tracks;
      var currentIndex := FindTrackIndex(tracks, currentTrack.value.id);
      if currentIndex == -1 {
        return;
      }
      var nextIndex: nat;
      if repeatMode == RepeatOne {
        nextIndex := currentIndex;
      } else if currentIndex == |tracks| - 1 {
        if repeatMode == RepeatAll {
          nextIndex := 0;
        } else {
          return;
        }
      } else {
        nextIndex := currentIndex + 1;
      }
      currentTrack, isPlaying, currentTime := Some(tracks[nextIndex]), true, 0;
    }

    /** `playPrevious`: one track back by `PrevIndex`, never wrapping. */
    method PlayPrevious()
      modifies this
      ensures OnlyPlaybackChanged()
      ensures old(currentPlaylist).None? || old(currentTrack).None? ==> PlaybackState() == old(PlaybackState())
      ensures old(currentPlaylist).Some? && old(currentTrack).Some? ==>
                match PrevIndex(old(currentPlaylist).value.tracks, old(currentTrack).value.id)
                case None => PlaybackState() == old(PlaybackState())
                case Some(n) => PlaybackState() == old(PlaybackState()).(currentTrack := Some(old(currentPlaylist).value.tracks[n]),
                                                                         isPlaying := true, currentTime := 0)
    {
      if currentPlaylist.None? || currentTrack.None? {
        return;
      }
      var tracks := currentPlaylist.value.tracks;
      var currentIndex := FindTrackIndex(tracks, currentTrack.value.id);
      if currentIndex <= 0 {
        return;
      }
      currentTrack, isPlaying, currentTime := Some(tracks[currentIndex - 1]), true, 0;
    }

    /** `createPlaylist`: one empty playlist is appended and becomes current. */
    method CreatePlaylist(name: string, now: nat)
      modifies this
      ensures OnlyPlaylistsChanged()
      ensures playlists == old(playlists) + [NewPlaylist(name, now)] && currentPlaylist == Some(NewPlaylist(name, now))
    {
      var p := NewPlaylist(name, now);
      playlists, currentPlaylist := playlists + [p], Some(p);
    }

    /** `deletePlaylist`: every playlist with the id goes; the current one is dropped iff it has the id. */
    method DeletePlaylist(playlistId: string)
      modifies this
      ensures OnlyPlaylistsChanged()
      ensures playlists == WithoutPlaylist(old(playlists), playlistId)
      ensures currentPlaylist == if old(currentPlaylist).Some? && old(currentPlaylist).value.id == playlistId
                                 then None else old(currentPlaylist)
    {
      var current := currentPlaylist;
      if current.Some? && current.value.id == playlistId {
        current := None;
      }
      playlists, currentPlaylist := WithoutPlaylist(playlists, playlistId), current;
    }

    /**
     * `addTrackToPlaylist`: only the first playlist with the id changes, and nothing when
     * none has it. The current playlist is not re-synced.
     */
    method AddTrackToPlaylist(playlistId: string, track: Track, now: nat)
      modifies this
      ensures OnlyPlaylistsChanged() && currentPlaylist == old(currentPlaylist)
      ensures playlists == AddToFirst(old(playlists), playlistId, track, now)
    {
      playlists := AddToFirst(playlists, playlistId, track, now);
    }

    /** `removeTrackFromPlaylist`: as `addTrackToPlaylist`, filtering the id out. */
    method RemoveTrackFromPlaylist(playlistId: string, trackId: string, now: nat)
      modifies this
      ensures OnlyPlaylistsChanged() && currentPlaylist == old(currentPlaylist)
      ensures playlists == RemoveFromFirst(old(playlists), playlistId, trackId, now)
    {
      playlists := RemoveFromFirst(playlists, playlistId, trackId, now);
    }

    method SetCurrentPlaylist(p: Option<Playlist>)
      modifies this
      ensures OnlyPlaylistsChanged() && currentPlaylist == p && playlists == old(playlists)
    {
      currentPlaylist := p;
    }

    /** `toggleLikedTrack`: a liked id is filtered out, any other is pushed. */
    method ToggleLikedTrack(trackId: string)
      modifies this
      ensures likedTracks == ToggleMember(old(likedTracks), trackId) && downloadCount == old(downloadCount)
      ensures PlaybackState() == old(PlaybackState()) && UiState() == old(UiState())
      ensures currentPlaylist == old(currentPlaylist) && playlists == old(playlists)
    {
      if trackId in likedTracks {
        likedTracks := WithoutId(likedTracks, trackId);
      } else {
        likedTracks := likedTracks + [trackId];
      }
    }

    /** `incrementDownloadCount`: exactly one more, nothing else. */
    method IncrementDownloadCount()
      modifies this
      ensures downloadCount == old(downloadCount) + 1 && likedTracks == old(likedTracks)
      ensures PlaybackState() == old(PlaybackState()) && UiState() == old(UiState())
      ensures currentPlaylist == old(currentPlaylist) && playlists == old(playlists)
    {
      downloadCount := downloadCount + 1;
    }

    method SetIsPlayerVisible(visible: bool)
      modifies this
      ensures UiState() == old(UiState()).(isPlayerVisible := visible) && OnlyUiChanged()
    {
      isPlayerVisible := visible;
    }

    method SetIsPlaylistVisible(visible: bool)
      modifies this
      ensures UiState() == old(UiState()).(isPlaylistVisible := visible) && OnlyUiChanged()
    {
      isPlaylistVisible := visible;
    }

    method SetIsLoading(loading: bool)
      modifies this
      ensures UiState() == old(UiState()).(isLoading := loading) && OnlyUiChanged()
    {
      isLoading := loading;
    }

    method SetError(e: Option<string>)
      modifies this
      ensures UiState() == old(UiState()).(error := e) && OnlyUiChanged()
    {
      error := e;
    }

    method ClearError()
      modifies this
      ensures UiState() == old(UiState()).(error := None) && OnlyUiChanged()
    {
      error := None;
    }

    /**
     * `resetPlayer`: the playback fields go back to their initial values; playlists, likes,
     * the download count, volume and repeat mode stay.
     */
    method ResetPlayer()
      modifies this
      ensures PlaybackState() == InitialPlayback.(volume := old(volume), isMuted := old(isMuted), isShuffled := old(isShuffled),
                                                  repeatMode := old(repeatMode))
      ensures UiState() == Ui(false, old(isPlaylistVisible), old(isLoading), None)
      ensures currentPlaylist == old(currentPlaylist) && playlists == old(playlists) && StatsState() == old(StatsState())
    {
      currentTrack, isPlaying, currentTime, duration, isPlayerVisible, error := None, false, 0, 0, false, None;
    }
  }
}
