/**
 * The zustand player store (`usePlayerStore`): the same fields as the Redux slice without the
 * stats, updated through `set`, with the new playlists built by spread, `map` and `filter`.
 * Clock readings are the `now` parameter, in milliseconds.
 */
module PlayerStore {
  import opened Wrappers
  import opened Library

  /** What `persist` writes to storage: the object `partialize` returns. */
  datatype Persisted = Persisted(volume: Volume, isMuted: bool, isShuffled: bool, repeatMode: RepeatMode,
                                 playlists: seq<Playlist>, currentPlaylist: Option<Playlist>)

  /** `partialize`: the settings and the playlists, never the track being played or the UI. */
  function Partialize(p: Playback, playlists: seq<Playlist>, currentPlaylist: Option<Playlist>): (r: Persisted)
    ensures r.volume == p.volume && r.isMuted == p.isMuted && r.isShuffled == p.isShuffled && r.repeatMode == p.repeatMode
    ensures r.playlists == playlists && r.currentPlaylist == currentPlaylist
  {
    Persisted(p.volume, p.isMuted, p.isShuffled, p.repeatMode, playlists, currentPlaylist)
  }

  /** Two stores that agree on the six persisted fields persist the same thing, whatever they play. */
  lemma PartializeIgnoresPlayback(p: Playback, q: Playback, playlists: seq<Playlist>, currentPlaylist: Option<Playlist>)
    requires p.volume == q.volume && p.isMuted == q.isMuted && p.isShuffled == q.isShuffled && p.repeatMode == q.repeatMode
    ensures Partialize(p, playlists, currentPlaylist) == Partialize(q, playlists, currentPlaylist)
  {
  }

  class Store {
    var currentTrack: Option<Track>
    var isPlaying: bool
    var currentTime: nat
    var duration: nat
    var volume: Volume
    var isMuted: bool
    var isShuffled: bool
    var repeatMode: RepeatMode
    var currentPlaylist: Option<Playlist>
    var playlists: seq<Playlist>
    var isPlayerVisible: bool
    var isPlaylistVisible: bool
    var isLoading: bool
    var error: Option<string>

    function PlaybackState(): Playback
      reads this
    {
      Playback(currentTrack, isPlaying, currentTime, duration, volume, isMuted, isShuffled, repeatMode)
    }

    function UiState(): Ui
      reads this
    {
      Ui(isPlayerVisible, isPlaylistVisible, isLoading, error)
    }

    /** What the store persists right now. */
    function Persist(): Persisted
      reads this
    {
      Partialize(PlaybackState(), playlists, currentPlaylist)
    }

    twostate predicate OnlyPlaybackChanged()
      reads this
    {
      currentPlaylist == old(currentPlaylist) && playlists == old(playlists) && UiState() == old(UiState())
    }

    twostate predicate OnlyPlaylistsChanged()
      reads this
    {
      PlaybackState() == old(PlaybackState()) && UiState() == old(UiState())
    }

    twostate predicate OnlyUiChanged()
      reads this
    {
      PlaybackState() == old(PlaybackState()) && currentPlaylist == old(currentPlaylist) && playlists == old(playlists)
    }

    /** The store's initial state. */
    constructor()
      ensures PlaybackState() == InitialPlayback && currentPlaylist == None && playlists == [] && UiState() == InitialUi
    {
      currentTrack, isPlaying, currentTime, duration, volume := None, false, 0, 0, FullVolume;
      isMuted, isShuffled, repeatMode := false, false, NoRepeat;
      currentPlaylist, playlists := None, [];
      isPlayerVisible, isPlaylistVisible, isLoading, error := false, false, false, None;
    }

    /** `setCurrentTrack`: restart at 0; a track (not `null`) also shows the player. */
    method SetCurrentTrack(track: Option<Track>)
      modifies this
      ensures PlaybackState() == old(PlaybackState()).(currentTrack := track, currentTime := 0)
      ensures UiState() == old(UiState()).(isPlayerVisible := track.Some? || old(isPlayerVisible))
      ensures currentPlaylist == old(currentPlaylist) && playlists == old(playlists)
      ensures Persist() == old(Persist())
    {
      currentTrack, currentTime := track, 0;
      if track.Some? {
        isPlayerVisible := true;
      }
    }

    method SetIsPlaying(playing: bool)
      modifies this
      ensures PlaybackState() == old(PlaybackState()).(isPlaying := playing) && OnlyPlaybackChanged()
      ensures Persist() == old(Persist())
    {
      isPlaying := playing;
    }

    method SetCurrentTime(time: nat)
      modifies this
      ensures PlaybackState() == old(PlaybackState()).(currentTime := time) && OnlyPlaybackChanged()
      ensures Persist() == old(Persist())
    {
      currentTime := time;
    }

    method SetDuration(d: nat)
      modifies this
      ensures PlaybackState() == old(PlaybackState()).(duration := d) && OnlyPlaybackChanged()
      ensures Persist() == old(Persist())
    {
      duration := d;
    }

    method SetVolume(v: Volume)
      modifies this
      ensures PlaybackState() == old(PlaybackState()).(volume := v) && OnlyPlaybackChanged()
      ensures Persist() == old(Persist()).(volume := v)
    {
      volume := v;
    }

    method SetIsMuted(muted: bool)
      modifies this
      ensures PlaybackState() == old(PlaybackState()).(isMuted := muted) && OnlyPlaybackChanged()
      ensures Persist() == old(Persist()).(isMuted := muted)
    {
      isMuted := muted;
    }

    method SetIsShuffled(shuffled: bool)
      modifies this
      ensures PlaybackState() == old(PlaybackState()).(isShuffled := shuffled) && OnlyPlaybackChanged()
      ensures Persist() == old(Persist()).(isShuffled := shuffled)
    {
      isShuffled := shuffled;
    }

    method SetRepeatMode(mode: RepeatMode)
      modifies this
      ensures PlaybackState() == old(PlaybackState()).(repeatMode := mode) && OnlyPlaybackChanged()
      ensures Persist() == old(Persist()).(repeatMode := mode)
    {
      repeatMode := mode;
    }

    /**
     * `addTrack`: the current playlist with the track appended replaces the current playlist
     * and every playlist sharing its id. What is playing does not change.
     */
    method AddTrack(track: Track, now: nat)
      modifies this
      ensures OnlyPlaylistsChanged()
      ensures old(currentPlaylist).None? ==> currentPlaylist == old(currentPlaylist) && playlists == old(playlists)
      ensures old(currentPlaylist).Some? ==>
                var updated := WithTrackAdded(old(currentPlaylist).value, track, now);
                currentPlaylist == Some(updated) && playlists == ReplaceMatching(old(playlists), updated.id, updated)
    {
      if currentPlaylist.Some? {
        var updated := WithTrackAdded(currentPlaylist.value, track, now);
        currentPlaylist, playlists := Some(updated), ReplaceMatching(playlists, currentPlaylist.value.id, updated);
      }
    }

    /**
     * `removeTrack`: the current playlist without the id's tracks replaces the current
     * playlist and every playlist sharing its id.
     */
    method RemoveTrack(trackId: string, now: nat)
      modifies this
      ensures OnlyPlaylistsChanged()
      ensures old(currentPlaylist).None? ==> currentPlaylist == old(currentPlaylist) && playlists == old(playlists)
      ensures old(currentPlaylist).Some? ==>
                var updated := WithTrackRemoved(old(currentPlaylist).value, trackId, now);
                currentPlaylist == Some(updated) && playlists == ReplaceMatching(old(playlists), updated.id, updated)
    {
      if currentPlaylist.Some? {
        var updated := WithTrackRemoved(currentPlaylist.value, trackId, now);
        currentPlaylist, playlists := Some(updated), ReplaceMatching(playlists, currentPlaylist.value.id, updated);
      }
    }

    /** `playTrack`: play the current playlist's first track with the id, from 0. */
    method PlayTrack(trackId: string)
      modifies this
      ensures OnlyPlaybackChanged()
      ensures old(currentPlaylist).None? || FindTrack(old(currentPlaylist).value.tracks, trackId).None? ==>
                PlaybackState() == old(PlaybackState())
      ensures old(currentPlaylist).Some? && FindTrack(old(currentPlaylist).value.tracks, trackId).Some? ==>
                PlaybackState() == old(PlaybackState()).(currentTrack := FindTrack(old(currentPlaylist).value.tracks, trackId),
                                                         isPlaying := true, currentTime := 0)
                && currentTrack.value.id == trackId
    {
      if currentPlaylist.Some? {
        var track := FindTrack(currentPlaylist.value.tracks, trackId);
        if track.Some? {
          currentTrack, isPlaying, currentTime := track, true, 0;
        }
      }
    }

    /** `playNext`: the move `NextIndex` describes; no move leaves every field as it was. */
    method PlayNext()
      modifies this
      ensures OnlyPlaybackChanged()
      ensures old(currentPlaylist).None? || old(currentTrack).None? ==> PlaybackState() == old(PlaybackState())
      ensures old(currentPlaylist).Some? && old(currentTrack).Some? ==>
                match NextIndex(old(currentPlaylist).value.tracks, old(currentTrack).value.id, old(repeatMode))
                case None => PlaybackState() == old(PlaybackState())
                case Some(n) => PlaybackState() == old(PlaybackState()).(currentTrack := Some(old(currentPlaylist).value.tracks[n]),
                                                                         isPlaying := true, currentTime := 0)
    {
      if currentPlaylist.None? || currentTrack.None? {
        return;
      }
      var tracks := currentPlaylist.value.tracks;
      var currentIndex := FindTrackIndex(tracks, currentTrack.value.id);
      if currentIndex == -1 {
        return;
      }
      var nextIndex: nat;
      if repeatMode == RepeatOne {
        nextIndex := currentIndex;
      } else if currentIndex == |tracks| - 1 {
        if repeatMode == RepeatAll {
          nextIndex := 0;
        } else {
          return;
        }
      } else {
        nextIndex := currentIndex + 1;
      }
      currentTrack, isPlaying, currentTime := Some(tracks[nextIndex]), true, 0;
    }

    /** `playPrevious`: one track back by `PrevIndex`, never wrapping. */
    method PlayPrevious()
      modifies this
      ensures OnlyPlaybackChanged()
      ensures old(currentPlaylist).None? || old(currentTrack).None? ==> PlaybackState() == old(PlaybackState())
      ensures old(currentPlaylist).Some? && old(currentTrack).Some? ==>
                match PrevIndex(old(currentPlaylist).value.tracks, old(currentTrack).value.id)
                case None => PlaybackState() == old(PlaybackState())
                case Some(n) => PlaybackState() == old(PlaybackState()).(currentTrack := Some(old(currentPlaylist).value.tracks[n]),
                                                                         isPlaying := true, currentTime := 0)
    {
      if currentPlaylist.None? || currentTrack.None? {
        return;
      }
      var tracks := currentPlaylist.value.tracks;
      var currentIndex := FindTrackIndex(tracks, currentTrack.value.id);
      if currentIndex <= 0 {
        return;
      }
      currentTrack, isPlaying, currentTime := Some(tracks[currentIndex - 1]), true, 0;
    }

    /** `createPlaylist`: one empty playlist is appended and becomes current. */
    method CreatePlaylist(name: string, now: nat)
      modifies this
      ensures OnlyPlaylistsChanged()
      ensures playlists == old(playlists) + [NewPlaylist(name, now)] && currentPlaylist == Some(NewPlaylist(name, now))
    {
      var p := NewPlaylist(name, now);
      playlists, currentPlaylist := playlists + [p], Some(p);
    }

    /** `deletePlaylist`: every playlist with the id goes; the current one is dropped iff it has the id. */
    method DeletePlaylist(playlistId: string)
      modifies this
      ensures OnlyPlaylistsChanged()
      ensures playlists == WithoutPlaylist(old(playlists), playlistId)
      ensures currentPlaylist == if old(currentPlaylist).Some? && old(currentPlaylist).value.id == playlistId
                                 then None else old(currentPlaylist)
    {
      var current := currentPlaylist;
      if current.Some? && current.value.id == playlistId {
        current := None;
      }
      playlists, currentPlaylist := WithoutPlaylist(playlists, playlistId), current;
    }

    /** `addTrackToPlaylist`: every playlist with the id gets the track; the current playlist is left alone. */
    method AddTrackToPlaylist(playlistId: string, track: Track, now: nat)
      modifies this
      ensures OnlyPlaylistsChanged() && currentPlaylist == old(currentPlaylist)
      ensures playlists == AddToMatching(old(playlists), playlistId, track, now)
    {
      playlists := AddToMatching(playlists, playlistId, track, now);
    }

    /** `removeTrackFromPlaylist`: every playlist with the id loses the track's copies; the current playlist is left alone. */
    method RemoveTrackFromPlaylist(playlistId: string, trackId: string, now: nat)
      modifies this
      ensures OnlyPlaylistsChanged() && currentPlaylist == old(currentPlaylist)
      ensures playlists == RemoveFromMatching(old(playlists), playlistId, trackId, now)
    {
      playlists := RemoveFromMatching(playlists, playlistId, trackId, now);
    }

    method SetCurrentPlaylist(p: Option<Playlist>)
      modifies this
      ensures OnlyPlaylistsChanged() && currentPlaylist == p && playlists == old(playlists)
    {
      currentPlaylist := p;
    }

    method SetIsPlayerVisible(visible: bool)
      modifies this
      ensures UiState() == old(UiState()).(isPlayerVisible := visible) && OnlyUiChanged()
    {
      isPlayerVisible := visible;
    }

    method SetIsPlaylistVisible(visible: bool)
      modifies this
      ensures UiState() == old(UiState()).(isPlaylistVisible := visible) && OnlyUiChanged()
    {
      isPlaylistVisible := visible;
    }

    method SetIsLoading(loading: bool)
      modifies this
      ensures UiState() == old(UiState()).(isLoading := loading) && OnlyUiChanged()
    {
      isLoading := loading;
    }

    method SetError(e: Option<string>)
      modifies this
      ensures UiState() == old(UiState()).(error := e) && OnlyUiChanged()
    {
      error := e;
    }

    method ClearError()
      modifies this
      ensures UiState() == old(UiState()).(error := None) && OnlyUiChanged()
    {
      error := None;
    }

    /** `resetPlayer`: the playback fields go back to their initial values; nothing persisted changes. */
    method ResetPlayer()
      modifies this
      ensures PlaybackState() == InitialPlayback.(volume := old(volume), isMuted := old(isMuted), isShuffled := old(isShuffled),
                                                  repeatMode := old(repeatMode))
      ensures UiState() == Ui(false, old(isPlaylistVisible), old(isLoading), None)
      ensures currentPlaylist == old(currentPlaylist) && playlists == old(playlists)
      ensures Persist() == old(Persist())
    {
      currentTrack, isPlaying, currentTime, duration, isPlayerVisible, error := None, false, 0, 0, false, None;
    }
  }
}
