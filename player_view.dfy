/**
 * The player bar's handlers over the persisted store and the page's `<audio>` element:
 * the time display, the element's volume, the end-of-track rule, the volume slider, and the
 * mute, shuffle, repeat and play/pause buttons.
 */
module PlayerView {
  import opened Wrappers
  import opened Clock
  import opened Library
  import opened PlayerStore
  import YouTubeService

  /** The part of the `<audio>` element the handlers touch. */
  class Audio {
    var currentTime: nat
    var volume: Volume
    var paused: bool

    constructor()
      ensures currentTime == 0 && volume == FullVolume && paused
    {
      currentTime, volume, paused := 0, FullVolume, true;
    }
  }

  /**
   * `formattedCurrentTime` and `formattedDuration`: `m:ss` for a number of seconds, and
   * "0:00" when the value is NaN (`None`).
   */
  function FormatTime(t: Option<nat>): (r: string)
    ensures t.None? ==> r == "0:00"
    ensures t.Some? ==> ParseClock(r) == t.value && WellFormedClock(r) && |SplitColons(r)| == 2
  {
    match t
    case None => "0:00"
    case Some(n) => MinutesSeconds(n)
  }

  /**
   * Below an hour the players' clock and the server's `formatDuration` print the same
   * text; from an hour on the server adds an hours field and the players do not.
   */
  lemma ShortTimesAgree(n: nat)
    ensures n < 3600 ==> YouTubeService.FormatDuration(n) == MinutesSeconds(n)
    ensures n >= 3600 ==> |SplitColons(YouTubeService.FormatDuration(n))| == 3 && |SplitColons(MinutesSeconds(n))| == 2
  {
    YouTubeService.FormatDurationReadsBack(n);
    if n < 3600 {
      assert n / 3600 == 0 && n % 3600 == n;
    }
  }

  /** `isMuted ? 0 : volume`: what the element plays at and the slider shows. */
  function EffectiveVolume(volume: Volume, isMuted: bool): (r: Volume)
    ensures r <= volume
    ensures r == 0 <==> isMuted || volume == 0
    ensures !isMuted ==> r == volume
  {
    if isMuted then 0 else volume
  }

  /** The volume effect: the element follows the store's volume and mute flag. */
  method ApplyVolume(store: Store, audio: Audio?)
    modifies audio
    ensures audio != null ==> audio.volume == EffectiveVolume(store.volume, store.isMuted)
                              && audio.currentTime == old(audio.currentTime) && audio.paused == old(audio.paused)
  {
    if audio == null {
      return;
    }
    audio.volume := EffectiveVolume(store.volume, store.isMuted);
  }

  /**
   * `handleEnded`: under repeat-one with the element present, the element restarts the
   * same track from 0 and the store is left alone; otherwise the store plays the next track.
   */
  method HandleEnded(store: Store, audio: Audio?)
    modifies store, audio
    ensures old(store.repeatMode) == RepeatOne && audio != null ==>
              audio.currentTime == 0 && !audio.paused && audio.volume == old(audio.volume)
              && store.PlaybackState() == old(store.PlaybackState()) && store.OnlyPlaybackChanged()
    ensures !(old(store.repeatMode) == RepeatOne && audio != null) ==>
              store.OnlyPlaybackChanged()
              && (audio != null ==> audio.currentTime == old(audio.currentTime) && audio.paused == old(audio.paused)
                                    && audio.volume == old(audio.volume))
              && if old(store.currentPlaylist).None? || old(store.currentTrack).None? then
                   store.PlaybackState() == old(store.PlaybackState())
                 else
                   match NextIndex(old(store.currentPlaylist).value.tracks, old(store.currentTrack).value.id, old(store.repeatMode))
                   case None => store.PlaybackState() == old(store.PlaybackState())
                   case Some(n) => store.PlaybackState() == old(store.PlaybackState()).(
                                     currentTrack := Some(old(store.currentPlaylist).value.tracks[n]),
                                     isPlaying := true, currentTime := 0)
  {
    if store.repeatMode == RepeatOne && audio != null {
      audio.currentTime, audio.paused := 0, false;
    } else {
      store.PlayNext();
    }
  }

  /**
   * `handleVolumeChange`: the slider's value becomes the volume; afterwards the player is
   * muted exactly when the new volume is 0.
   */
  method HandleVolumeChange(store: Store, newVolume: Volume)
    modifies store
    ensures store.volume == newVolume && (store.isMuted <==> newVolume == 0)
    ensures store.PlaybackState() == old(store.PlaybackState()).(volume := newVolume, isMuted := store.isMuted)
    ensures store.OnlyPlaybackChanged()
    ensures newVolume != 0 && !old(store.isMuted) ==> store.PlaybackState() == old(store.PlaybackState()).(volume := newVolume)
  {
    var wasMuted := store.isMuted;
    store.SetVolume(newVolume);
    if newVolume == 0 {
      store.SetIsMuted(true);
    } else if wasMuted {
      store.SetIsMuted(false);
    }
  }

  /** After moving the slider, the element plays at exactly the slider's value. */
  lemma SliderIsHeard(newVolume: Volume, isMuted: bool)
    requires isMuted <==> newVolume == 0
    ensures EffectiveVolume(newVolume, isMuted) == newVolume
  {
  }

  /** `toggleMute`. */
  method ToggleMute(store: Store)
    modifies store
    ensures store.PlaybackState() == old(store.PlaybackState()).(isMuted := !old(store.isMuted)) && store.OnlyPlaybackChanged()
  {
    store.SetIsMuted(!store.isMuted);
  }

  /** `toggleShuffle`. */
  method ToggleShuffle(store: Store)
    modifies store
    ensures store.PlaybackState() == old(store.PlaybackState()).(isShuffled := !old(store.isShuffled)) && store.OnlyPlaybackChanged()
  {
    store.SetIsShuffled(!store.isShuffled);
  }

  /** `toggleRepeatMode`: the next mode of the none → one → all cycle. */
  method ToggleRepeatMode(store: Store)
    modifies store
    ensures store.repeatMode == NextRepeatMode(old(store.repeatMode)) && store.repeatMode != old(store.repeatMode)
    ensures store.PlaybackState() == old(store.PlaybackState()).(repeatMode := store.repeatMode) && store.OnlyPlaybackChanged()
  {
    store.SetRepeatMode(NextRepeatMode(store.repeatMode));
  }

  /** `handlePlayPause`: nothing without a track, otherwise play becomes pause and back. */
  method HandlePlayPause(store: Store)
    modifies store
    ensures old(store.currentTrack).None? ==> store.PlaybackState() == old(store.PlaybackState())
    ensures old(store.currentTrack).Some? ==> store.PlaybackState() == old(store.PlaybackState()).(isPlaying := !old(store.isPlaying))
    ensures store.OnlyPlaybackChanged()
  {
    if store.currentTrack.None? {
      return;
    }
    store.SetIsPlaying(!store.isPlaying);
  }

  /** `handleClose`: the player is hidden; what is playing is untouched. */
  method HandleClose(store: Store)
    modifies store
    ensures store.UiState() == old(store.UiState()).(isPlayerVisible := false) && store.OnlyUiChanged()
  {
    store.SetIsPlayerVisible(false);
  }
}
