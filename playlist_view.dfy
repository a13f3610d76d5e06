/**
 * The playlist panel over the Redux slice: clicking a track, whether a row shows as
 * playing, the selection checkboxes and the "remove selected" button.
 */
module PlaylistView {
  import opened Wrappers
  import opened Library
  import opened PlayerSlice

  /** `isTrackPlaying`: the row's track is the current one and the player is playing. */
  predicate IsTrackPlaying(currentTrack: Option<Track>, isPlaying: bool, track: Track) {
    currentTrack.Some? && currentTrack.value.id == track.id && isPlaying
  }

  /**
   * `handleTrackClick`: on the current track play and pause swap; on another track it
   * becomes current from 0 and plays. Either way the row's playing mark flips.
   */
  method HandleTrackClick(player: Player, track: Track)
    modifies player
    ensures IsTrackPlaying(player.currentTrack, player.isPlaying, track)
            <==> !IsTrackPlaying(old(player.currentTrack), old(player.isPlaying), track)
    ensures old(player.currentTrack).Some? && old(player.currentTrack).value.id == track.id ==>
              player.PlaybackState() == old(player.PlaybackState()).(isPlaying := !old(player.isPlaying))
              && player.OnlyPlaybackChanged()
    ensures !(old(player.currentTrack).Some? && old(player.currentTrack).value.id == track.id) ==>
              player.PlaybackState() == old(player.PlaybackState()).(currentTrack := Some(track), currentTime := 0, isPlaying := true)
              && player.UiState() == old(player.UiState()).(isPlayerVisible := true)
              && player.currentPlaylist == old(player.currentPlaylist) && player.playlists == old(player.playlists)
              && player.StatsState() == old(player.StatsState())
  {
    if player.currentTrack.Some? && player.currentTrack.value.id == track.id {
      player.SetIsPlaying(!player.isPlaying);
    } else {
      player.SetCurrentTrack(Some(track));
      player.SetIsPlaying(true);
    }
  }

  /** The selection after `handleTrackSelect(id)`: `id` flips in or out, nothing else moves. */
  function ToggleSelection(selected: set<string>, id: string): (r: set<string>)
    ensures id in r <==> id !in selected
    ensures forall x :: x != id ==> (x in r <==> x in selected)
  {
    if id in selected then selected - {id} else selected + {id}
  }

  /** Ticking a box twice restores the selection. */
  lemma SelectTwiceRestores(selected: set<string>, id: string)
    ensures ToggleSelection(ToggleSelection(selected, id), id) == selected
  {
  }

  /** The panel's own state: the ids whose boxes are ticked. */
  class Panel {
    var selected: set<string>

    constructor()
      ensures selected == {}
    {
      selected := {};
    }

    /** `handleTrackSelect`. */
    method HandleTrackSelect(id: string)
      modifies this
      ensures selected == ToggleSelection(old(selected), id)
    {
      var next := selected;
      if id in next {
        next := next - {id};
      } else {
        next := next + {id};
      }
      selected := next;
    }

    /**
     * `handleRemoveSelected`: one `removeTrack` per ticked id, then an empty selection; the
     * count in the toast is returned. When the current playlist sits in the list, it ends
     * without any track carrying a ticked id and keeps every other track.
     */
    method HandleRemoveSelected(player: Player, now: nat) returns (count: nat)
      modifies this, player
      ensures selected == {} && count == |old(selected)|
      ensures player.PlaybackState() == old(player.PlaybackState()) && player.UiState() == old(player.UiState())
      ensures player.StatsState() == old(player.StatsState())
      ensures old(player.currentPlaylist).None? ==> player.currentPlaylist.None? && player.playlists == old(player.playlists)
      ensures old(Synced(player.currentPlaylist, player.playlists)) ==>
                Synced(player.currentPlaylist, player.playlists)
                && player.currentPlaylist.value.id == old(player.currentPlaylist).value.id
                && player.currentPlaylist.value.name == old(player.currentPlaylist).value.name
                && forall t :: t in player.currentPlaylist.value.tracks
                               <==> t in old(player.currentPlaylist).value.tracks && t.id !in old(selected)
    {
      var remaining := selected;
      while remaining != {}
        invariant selected == old(selected) && remaining <= selected
        invariant player.PlaybackState() == old(player.PlaybackState()) && player.UiState() == old(player.UiState())
        invariant player.StatsState() == old(player.StatsState())
        invariant old(player.currentPlaylist).None? ==> player.currentPlaylist.None? && player.playlists == old(player.playlists)
        invariant old(Synced(player.currentPlaylist, player.playlists)) ==>
                    Synced(player.currentPlaylist, player.playlists)
                    && player.currentPlaylist.value.id == old(player.currentPlaylist).value.id
                    && player.currentPlaylist.value.name == old(player.currentPlaylist).value.name
                    && forall t :: t in player.currentPlaylist.value.tracks
                                   <==> t in old(player.currentPlaylist).value.tracks && t.id !in old(selected) - remaining
        decreases |remaining|
      {
        var id :| id in remaining;
        if Synced(player.currentPlaylist, player.playlists) {
          RemoveKeepsSynced(player.currentPlaylist.value, player.playlists, id, now);
        }
        player.RemoveTrack(id, now);
        remaining := remaining - {id};
      }
      count := |selected|;
      selected := {};
    }
  }
}
