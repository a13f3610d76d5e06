/**
 * The header over the persisted store: the "new playlist" dialog and the repeat button.
 */
module HeaderView {
  import opened Wrappers
  import opened Text
  import opened Library
  import opened PlayerStore

  /** The header's own state: the name typed into the dialog and whether the dialog is open. */
  class Header {
    var newPlaylistName: string
    var showNewPlaylistDialog: bool

    constructor()
      ensures newPlaylistName == "" && !showNewPlaylistDialog
    {
      newPlaylistName, showNewPlaylistDialog := "", false;
    }

    /**
     * `handleCreatePlaylist`: a name that is not blank is trimmed and becomes a new current
     * playlist, and the dialog is cleared and closed; a blank name changes nothing.
     */
    method HandleCreatePlaylist(store: Store, now: nat)
      modifies this, store
      ensures AllWhitespace(old(newPlaylistName)) ==>
                newPlaylistName == old(newPlaylistName) && showNewPlaylistDialog == old(showNewPlaylistDialog)
                && store.playlists == old(store.playlists) && store.currentPlaylist == old(store.currentPlaylist)
                && store.OnlyPlaylistsChanged()
      ensures !AllWhitespace(old(newPlaylistName)) ==>
                newPlaylistName == "" && !showNewPlaylistDialog
                && store.playlists == old(store.playlists) + [NewPlaylist(Trim(old(newPlaylistName)), now)]
                && store.currentPlaylist == Some(NewPlaylist(Trim(old(newPlaylistName)), now))
                && store.OnlyPlaylistsChanged()
      ensures !AllWhitespace(old(newPlaylistName)) ==>
                var name := store.currentPlaylist.value.name;
                name != [] && !IsWhitespace(name[0]) && !IsWhitespace(name[|name| - 1])
    {
      var name := Trim(newPlaylistName);
      if name != [] {
        store.CreatePlaylist(name, now);
        newPlaylistName, showNewPlaylistDialog := "", false;
      }
    }
  }

  /** The header's `toggleRepeatMode`: the next mode of the none → one → all cycle. */
  method ToggleRepeatMode(store: Store)
    modifies store
    ensures store.repeatMode == NextRepeatMode(old(store.repeatMode))
    ensures store.PlaybackState() == old(store.PlaybackState()).(repeatMode := store.repeatMode) && store.OnlyPlaybackChanged()
  {
    store.SetRepeatMode(NextRepeatMode(store.repeatMode));
  }
}
