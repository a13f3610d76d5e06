/**
 * The values both player stores keep (tracks, playlists, the repeat mode) and the list
 * operations their actions are built from: `findIndex`, `find`, `filter`, the queue step of
 * `playNext`/`playPrevious`, the liked-track toggle and the duration total.
 */
module Library {
  import opened Wrappers
  import opened Text

  datatype RepeatMode = NoRepeat | RepeatOne | RepeatAll

  /** `["none", "one", "all"]`, the order the repeat buttons cycle through. */
  const RepeatModes: seq<RepeatMode> := [NoRepeat, RepeatOne, RepeatAll]

  function ModeIndex(m: RepeatMode): (i: nat)
    ensures i < |RepeatModes| && RepeatModes[i] == m
  {
    match m
    case NoRepeat => 0
    case RepeatOne => 1
    case RepeatAll => 2
  }

  /** `modes[(modes.indexOf(repeatMode) + 1) % modes.length]`. */
  function NextRepeatMode(m: RepeatMode): (r: RepeatMode)
    ensures r != m
  {
    RepeatModes[(ModeIndex(m) + 1) % |RepeatModes|]
  }

  /** The cycle is none → one → all → none, so three presses change nothing. */
  lemma RepeatCycle(m: RepeatMode)
    ensures NextRepeatMode(NoRepeat) == RepeatOne && NextRepeatMode(RepeatOne) == RepeatAll
    ensures NextRepeatMode(RepeatAll) == NoRepeat
    ensures NextRepeatMode(NextRepeatMode(NextRepeatMode(m))) == m
  {
  }

  /**
   * A volume in hundredths: the volume slider runs from 0 to 1 in steps of 0.01, so 100 is
   * full volume.
   */
  type Volume = v: nat | v <= 100

  const FullVolume: Volume := 100

  /** Times (`addedAt`, `createdAt`, `updatedAt`) are clock readings in milliseconds. */
  datatype Track = Track(id: string, title: string, artist: string, duration: int, url: string,
                         thumbnail: Option<string>, youtubeUrl: string, addedAt: nat)

  datatype Playlist = Playlist(id: string, name: string, tracks: seq<Track>, createdAt: nat, updatedAt: nat)

  /** The "current track" fields both player stores keep. */
  datatype Playback = Playback(currentTrack: Option<Track>, isPlaying: bool, currentTime: nat, duration: nat,
                               volume: Volume, isMuted: bool, isShuffled: bool, repeatMode: RepeatMode)

  const InitialPlayback := Playback(None, false, 0, 0, FullVolume, false, false, NoRepeat)

  /** The "UI state" fields both player stores keep. */
  datatype Ui = Ui(isPlayerVisible: bool, isPlaylistVisible: bool, isLoading: bool, error: Option<string>)

  const InitialUi := Ui(false, false, false, None)

  /** The playlist `createPlaylist(name)` makes at time `now`: its id is `Date.now().toString()`. */
  function NewPlaylist(name: string, now: nat): (p: Playlist)
    ensures p.name == name && p.tracks == [] && p.createdAt == now && p.updatedAt == now
    ensures ParseInt(p.id) == Some(now as int)
  {
    ParseIntOfNatToString(now);
    Playlist(NatToString(now), name, [], now, now)
  }

  /** `tracks.findIndex(t => t.id === id)`: the first index holding `id`, or -1. */
  function FindTrackIndex(tracks: seq<Track>, id: string): (r: int)
    ensures -1 <= r < |tracks|
    ensures r == -1 <==> forall k :: 0 <= k < |tracks| ==> tracks[k].id != id
    ensures r >= 0 ==> tracks[r].id == id && forall k :: 0 <= k < r ==> tracks[k].id != id
  {
    if tracks == [] then -1
    else if tracks[0].id == id then 0
    else
      var r := FindTrackIndex(tracks[1..], id);
      assert forall k :: 1 <= k < |tracks| ==> tracks[k] == tracks[1..][k - 1];
      if r == -1 then -1 else r + 1
  }

  /** `playlists.findIndex(p => p.id === id)`. */
  function FindPlaylistIndex(playlists: seq<Playlist>, id: string): (r: int)
    ensures -1 <= r < |playlists|
    ensures r == -1 <==> forall k :: 0 <= k < |playlists| ==> playlists[k].id != id
    ensures r >= 0 ==> playlists[r].id == id && forall k :: 0 <= k < r ==> playlists[k].id != id
  {
    if playlists == [] then -1
    else if playlists[0].id == id then 0
    else
      var r := FindPlaylistIndex(playlists[1..], id);
      assert forall k :: 1 <= k < |playlists| ==> playlists[k] == playlists[1..][k - 1];
      if r == -1 then -1 else r + 1
  }

  /** `tracks.find(t => t.id === id)`. */
  function FindTrack(tracks: seq<Track>, id: string): (r: Option<Track>)
    ensures r.None? <==> FindTrackIndex(tracks, id) == -1
    ensures r.Some? ==> r.value == tracks[FindTrackIndex(tracks, id)]
  {
    var i := FindTrackIndex(tracks, id);
    if i == -1 then None else Some(tracks[i])
  }

  /** `tracks.filter(t => t.id !== id)`. */
  function WithoutTrack(tracks: seq<Track>, id: string): (r: seq<Track>)
    ensures |r| <= |tracks|
    ensures forall t :: t in r <==> t in tracks && t.id != id
  {
    if tracks == [] then []
    else if tracks[0].id == id then WithoutTrack(tracks[1..], id)
    else [tracks[0]] + WithoutTrack(tracks[1..], id)
  }

  /** The filter keeps the surviving tracks in their order: it distributes over concatenation. */
  lemma {:induction false} WithoutTrackAppend(a: seq<Track>, b: seq<Track>, id: string)
    ensures WithoutTrack(a + b, id) == WithoutTrack(a, id) + WithoutTrack(b, id)
  {
    if a == [] {
      assert a + b == b;
    } else {
      assert (a + b)[1..] == a[1..] + b;
      WithoutTrackAppend(a[1..], b, id);
    }
  }

  /** Removing an id no track carries changes nothing. */
  lemma {:induction false} WithoutAbsentTrack(tracks: seq<Track>, id: string)
    requires forall k :: 0 <= k < |tracks| ==> tracks[k].id != id
    ensures WithoutTrack(tracks, id) == tracks
  {
    if tracks != [] {
      WithoutAbsentTrack(tracks[1..], id);
    }
  }

  /** `playlists.filter(p => p.id !== id)`. */
  function WithoutPlaylist(playlists: seq<Playlist>, id: string): (r: seq<Playlist>)
    ensures |r| <= |playlists|
    ensures forall p :: p in r <==> p in playlists && p.id != id
  {
    if playlists == [] then []
    else if playlists[0].id == id then WithoutPlaylist(playlists[1..], id)
    else [playlists[0]] + WithoutPlaylist(playlists[1..], id)
  }

  /** `{...p, tracks: [...p.tracks, track], updatedAt}`. */
  function WithTrackAdded(p: Playlist, track: Track, now: nat): (r: Playlist)
    ensures r.id == p.id && r.name == p.name && r.createdAt == p.createdAt && r.updatedAt == now
    ensures |r.tracks| == |p.tracks| + 1 && r.tracks[..|p.tracks|] == p.tracks && r.tracks[|p.tracks|] == track
  {
    p.(tracks := p.tracks + [track], updatedAt := now)
  }

  /** `{...p, tracks: p.tracks.filter(t => t.id !== id), updatedAt}`. */
  function WithTrackRemoved(p: Playlist, id: string, now: nat): (r: Playlist)
    ensures r.id == p.id && r.name == p.name && r.createdAt == p.createdAt && r.updatedAt == now
    ensures forall t :: t in r.tracks <==> t in p.tracks && t.id != id
  {
    p.(tracks := WithoutTrack(p.tracks, id), updatedAt := now)
  }

  /**
   * `playlists[playlists.findIndex(p => p.id === id)]` with `track` pushed and `updatedAt`
   * set: only the first playlist with the id changes, and nothing does when none has it.
   */
  function AddToFirst(playlists: seq<Playlist>, id: string, track: Track, now: nat): (r: seq<Playlist>)
    ensures |r| == |playlists|
    ensures FindPlaylistIndex(playlists, id) == -1 ==> r == playlists
    ensures FindPlaylistIndex(playlists, id) != -1 ==>
              r[FindPlaylistIndex(playlists, id)] == WithTrackAdded(playlists[FindPlaylistIndex(playlists, id)], track, now)
    ensures forall k :: 0 <= k < |r| && k != FindPlaylistIndex(playlists, id) ==> r[k] == playlists[k]
  {
    var i := FindPlaylistIndex(playlists, id);
    if i == -1 then playlists else playlists[i := WithTrackAdded(playlists[i], track, now)]
  }

  /** As `AddToFirst`, filtering `trackId` out of the first playlist with the id. */
  function RemoveFromFirst(playlists: seq<Playlist>, id: string, trackId: string, now: nat): (r: seq<Playlist>)
    ensures |r| == |playlists|
    ensures FindPlaylistIndex(playlists, id) == -1 ==> r == playlists
    ensures FindPlaylistIndex(playlists, id) != -1 ==>
              r[FindPlaylistIndex(playlists, id)] == WithTrackRemoved(playlists[FindPlaylistIndex(playlists, id)], trackId, now)
    ensures forall k :: 0 <= k < |r| && k != FindPlaylistIndex(playlists, id) ==> r[k] == playlists[k]
  {
    var i := FindPlaylistIndex(playlists, id);
    if i == -1 then playlists else playlists[i := WithTrackRemoved(playlists[i], trackId, now)]
  }

  /** The current playlist is the first entry of the list carrying its id. */
  predicate Synced(current: Option<Playlist>, playlists: seq<Playlist>) {
    current.Some? && FindPlaylistIndex(playlists, current.value.id) != -1
    && playlists[FindPlaylistIndex(playlists, current.value.id)] == current.value
  }

  /**
   * Removing a track from the first playlist with the current playlist's id keeps it at the
   * same index, so the copy read back from there is the current playlist filtered, and the
   * two stay in step.
   */
  lemma RemoveKeepsSynced(current: Playlist, playlists: seq<Playlist>, trackId: string, now: nat)
    requires Synced(Some(current), playlists)
    ensures var i := FindPlaylistIndex(playlists, current.id);
      var after := RemoveFromFirst(playlists, current.id, trackId, now);
      FindPlaylistIndex(after, current.id) == i && after[i] == WithTrackRemoved(current, trackId, now)
      && Synced(Some(after[i]), after)
  {
    var i := FindPlaylistIndex(playlists, current.id);
    var after := RemoveFromFirst(playlists, current.id, trackId, now);
    assert after[i].id == current.id;
    assert forall k :: 0 <= k < i ==> after[k].id != current.id by {
      forall k | 0 <= k < i ensures after[k].id != current.id {
        assert after[k] == playlists[k];
      }
    }
    var j := FindPlaylistIndex(after, current.id);
    assert j == i;
  }

  /** `playlists.map(p => p.id === id ? replacement : p)`: every playlist with that id is replaced. */
  function ReplaceMatching(playlists: seq<Playlist>, id: string, replacement: Playlist): (r: seq<Playlist>)
    ensures |r| == |playlists|
    ensures forall k :: 0 <= k < |r| ==> r[k] == if playlists[k].id == id then replacement else playlists[k]
  {
    seq(|playlists|, k requires 0 <= k < |playlists| => if playlists[k].id == id then replacement else playlists[k])
  }

  /** `playlists.map(p => p.id === id ? f(p) : p)` with `f` adding `track`. */
  function AddToMatching(playlists: seq<Playlist>, id: string, track: Track, now: nat): (r: seq<Playlist>)
    ensures |r| == |playlists|
    ensures forall k :: 0 <= k < |r| ==> r[k] == if playlists[k].id == id then WithTrackAdded(playlists[k], track, now) else playlists[k]
  {
    seq(|playlists|, k requires 0 <= k < |playlists| =>
      if playlists[k].id == id then WithTrackAdded(playlists[k], track, now) else playlists[k])
  }

  /** `playlists.map(p => p.id === id ? f(p) : p)` with `f` removing `trackId`. */
  function RemoveFromMatching(playlists: seq<Playlist>, id: string, trackId: string, now: nat): (r: seq<Playlist>)
    ensures |r| == |playlists|
    ensures forall k :: 0 <= k < |r| ==> r[k] == if playlists[k].id == id then WithTrackRemoved(playlists[k], trackId, now) else playlists[k]
  {
    seq(|playlists|, k requires 0 <= k < |playlists| =>
      if playlists[k].id == id then WithTrackRemoved(playlists[k], trackId, now) else playlists[k])
  }

  /** No two playlists share an id. */
  predicate DistinctPlaylistIds(playlists: seq<Playlist>) {
    forall i, j :: 0 <= i < j < |playlists| ==> playlists[i].id != playlists[j].id
  }

  /**
   * With distinct playlist ids, rewriting the first playlist with the id (the Redux slice)
   * and mapping over every playlist with the id (the persisted store) give the same list.
   */
  lemma FirstAndMatchingAgree(playlists: seq<Playlist>, id: string, track: Track, trackId: string, now: nat)
    requires DistinctPlaylistIds(playlists)
    ensures AddToFirst(playlists, id, track, now) == AddToMatching(playlists, id, track, now)
    ensures RemoveFromFirst(playlists, id, trackId, now) == RemoveFromMatching(playlists, id, trackId, now)
  {
    var i := FindPlaylistIndex(playlists, id);
    assert forall k :: 0 <= k < |playlists| && playlists[k].id == id ==> k == i;
    var a := AddToFirst(playlists, id, track, now);
    var b := AddToMatching(playlists, id, track, now);
    assert forall k :: 0 <= k < |a| ==> a[k] == b[k];
    var c := RemoveFromFirst(playlists, id, trackId, now);
    var d := RemoveFromMatching(playlists, id, trackId, now);
    assert forall k :: 0 <= k < |c| ==> c[k] == d[k];
  }

  /** When no playlist has the id, the mapped list is the list itself. */
  lemma MatchingAbsent(playlists: seq<Playlist>, id: string, track: Track, trackId: string, now: nat)
    requires FindPlaylistIndex(playlists, id) == -1
    ensures AddToMatching(playlists, id, track, now) == playlists
    ensures RemoveFromMatching(playlists, id, trackId, now) == playlists
  {
  }

  /**
   * The index `playNext` moves to, or `None` where it returns without a change: repeat-one
   * stays, the last track wraps to 0 only under repeat-all, anything else steps forward.
   * The current track is located by id, so the first track carrying it counts.
   */
  function NextIndex(tracks: seq<Track>, currentId: string, mode: RepeatMode): (r: Option<nat>)
    ensures r.Some? ==> r.value < |tracks|
    ensures FindTrackIndex(tracks, currentId) == -1 ==> r.None?
  {
    var i := FindTrackIndex(tracks, currentId);
    if i == -1 then None
    else if mode == RepeatOne then Some(i)
    else if i == |tracks| - 1 then (if mode == RepeatAll then Some(0) else None)
    else Some(i + 1)
  }

  /** No two tracks share an id. */
  predicate DistinctIds(tracks: seq<Track>) {
    forall i, j :: 0 <= i < j < |tracks| ==> tracks[i].id != tracks[j].id
  }

  /**
   * With distinct ids, `playNext` from position `i` goes to `i` under repeat-one, to
   * `(i + 1) % n` under repeat-all, and to `i + 1` under no repeat unless `i` is last.
   */
  lemma NextIndexOfPosition(tracks: seq<Track>, i: nat, mode: RepeatMode)
    requires DistinctIds(tracks) && i < |tracks|
    ensures mode == RepeatOne ==> NextIndex(tracks, tracks[i].id, mode) == Some(i)
    ensures mode == RepeatAll ==> NextIndex(tracks, tracks[i].id, mode) == Some((i + 1) % |tracks|)
    ensures mode == NoRepeat ==> NextIndex(tracks, tracks[i].id, mode) == if i + 1 < |tracks| then Some(i + 1) else None
  {
    FindDistinct(tracks, i);
    NextIndexAt(tracks, i, mode);
  }

  /** The queue step from a track found at its own position `i`. */
  lemma NextIndexAt(tracks: seq<Track>, i: nat, mode: RepeatMode)
    requires i < |tracks| && FindTrackIndex(tracks, tracks[i].id) == i
    ensures NextIndex(tracks, tracks[i].id, mode)
            == match mode
               case RepeatOne => Some(i)
               case RepeatAll => Some((i + 1) % |tracks|)
               case NoRepeat => if i + 1 < |tracks| then Some(i + 1) else None
  {
    WrapStep(i, |tracks|);
  }

  lemma WrapStep(i: nat, n: nat)
    requires i < n
    ensures (i + 1) % n == if i + 1 < n then i + 1 else 0
  {
  }

  /** With distinct ids, a track's id is found at its own position. */
  lemma FindDistinct(tracks: seq<Track>, i: nat)
    requires DistinctIds(tracks) && i < |tracks|
    ensures FindTrackIndex(tracks, tracks[i].id) == i
  {
  }

  /**
   * A track listed twice traps the queue under no repeat: `playNext` from the second copy
   * goes to the track after the FIRST copy, never past it.
   */
  lemma DuplicateReturnsAfterFirstCopy(tracks: seq<Track>, first: nat, second: nat)
    requires first < second < |tracks| - 1 && tracks[first].id == tracks[second].id
    requires forall k :: 0 <= k < first ==> tracks[k].id != tracks[first].id
    ensures NextIndex(tracks, tracks[second].id, NoRepeat) == Some(first + 1)
  {
  }

  /** The index `playPrevious` moves to: one back, never wrapping, even under repeat-all. */
  function PrevIndex(tracks: seq<Track>, currentId: string): (r: Option<nat>)
    ensures r.Some? ==> r.value + 1 < |tracks| + 1 && r.value + 1 == FindTrackIndex(tracks, currentId)
    ensures r.None? <==> FindTrackIndex(tracks, currentId) <= 0
  {
    var i := FindTrackIndex(tracks, currentId);
    if i <= 0 then None else Some(i - 1)
  }

  /** From the first track there is nowhere back to go. */
  lemma PrevIndexAtStart(tracks: seq<Track>)
    requires tracks != []
    ensures PrevIndex(tracks, tracks[0].id) == None
  {
  }

  /** `ids.filter(x => x !== id)`. */
  function WithoutId(ids: seq<string>, id: string): (r: seq<string>)
    ensures |r| <= |ids|
    ensures forall x :: x in r <==> x in ids && x != id
  {
    if ids == [] then []
    else if ids[0] == id then WithoutId(ids[1..], id)
    else [ids[0]] + WithoutId(ids[1..], id)
  }

  /** `toggleLikedTrack`: drop every copy of a liked id, or append an unliked one. */
  function ToggleMember(ids: seq<string>, id: string): (r: seq<string>)
    ensures id in r <==> id !in ids
    ensures forall x :: x != id ==> (x in r <==> x in ids)
  {
    if id in ids then WithoutId(ids, id) else ids + [id]
  }

  predicate NoDuplicates(ids: seq<string>) {
    forall i, j :: 0 <= i < j < |ids| ==> ids[i] != ids[j]
  }

  lemma {:induction false} WithoutIdKeepsNoDuplicates(ids: seq<string>, id: string)
    requires NoDuplicates(ids)
    ensures NoDuplicates(WithoutId(ids, id))
  {
    if ids != [] {
      WithoutIdKeepsNoDuplicates(ids[1..], id);
      if ids[0] != id {
        var rest := WithoutId(ids[1..], id);
        assert ids[0] !in ids[1..];
        assert ids[0] !in rest;
        var r := [ids[0]] + rest;
        forall i, j | 0 <= i < j < |r| ensures r[i] != r[j] {
          if i == 0 {
            assert r[j] == rest[j - 1] && r[j] in rest;
          } else {
            assert r[i] == rest[i - 1] && r[j] == rest[j - 1];
          }
        }
      }
    }
  }

  /** Toggling keeps a duplicate-free list duplicate-free. */
  lemma ToggleKeepsNoDuplicates(ids: seq<string>, id: string)
    requires NoDuplicates(ids)
    ensures NoDuplicates(ToggleMember(ids, id))
  {
    if id in ids {
      WithoutIdKeepsNoDuplicates(ids, id);
    }
  }

  /** Liking and unliking (or the reverse) leaves the same set of liked ids. */
  lemma ToggleTwice(ids: seq<string>, id: string)
    ensures forall x :: x in ToggleMember(ToggleMember(ids, id), id) <==> x in ids
  {
  }

  /** Liking a track that was not liked and then unliking it gives back exactly the list. */
  lemma {:induction false} ToggleTwiceRestores(ids: seq<string>, id: string)
    requires id !in ids
    ensures ToggleMember(ToggleMember(ids, id), id) == ids
  {
    WithoutAbsentIdAppend(ids, id);
  }

  lemma {:induction false} WithoutAbsentIdAppend(ids: seq<string>, id: string)
    requires id !in ids
    ensures WithoutId(ids + [id], id) == ids
  {
    if ids == [] {
      assert WithoutId([id], id) == WithoutId([], id);
    } else {
      assert (ids + [id])[1..] == ids[1..] + [id];
      WithoutAbsentIdAppend(ids[1..], id);
    }
  }

  /** `tracks.reduce((acc, t) => acc + t.duration, 0)`. */
  function TotalDuration(tracks: seq<Track>): int {
    if tracks == [] then 0 else tracks[0].duration + TotalDuration(tracks[1..])
  }

  lemma {:induction false} TotalDurationAppend(a: seq<Track>, b: seq<Track>)
    ensures TotalDuration(a + b) == TotalDuration(a) + TotalDuration(b)
  {
    if a == [] {
      assert a + b == b;
    } else {
      assert (a + b)[1..] == a[1..] + b;
      TotalDurationAppend(a[1..], b);
    }
  }

  /** Removing tracks by id subtracts exactly their durations from the total. */
  lemma {:induction false} TotalWithoutTrack(tracks: seq<Track>, id: string)
    ensures TotalDuration(WithoutTrack(tracks, id)) == TotalDuration(tracks) - TotalOfId(tracks, id)
  {
    if tracks != [] {
      TotalWithoutTrack(tracks[1..], id);
    }
  }

  /** The summed duration of the tracks carrying `id`. */
  function TotalOfId(tracks: seq<Track>, id: string): int {
    if tracks == [] then 0
    else (if tracks[0].id == id then tracks[0].duration else 0) + TotalOfId(tracks[1..], id)
  }
}
