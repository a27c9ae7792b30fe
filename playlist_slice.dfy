/** The reducers of the playlist slice (frontend/src/redux/slices/playlistSlice.js):
    the user's playlists, the main playlist songs are added to, the playlist being
    viewed, and the request status. */
module PlaylistSlice {
  import opened Wrappers

  datatype Playlist = Playlist(id: string, name: string)

  datatype PlaylistTrack = PlaylistTrack(id: string, uri: string)

  datatype PlaylistState = PlaylistState(
    userPlaylists: seq<Playlist>,
    mainPlaylist: Option<Playlist>,
    currentPlaylistDetails: Option<Playlist>,
    currentPlaylistTracks: seq<PlaylistTrack>,
    loading: bool,
    error: Option<string>)

  const Initial := PlaylistState([], None, None, [], false, None)

  /** `playlists.find(p => p.id === id)`: the first playlist with that id, if any. */
  function FindPlaylist(playlists: seq<Playlist>, id: string): (r: Option<Playlist>)
    ensures r.None? <==> forall i :: 0 <= i < |playlists| ==> playlists[i].id != id
    ensures r.Some? ==> exists i :: 0 <= i < |playlists| && playlists[i] == r.value && r.value.id == id &&
                          forall j :: 0 <= j < i ==> playlists[j].id != id
  {
    if playlists == [] then None
    else if playlists[0].id == id then Some(playlists[0])
    else
      var r := FindPlaylist(playlists[1..], id);
      assert r.Some? ==> exists i :: 0 <= i < |playlists| && playlists[i] == r.value && r.value.id == id &&
                          forall j :: 0 <= j < i ==> playlists[j].id != id by {
        if r.Some? {
          var k :| 0 <= k < |playlists[1..]| && playlists[1..][k] == r.value && r.value.id == id &&
                   forall j :: 0 <= j < k ==> playlists[1..][j].id != id;
          assert playlists[k + 1] == r.value;
          assert forall j :: 1 <= j < k + 1 ==> playlists[j] == playlists[1..][j - 1];
        }
      }
      r
  }

  /** A playlist appended to the list is found by its id unless an earlier one has
      the same id, and appending never changes what an earlier match finds. */
  lemma {:induction false} FindAfterAppend(playlists: seq<Playlist>, p: Playlist, id: string)
    ensures FindPlaylist(playlists, id).Some? ==> FindPlaylist(playlists + [p], id) == FindPlaylist(playlists, id)
    ensures FindPlaylist(playlists, id).None? ==> FindPlaylist(playlists + [p], id) == if p.id == id then Some(p) else None
  {
    if playlists != [] {
      assert (playlists + [p])[1..] == playlists[1..] + [p];
      FindAfterAppend(playlists[1..], p, id);
    }
  }

  /** The slice's state, updated in place by its reducers. */
  class Playlists {
    var userPlaylists: seq<Playlist>
    var mainPlaylist: Option<Playlist>
    var currentPlaylistDetails: Option<Playlist>
    var currentPlaylistTracks: seq<PlaylistTrack>
    var loading: bool
    var error: Option<string>

    function State(): PlaylistState
      reads this
    {
      PlaylistState(userPlaylists, mainPlaylist, currentPlaylistDetails, currentPlaylistTracks, loading, error)
    }

    /** `initialState`. */
    constructor ()
      ensures State() == Initial
    {
      userPlaylists := [];
      mainPlaylist := None;
      currentPlaylistDetails := None;
      currentPlaylistTracks := [];
      loading := false;
      error := None;
    }

    method ClearError()
      modifies this
      ensures State() == old(State()).(error := None)
    {
      error := None;
    }

    /** `clearCurrentPlaylist`: the viewed playlist is dropped; the user's lists and
        the main playlist stay. */
    method ClearCurrentPlaylist()
      modifies this
      ensures State() == old(State()).(currentPlaylistDetails := None, currentPlaylistTracks := [])
    {
      currentPlaylistDetails := None;
      currentPlaylistTracks := [];
    }

    /** The pending case of every thunk of the slice. */
    method Pending()
      modifies this
      ensures State() == old(State()).(loading := true, error := None)
    {
      loading := true;
      error := None;
    }

    /** The rejected case of every thunk of the slice. */
    method Rejected(payload: Option<string>)
      modifies this
      ensures State() == old(State()).(loading := false, error := payload)
    {
      loading := false;
      error := payload;
    }

    /** `getUserPlaylists.fulfilled`. */
    method GetUserPlaylistsFulfilled(playlists: seq<Playlist>)
      modifies this
      ensures State() == old(State()).(loading := false, error := None, userPlaylists := playlists)
    {
      loading := false;
      userPlaylists := playlists;
      error := None;
    }

    /** `getPlaylistDetails.fulfilled`. */
    method GetPlaylistDetailsFulfilled(details: Option<Playlist>)
      modifies this
      ensures State() == old(State()).(loading := false, error := None, currentPlaylistDetails := details)
    {
      loading := false;
      currentPlaylistDetails := details;
      error := None;
    }

    /** `getPlaylistTracks.fulfilled` with the reply's `tracks`. */
    method GetPlaylistTracksFulfilled(tracks: seq<PlaylistTrack>)
      modifies this
      ensures State() == old(State()).(loading := false, error := None, currentPlaylistTracks := tracks)
    {
      loading := false;
      currentPlaylistTracks := tracks;
      error := None;
    }

    /** `createPlaylist.fulfilled`: the new playlist joins the list at the end and
        becomes the main playlist. */
    method CreatePlaylistFulfilled(created: Playlist)
      modifies this
      ensures State() == old(State()).(loading := false, error := None,
                                       userPlaylists := old(userPlaylists) + [created],
                                       mainPlaylist := Some(created))
    {
      loading := false;
      userPlaylists := userPlaylists + [created];
      mainPlaylist := Some(created);
      error := None;
    }

    /** `setMainPlaylist.fulfilled`: the main playlist becomes the first user
        playlist with the requested id, or none when there is no such playlist. */
    method SetMainPlaylistFulfilled(playlistId: string)
      modifies this
      ensures State() == old(State()).(loading := false, error := None,
                                       mainPlaylist := FindPlaylist(old(userPlaylists), playlistId))
    {
      loading := false;
      mainPlaylist := FindPlaylist(userPlaylists, playlistId);
      error := None;
    }

    /** `getMainPlaylist.fulfilled`. */
    method GetMainPlaylistFulfilled(main: Option<Playlist>)
      modifies this
      ensures State() == old(State()).(loading := false, error := None, mainPlaylist := main)
    {
      loading := false;
      mainPlaylist := main;
      error := None;
    }

    /** The fulfilled cases of `addTracksToMainPlaylist`,
        `removeTracksFromMainPlaylist` and `reorderTracksInMainPlaylist`: the server
        changed the playlist, and nothing local changes but the status. */
    method EditMainPlaylistFulfilled()
      modifies this
      ensures State() == old(State()).(loading := false, error := None)
    {
      loading := false;
      error := None;
    }
  }
}
