/** The reducers of the queue slice (frontend/src/redux/slices/queueSlice.js): the
    client-side list of tracks the guest has queued, the quota the server last
    reported, and the request status. The network thunks are not modelled; their
    outcomes arrive as the arguments of the fulfilled and rejected actions. */
module QueueSlice {
  import opened Wrappers

  datatype Track = Track(id: string, name: string, uri: string)

  /** The quota block the server attaches to an admitted request. */
  datatype RateLimitInfo = RateLimitInfo(songsAdded: int, remaining: int, resetTime: Option<int>)

  datatype QueueState = QueueState(
    queuedTracks: seq<Track>,
    rateLimit: RateLimitInfo,
    loading: bool,
    error: Option<string>)

  const Initial := QueueState([], RateLimitInfo(0, 3, None), false, None)

  /** `tracks.filter(track => track.id !== id)`. */
  function WithoutTrack(tracks: seq<Track>, id: string): (r: seq<Track>)
    ensures |r| <= |tracks|
    ensures forall t :: t in r ==> t in tracks && t.id != id
  {
    if tracks == [] then []
    else (if tracks[0].id == id then [] else [tracks[0]]) + WithoutTrack(tracks[1..], id)
  }

  /** Every track with that id goes, every other track stays as often as it was
      there. */
  lemma {:induction false} WithoutTrackCounts(tracks: seq<Track>, id: string, t: Track)
    ensures multiset(WithoutTrack(tracks, id))[t] == if t.id == id then 0 else multiset(tracks)[t]
  {
    if tracks != [] {
      WithoutTrackCounts(tracks[1..], id, t);
      assert tracks == [tracks[0]] + tracks[1..];
    }
  }

  lemma {:induction false} WithoutTrackAppend(a: seq<Track>, b: seq<Track>, id: string)
    ensures WithoutTrack(a + b, id) == WithoutTrack(a, id) + WithoutTrack(b, id)
  {
    if a != [] {
      var head := if a[0].id == id then [] else [a[0]];
      var rest, tail := WithoutTrack(a[1..], id), WithoutTrack(b, id);
      assert WithoutTrack(a, id) == head + rest;
      assert (a + b)[0] == a[0] && (a + b)[1..] == a[1..] + b;
      assert WithoutTrack(a + b, id) == head + WithoutTrack(a[1..] + b, id);
      WithoutTrackAppend(a[1..], b, id);
      assert head + (rest + tail) == (head + rest) + tail;
    } else {
      assert a + b == b;
    }
  }

  /** A queue without that id is left as it is, in its order. */
  lemma {:induction false} WithoutAbsentTrack(tracks: seq<Track>, id: string)
    requires forall t :: t in tracks ==> t.id != id
    ensures WithoutTrack(tracks, id) == tracks
  {
    if tracks != [] {
      WithoutAbsentTrack(tracks[1..], id);
      assert tracks == [tracks[0]] + tracks[1..];
    }
  }

  /** Removing twice is removing once. */
  lemma WithoutTrackIdempotent(tracks: seq<Track>, id: string)
    ensures WithoutTrack(WithoutTrack(tracks, id), id) == WithoutTrack(tracks, id)
  {
    WithoutAbsentTrack(WithoutTrack(tracks, id), id);
  }

  /** Removing a track by its id right after adding it leaves what removing alone
      would have left. */
  lemma RemoveUndoesAdd(tracks: seq<Track>, t: Track)
    ensures WithoutTrack(tracks + [t], t.id) == WithoutTrack(tracks, t.id)
  {
    WithoutTrackAppend(tracks, [t], t.id);
    assert WithoutTrack([t], t.id) == [];
  }

  /** The slice's state, updated in place by its reducers. */
  class Queue {
    var queuedTracks: seq<Track>
    var rateLimit: RateLimitInfo
    var loading: bool
    var error: Option<string>

    function State(): QueueState
      reads this
    {
      QueueState(queuedTracks, rateLimit, loading, error)
    }

    /** `initialState`. */
    constructor ()
      ensures State() == Initial
    {
      queuedTracks := [];
      rateLimit := RateLimitInfo(0, 3, None);
      loading := false;
      error := None;
    }

    method ClearError()
      modifies this
      ensures State() == old(State()).(error := None)
    {
      error := None;
    }

    /** `trackAddedToQueue`: the track goes to the end. */
    method TrackAddedToQueue(track: Track)
      modifies this
      ensures State() == old(State()).(queuedTracks := old(queuedTracks) + [track])
      ensures queuedTracks[..|queuedTracks| - 1] == old(queuedTracks) && queuedTracks[|queuedTracks| - 1] == track
    {
      queuedTracks := queuedTracks + [track];
    }

    /** `removeTrackFromQueue`. */
    method RemoveTrackFromQueue(id: string)
      modifies this
      ensures State() == old(State()).(queuedTracks := WithoutTrack(old(queuedTracks), id))
    {
      queuedTracks := WithoutTrack(queuedTracks, id);
    }

    /** `updateQueueAfterPlayback`: the head was played. */
    method UpdateQueueAfterPlayback()
      modifies this
      ensures old(queuedTracks) == [] ==> State() == old(State())
      ensures old(queuedTracks) != [] ==>
                State() == old(State()).(queuedTracks := old(queuedTracks)[1..])
    {
      if |queuedTracks| > 0 {
        queuedTracks := queuedTracks[1..];
      }
    }

    /** The pending case of every thunk of the slice. */
    method Pending()
      modifies this
      ensures State() == old(State()).(loading := true, error := None)
    {
      loading := true;
      error := None;
    }

    /** The rejected case of every thunk of the slice. */
    method Rejected(payload: Option<string>)
      modifies this
      ensures State() == old(State()).(loading := false, error := payload)
    {
      loading := false;
      error := payload;
    }

    /** `addTrackToQueue.fulfilled`: the quota is replaced only when the reply
        carries one; the local list is left to `trackAddedToQueue`. */
    method AddTrackToQueueFulfilled(payloadRateLimit: Option<RateLimitInfo>)
      modifies this
      ensures State() == old(State()).(
                loading := false, error := None,
                rateLimit := if payloadRateLimit.Some? then payloadRateLimit.value else old(rateLimit))
    {
      loading := false;
      if payloadRateLimit.Some? {
        rateLimit := payloadRateLimit.value;
      }
      error := None;
    }

    /** `clearQueue.fulfilled`. */
    method ClearQueueFulfilled()
      modifies this
      ensures State() == old(State()).(loading := false, error := None, queuedTracks := [])
    {
      loading := false;
      queuedTracks := [];
      error := None;
    }
  }
}
