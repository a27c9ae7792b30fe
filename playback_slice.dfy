/** The reducers of the playback slice (frontend/src/redux/slices/playbackSlice.js):
    what is playing, where, how loud, and the request status. */
module PlaybackSlice {
  import opened Wrappers

  /** The playing item; `durationMs` is absent when the provider omits it. */
  datatype Item = Item(id: string, uri: string, durationMs: Option<int>)

  datatype Device = Device(id: string, name: string)

  /** The `device` block of a playback report; absent fields are None. */
  datatype DeviceReport = DeviceReport(id: Option<string>, volumePercent: Option<int>)

  /** The payload of `getCurrentPlayback.fulfilled` when something is reported. */
  datatype PlaybackReport = PlaybackReport(
    item: Option<Item>,
    isPlaying: bool,
    progressMs: int,
    device: Option<DeviceReport>)

  datatype PlaybackState = PlaybackState(
    currentTrack: Option<Item>,
    isPlaying: bool,
    progressMs: int,
    durationMs: int,
    volumePercent: int,
    devices: seq<Device>,
    activeDeviceId: Option<string>,
    loading: bool,
    error: Option<string>)

  const Initial := PlaybackState(None, false, 0, 0, 50, [], None, false, None)

  /** `item?.duration_ms || 0`. */
  function ReportedDuration(item: Option<Item>): (d: int)
    ensures d == 0 || (item.Some? && item.value.durationMs == Some(d))
    // a reported non-zero duration is always taken
    ensures item.Some? && item.value.durationMs.Some? && item.value.durationMs.value != 0 ==>
              d == item.value.durationMs.value
  {
    if item.Some? && item.value.durationMs.Some? && item.value.durationMs.value != 0 then item.value.durationMs.value
    else 0
  }

  /** `device?.volume_percent || current`: a missing or zero volume keeps the
      current one. */
  function ReportedVolume(device: Option<DeviceReport>, current: int): (v: int)
    ensures v == current || (device.Some? && device.value.volumePercent == Some(v) && v != 0)
    ensures device.Some? && device.value.volumePercent.Some? && device.value.volumePercent.value != 0 ==>
              v == device.value.volumePercent.value
  {
    if device.Some? && device.value.volumePercent.Some? && device.value.volumePercent.value != 0 then
      device.value.volumePercent.value
    else current
  }

  /** `device?.id || current`: a missing or empty device id keeps the current one. */
  function ReportedDeviceId(device: Option<DeviceReport>, current: Option<string>): (id: Option<string>)
    ensures id == current || (device.Some? && device.value.id == id && id.Some? && id.value != "")
    ensures device.Some? && device.value.id.Some? && device.value.id.value != "" ==> id == device.value.id
  {
    if device.Some? && device.value.id.Some? && device.value.id.value != "" then device.value.id else current
  }

  /** The state after `getCurrentPlayback.fulfilled`. */
  function Refreshed(s: PlaybackState, report: Option<PlaybackReport>): (r: PlaybackState)
    // the request is over either way, and the device list is never touched here
    ensures !r.loading && r.error == None && r.devices == s.devices
    // an empty report changes nothing else
    ensures report.None? ==> r == s.(loading := false, error := None)
    // a report replaces the track, the play flag and the position
    ensures report.Some? ==>
              && r.currentTrack == report.value.item
              && r.isPlaying == report.value.isPlaying
              && r.progressMs == report.value.progressMs
              && r.durationMs == ReportedDuration(report.value.item)
              && r.volumePercent == ReportedVolume(report.value.device, s.volumePercent)
              && r.activeDeviceId == ReportedDeviceId(report.value.device, s.activeDeviceId)
  {
    if report.None? then s.(loading := false, error := None)
    else
      var p := report.value;
      s.(loading := false,
         currentTrack := p.item,
         isPlaying := p.isPlaying,
         progressMs := p.progressMs,
         durationMs := ReportedDuration(p.item),
         volumePercent := ReportedVolume(p.device, s.volumePercent),
         activeDeviceId := ReportedDeviceId(p.device, s.activeDeviceId),
         error := None)
  }

  /** A reported volume of 0 is taken for "no volume": the previous volume stays,
      so a muted device is shown at its old level. */
  lemma ZeroVolumeIgnored(s: PlaybackState, p: PlaybackReport)
    requires p.device.Some? && p.device.value.volumePercent == Some(0)
    ensures Refreshed(s, Some(p)).volumePercent == s.volumePercent
  {
  }

  /** Applying the same report twice is applying it once. */
  lemma RefreshedIdempotent(s: PlaybackState, report: Option<PlaybackReport>)
    ensures Refreshed(Refreshed(s, report), report) == Refreshed(s, report)
  {
  }

  /** The slice's state, updated in place by its reducers. */
  class Playback {
    var currentTrack: Option<Item>
    var isPlaying: bool
    var progressMs: int
    var durationMs: int
    var volumePercent: int
    var devices: seq<Device>
    var activeDeviceId: Option<string>
    var loading: bool
    var error: Option<string>

    function State(): PlaybackState
      reads this
    {
      PlaybackState(currentTrack, isPlaying, progressMs, durationMs, volumePercent,
                    devices, activeDeviceId, loading, error)
    }

    /** `initialState`. */
    constructor ()
      ensures State() == Initial
    {
      currentTrack := None;
      isPlaying := false;
      progressMs := 0;
      durationMs := 0;
      volumePercent := 50;
      devices := [];
      activeDeviceId := None;
      loading := false;
      error := None;
    }

    method ClearError()
      modifies this
      ensures State() == old(State()).(error := None)
    {
      error := None;
    }

    /** `updateProgress`. */
    method UpdateProgress(ms: int)
      modifies this
      ensures State() == old(State()).(progressMs := ms)
    {
      progressMs := ms;
    }

    /** The pending case of every thunk of the slice. */
    method Pending()
      modifies this
      ensures State() == old(State()).(loading := true, error := None)
    {
      loading := true;
      error := None;
    }

    /** The rejected case of every thunk of the slice. */
    method Rejected(payload: Option<string>)
      modifies this
      ensures State() == old(State()).(loading := false, error := payload)
    {
      loading := false;
      error := payload;
    }

    /** `getCurrentPlayback.fulfilled`; `report` is None for an empty reply. */
    method GetCurrentPlaybackFulfilled(report: Option<PlaybackReport>)
      modifies this
      ensures State() == Refreshed(old(State()), report)
    {
      loading := false;
      if report.Some? {
        var p := report.value;
        currentTrack := p.item;
        isPlaying := p.isPlaying;
        progressMs := p.progressMs;
        durationMs := if p.item.Some? && p.item.value.durationMs.Some? && p.item.value.durationMs.value != 0
                      then p.item.value.durationMs.value else 0;
        volumePercent := if p.device.Some? && p.device.value.volumePercent.Some? && p.device.value.volumePercent.value != 0
                         then p.device.value.volumePercent.value else volumePercent;
        activeDeviceId := if p.device.Some? && p.device.value.id.Some? && p.device.value.id.value != ""
                          then p.device.value.id else activeDeviceId;
      }
      error := None;
    }

    /** `playTrack.fulfilled`. */
    method PlayTrackFulfilled()
      modifies this
      ensures State() == old(State()).(loading := false, error := None, isPlaying := true)
    {
      loading := false;
      isPlaying := true;
      error := None;
    }

    /** `pausePlayback.fulfilled`. */
    method PausePlaybackFulfilled()
      modifies this
      ensures State() == old(State()).(loading := false, error := None, isPlaying := false)
    {
      loading := false;
      isPlaying := false;
      error := None;
    }

    /** `skipToNext.fulfilled` and `skipToPrevious.fulfilled`: back to the start of
        the track, playing or not as before. */
    method SkipFulfilled()
      modifies this
      ensures State() == old(State()).(loading := false, error := None, progressMs := 0)
    {
      loading := false;
      progressMs := 0;
      error := None;
    }

    /** `setVolume.fulfilled` with the volume the request asked for. */
    method SetVolumeFulfilled(requested: int)
      modifies this
      ensures State() == old(State()).(loading := false, error := None, volumePercent := requested)
    {
      loading := false;
      volumePercent := requested;
      error := None;
    }

    /** `getAvailableDevices.fulfilled`. */
    method GetAvailableDevicesFulfilled(available: seq<Device>)
      modifies this
      ensures State() == old(State()).(loading := false, error := None, devices := available)
    {
      loading := false;
      devices := available;
      error := None;
    }

    /** `setActiveDevice.fulfilled` with the device the request named. */
    method SetActiveDeviceFulfilled(deviceId: string)
      modifies this
      ensures State() == old(State()).(loading := false, error := None, activeDeviceId := Some(deviceId))
    {
      loading := false;
      activeDeviceId := Some(deviceId);
      error := None;
    }
  }
}
