/**
 * The request logic of `ChannelServiceImpl` (internal/service/channel_service.go)
 * over a repository stub: the channel table is a map from ID to
 * `ChannelInfo`, the schedule a list of entries, and the track and like
 * tables maps. The stub's queries are written out where the service relies on
 * them; database failures are not part of the stub.
 */
module ChannelService {
  import opened Wrappers
  import opened Decimal
  import WebRTC
  import Playback

  datatype ChannelStatus = StoppedChannel | ActiveChannel

  datatype ChannelInfo = ChannelInfo(id: int, title: string, description: string, status: ChannelStatus, logo: string)

  /** A track as the track table stores it; durations and times are in milliseconds. */
  datatype Track = Track(id: int, title: string, performer: string, year: int, durationMs: int, audio: string)

  datatype ScheduleEntry = ScheduleEntry(channelID: int, trackID: int, start: int, end: int)

  datatype GetChannelRequest = GetChannelRequest(id: int)
  datatype CreateChannelRequest = CreateChannelRequest(title: string, description: string)
  /** A missing field (`None`) stands for a nil pointer in the request. */
  datatype UpdateChannelRequest = UpdateChannelRequest(id: int, title: Option<string>, description: Option<string>)
  datatype ChannelStatusRequest = ChannelStatusRequest(id: int)
  datatype AddTrackRequest = AddTrackRequest(id: int, trackID: int, startDate: int)
  datatype GetCurrentTrackRequest = GetCurrentTrackRequest(id: string, userID: Option<int>)

  /**
   * `GetChannelResponse` with its `Found` flag as the constructor: the fields
   * of a response for a missing channel are left at their zero values by the
   * service and carry nothing.
   */
  datatype GetChannelResponse =
    | ChannelNotFound
    | ChannelFound(id: string, title: string, description: string, status: ChannelStatus, logo: string)

  datatype UpdateChannelResponse = UpdateChannelResponse(found: bool)

  datatype GetCurrentTrackResponse = GetCurrentTrackResponse(
    id: string, title: string, performer: string, year: int, durationMs: int,
    liked: bool, likeCount: nat, currentTimeMs: int)

  datatype ServiceError = TrackNotFound | UnknownTrack(trackID: int)

  /** The message of the error `GetCurrentTrack` returns when no track is current. */
  function Message(e: ServiceError): string {
    match e
    case TrackNotFound => "Track not found"
    case UnknownTrack(_) => "unknown track"
  }

  /** The fields of `c` that `r` carries are overwritten; every other field is kept. */
  function Patch(c: ChannelInfo, r: UpdateChannelRequest): ChannelInfo {
    var titled := if r.title.Some? then c.(title := r.title.value) else c;
    if r.description.Some? then titled.(description := r.description.value) else titled
  }

  /** The channel table after `UpdateChannel(r)`: only the requested channel is patched, if it exists. */
  function UpdateChannels(channels: map<int, ChannelInfo>, r: UpdateChannelRequest): map<int, ChannelInfo> {
    if r.id in channels then channels[r.id := Patch(channels[r.id], r)] else channels
  }

  lemma PatchTouchesOnlyRequestedFields(c: ChannelInfo, r: UpdateChannelRequest)
    ensures var p := Patch(c, r);
            && p.id == c.id && p.status == c.status && p.logo == c.logo
            && p.title == (if r.title.Some? then r.title.value else c.title)
            && p.description == (if r.description.Some? then r.description.value else c.description)
  {
  }

  /** Applying the same update twice leaves the table as applying it once does. */
  lemma UpdateIdempotent(channels: map<int, ChannelInfo>, r: UpdateChannelRequest)
    ensures UpdateChannels(UpdateChannels(channels, r), r) == UpdateChannels(channels, r)
  {
  }

  /** An entry of `channel` (given as the decimal string the callers use) playing at `now`. */
  predicate Covers(e: ScheduleEntry, channel: string, now: int) {
    Itoa(e.channelID) == channel && e.start <= now < e.end
  }

  /** The stub of the schedule query: the position of the first entry playing on `channel` at `now`. */
  function CurrentEntry(schedule: seq<ScheduleEntry>, channel: string, now: int): (r: Option<nat>)
    ensures r.Some? ==> r.value < |schedule| && Covers(schedule[r.value], channel, now)
    ensures r.Some? ==> forall j :: 0 <= j < r.value ==> !Covers(schedule[j], channel, now)
    ensures r.None? ==> forall j :: 0 <= j < |schedule| ==> !Covers(schedule[j], channel, now)
    decreases |schedule|
  {
    if schedule == [] then None
    else if Covers(schedule[0], channel, now) then Some(0)
    else
      assert forall j :: 1 <= j < |schedule| ==> schedule[j] == schedule[1..][j - 1];
      match CurrentEntry(schedule[1..], channel, now)
      case None => None
      case Some(k) => Some(k + 1)
  }

  /** The entry found for a channel's decimal ID belongs to that channel and no other. */
  lemma CurrentEntryBelongsToChannel(schedule: seq<ScheduleEntry>, channelID: int, now: int)
    ensures var r := CurrentEntry(schedule, Itoa(channelID), now);
            r.Some? ==> schedule[r.value].channelID == channelID
  {
    var r := CurrentEntry(schedule, Itoa(channelID), now);
    if r.Some? {
      ItoaInjective(schedule[r.value].channelID, channelID);
    }
  }

  class ChannelServiceImpl {
    var channels: map<int, ChannelInfo>
    var schedule: seq<ScheduleEntry>
    var tracks: map<int, Track>
    /** Like counts by the track ID string `LikeCount` is given; a missing key counts none. */
    var likeCounts: map<string, nat>
    /** The pairs `(ID, user)` that `IsTrackLiked` answers true for. */
    var likes: set<(string, int)>
    /** The ID the repository gives the next created channel. */
    var nextID: int

    /** Every stored channel carries its own key, and `nextID` is fresh. */
    ghost predicate Valid()
      reads this
    {
      && (forall id :: id in channels ==> channels[id].id == id)
      && (forall id :: id in channels ==> id < nextID)
    }

    constructor ()
      ensures Valid()
      ensures channels == map[] && schedule == [] && tracks == map[]
      ensures likeCounts == map[] && likes == {} && nextID == 1
    {
      channels := map[];
      schedule := [];
      tracks := map[];
      likeCounts := map[];
      likes := {};
      nextID := 1;
    }

    /**
     * `GetChannel`: found exactly when the channel exists, and then a copy of
     * its title, description, status and logo with its ID in decimal.
     */
    function GetChannel(r: GetChannelRequest): (res: GetChannelResponse)
      reads this
      ensures res.ChannelFound? <==> r.id in channels
      ensures res.ChannelFound? ==>
                var c := channels[r.id];
                && res.id == Itoa(c.id)
                && res.title == c.title && res.description == c.description
                && res.status == c.status && res.logo == c.logo
    {
      if r.id !in channels then ChannelNotFound
      else
        var c := channels[r.id];
        ChannelFound(Itoa(c.id), c.title, c.description, c.status, c.logo)
    }

    /** The ID a found channel is reported under reads back as the ID it was asked for. */
    lemma GetChannelIdRoundTrip(r: GetChannelRequest)
      requires Valid()
      ensures GetChannel(r).ChannelFound? ==> Atoi(GetChannel(r).id) == r.id
    {
      if r.id in channels {
        ItoaRoundTrip(r.id);
      }
    }

    /**
     * `CreateChannel`: a new channel with the request's title and description,
     * status `StoppedChannel` and no logo, under a fresh ID; nothing else changes.
     */
    method CreateChannel(r: CreateChannelRequest)
      requires Valid()
      modifies this
      ensures Valid()
      ensures old(nextID) !in old(channels)
      ensures channels == old(channels)[old(nextID) := ChannelInfo(old(nextID), r.title, r.description, StoppedChannel, "")]
      ensures schedule == old(schedule) && tracks == old(tracks)
      ensures likeCounts == old(likeCounts) && likes == old(likes)
    {
      var channel := ChannelInfo(nextID, r.title, r.description, StoppedChannel, "");
      channels := channels[nextID := channel];
      nextID := nextID + 1;
    }

    /**
     * `UpdateChannel`: not found, with no error and no write, when the channel
     * does not exist; otherwise the fields the request carries are overwritten
     * and the channel is written back.
     */
    method UpdateChannel(r: UpdateChannelRequest) returns (res: UpdateChannelResponse)
      requires Valid()
      modifies this`channels
      ensures Valid()
      ensures res.found <==> r.id in old(channels)
      ensures channels == UpdateChannels(old(channels), r)
      ensures !res.found ==> channels == old(channels)
    {
      if r.id !in channels {
        return UpdateChannelResponse(false);
      }
      res := UpdateChannelResponse(true);
      var channel := channels[r.id];
      if r.title.Some? {
        channel := channel.(title := r.title.value);
      }
      if r.description.Some? {
        channel := channel.(description := r.description.value);
      }
      channels := channels[r.id := channel];
    }

    /** `ChangeChannelStatus` of the stub: an existing channel gets the status, a missing one is ignored. */
    method ChangeChannelStatus(id: int, status: ChannelStatus)
      requires Valid()
      modifies this`channels
      ensures Valid()
      ensures id in old(channels) ==> channels == old(channels)[id := old(channels)[id].(status := status)]
      ensures id !in old(channels) ==> channels == old(channels)
    {
      if id in channels {
        channels := channels[id := channels[id].(status := status)];
      }
    }

    /** `StartChannel`: the stored status becomes `ActiveChannel`. */
    method StartChannel(r: ChannelStatusRequest)
      requires Valid()
      modifies this`channels
      ensures Valid()
      ensures r.id in old(channels) ==> channels == old(channels)[r.id := old(channels)[r.id].(status := ActiveChannel)]
      ensures r.id !in old(channels) ==> channels == old(channels)
    {
      ChangeChannelStatus(r.id, ActiveChannel);
    }

    /** `StopChannel`: the stored status becomes `StoppedChannel`. */
    method StopChannel(r: ChannelStatusRequest)
      requires Valid()
      modifies this`channels
      ensures Valid()
      ensures r.id in old(channels) ==> channels == old(channels)[r.id := old(channels)[r.id].(status := StoppedChannel)]
      ensures r.id !in old(channels) ==> channels == old(channels)
    {
      ChangeChannelStatus(r.id, StoppedChannel);
    }

    /**
     * `AddTrack`: the track is looked up first; an unknown track is an error
     * and nothing is scheduled, otherwise one entry is appended that ends at
     * the start date plus the track's duration.
     */
    method AddTrack(r: AddTrackRequest) returns (err: Option<ServiceError>)
      modifies this`schedule
      ensures err.Some? <==> r.trackID !in tracks
      ensures err.Some? ==> err.value == UnknownTrack(r.trackID) && schedule == old(schedule)
      ensures err.None? ==>
                schedule == old(schedule) + [ScheduleEntry(r.id, r.trackID, r.startDate, r.startDate + tracks[r.trackID].durationMs)]
    {
      if r.trackID !in tracks {
        return Some(UnknownTrack(r.trackID));
      }
      var track := tracks[r.trackID];
      schedule := schedule + [ScheduleEntry(r.id, r.trackID, r.startDate, r.startDate + track.durationMs)];
      err := None;
    }

    /** The stub of the repository's `GetCurrentTrack`: the track of the first entry playing at `now`. */
    function CurrentTrack(channel: string, now: int): (t: Option<Track>)
      reads this
      ensures t.Some? ==> exists i :: 0 <= i < |schedule| && Covers(schedule[i], channel, now)
                                      && schedule[i].trackID in tracks && t.value == tracks[schedule[i].trackID]
    {
      match CurrentEntry(schedule, channel, now)
      case None => None
      case Some(i) =>
        if schedule[i].trackID in tracks then Some(tracks[schedule[i].trackID]) else None
    }

    /**
     * What the broadcast loop of `channel` gets from the schedule lookup at
     * `now`: the stub never fails; the loop gets an audio path only from a
     * schedule entry playing at `now` whose track is known, and gets no track
     * when no entry is playing.
     */
    function LoopLookup(channel: string, now: int): (l: Playback.Lookup)
      reads this
      ensures !l.LookupFailed?
      ensures l.Current? ==> exists i :: 0 <= i < |schedule| && Covers(schedule[i], channel, now)
                                       && schedule[i].trackID in tracks && l.audio == tracks[schedule[i].trackID].audio
      ensures (forall i :: 0 <= i < |schedule| ==> !Covers(schedule[i], channel, now)) ==> l.NoCurrentTrack?
    {
      match CurrentTrack(channel, now)
      case None => Playback.NoCurrentTrack
      case Some(t) => Playback.Current(t.audio)
    }

    /**
     * A broadcast loop whose lookups come from this schedule at times when no
     * entry of its channel is playing only retries: its offset and its sink
     * stay exactly as they were.
     */
    lemma IdleWhileNothingScheduled(channel: string, times: seq<int>, cs: Playback.ChannelState,
                                    cycles: seq<Playback.CycleInput>)
      requires |cycles| == |times|
      requires forall k :: 0 <= k < |cycles| ==> cycles[k].lookup == LoopLookup(channel, times[k])
      requires forall k, i :: 0 <= k < |times| && 0 <= i < |schedule| ==> !Covers(schedule[i], channel, times[k])
      ensures Playback.Run(cs, cycles).currentTime == cs.currentTime
      ensures Playback.Run(cs, cycles).samples == cs.samples
    {
      forall k | 0 <= k < |cycles|
        ensures !Playback.Streams(cycles[k])
      {
        assert LoopLookup(channel, times[k]).NoCurrentTrack?;
      }
      Playback.RetriesChangeNothing(cs, cycles);
    }

    /**
     * `GetCurrentTrack`: "Track not found" when nothing is playing; otherwise
     * the track's fields with its ID in decimal, the like count of that ID, the
     * channel's live offset, and `liked` false whenever no user is given.
     * The offset is read through the channel's registered pointer, so a channel
     * with a current track must have a running loop.
     */
    function GetCurrentTrack(r: GetCurrentTrackRequest, live: WebRTC.Broadcaster, now: int)
      : (res: Result<GetCurrentTrackResponse, ServiceError>)
      requires live.Valid()
      requires CurrentTrack(r.id, now).Some? ==> r.id in live.channelsToTrackTime
      reads this, live, live.channelsToTrackTime.Values
      ensures res.Err? <==> CurrentTrack(r.id, now).None?
      ensures res.Err? ==> res.error == TrackNotFound && Message(res.error) == "Track not found"
      ensures res.Ok? ==>
                var t := CurrentTrack(r.id, now).value;
                var v := res.value;
                && v.id == Itoa(t.id) && v.title == t.title && v.performer == t.performer
                && v.year == t.year && v.durationMs == t.durationMs
                && v.currentTimeMs == live.channelsToTrackTime[r.id].ms && v.currentTimeMs >= 0
                && v.likeCount == (if v.id in likeCounts then likeCounts[v.id] else 0)
                && (v.liked <==> r.userID.Some? && (r.id, r.userID.value) in likes)
    {
      match CurrentTrack(r.id, now)
      case None => Err(TrackNotFound)
      case Some(t) =>
        var id := Itoa(t.id);
        var likeCount := if id in likeCounts then likeCounts[id] else 0;
        var liked := if r.userID.Some? then (r.id, r.userID.value) in likes else false;
        Ok(GetCurrentTrackResponse(id, t.title, t.performer, t.year, t.durationMs,
                                   liked, likeCount, live.GetCurrentTrackTime(r.id)))
    }
  }
}
