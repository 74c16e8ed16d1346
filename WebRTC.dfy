/**
 * The broadcast engine of pkg/webrtc/service.go: the two process-wide
 * registries, the start-up of one loop per channel, the outer loop that picks
 * the current track and the inner loop that streams its pages.
 *
 * The registries map a channel ID to a sink (`*TrackLocalStaticSample`) and
 * to a pointer to the loop's `currentTime`. The pointer is modelled by the
 * class TrackTime, so the loop updates the offset through the cell it
 * registered and the maps themselves never change after registration.
 */
module WebRTC {
  import opened Wrappers
  import opened Playback

  /** The live output a channel's loop writes to; it records every sample handed to it. */
  class Sink {
    var samples: seq<Sample>

    constructor ()
      ensures samples == []
    {
      samples := [];
    }

    /** `WriteSample`: the sample is recorded; `refused` is the transport's verdict on it. */
    method WriteSample(sample: Sample, refused: bool) returns (err: bool)
      modifies this
      ensures samples == old(samples) + [sample]
      ensures err == refused
    {
      samples := samples + [sample];
      err := refused;
    }
  }

  /** The `time.Duration` variable `currentTime` of one loop, in milliseconds, shared by pointer. */
  class TrackTime {
    var ms: int

    constructor (ms0: int)
      ensures ms == ms0
    {
      ms := ms0;
    }
  }

  /** What one running loop holds: its channel, its sink and its offset cell. */
  datatype Session = Session(id: string, sink: Sink, time: TrackTime)

  class Broadcaster {
    var channelsToTracks: map<string, Sink>
    var channelsToTrackTime: map<string, TrackTime>
    var log: seq<LogEntry>
    /** Audio files opened and not yet closed. */
    var openFiles: nat

    /** No published offset is ever negative. */
    ghost predicate Valid()
      reads this, channelsToTrackTime.Values
    {
      forall id :: id in channelsToTrackTime ==> channelsToTrackTime[id].ms >= 0
    }

    /** Every registered sink is still empty and every registered offset is still one second. */
    ghost predicate JustStarted()
      reads this, channelsToTracks.Values, channelsToTrackTime.Values
    {
      && (forall id :: id in channelsToTracks ==> channelsToTracks[id].samples == [])
      && (forall id :: id in channelsToTrackTime ==> channelsToTrackTime[id].ms == InitialOffsetMs)
    }

    /** No two channels share a sink or an offset cell. */
    ghost predicate Separate()
      reads this
    {
      && (forall x, y :: x in channelsToTracks && y in channelsToTracks && x != y ==>
            channelsToTracks[x] != channelsToTracks[y])
      && (forall x, y :: x in channelsToTrackTime && y in channelsToTrackTime && x != y ==>
            channelsToTrackTime[x] != channelsToTrackTime[y])
    }

    /** The session's sink and offset cell are the ones registered for its channel. */
    ghost predicate Registered(s: Session)
      reads this
    {
      RegisteredIn(s, channelsToTracks, channelsToTrackTime)
    }

    /** The observable state of one session's loop. */
    ghost function View(s: Session): ChannelState
      reads this, s.sink, s.time
    {
      ChannelState(s.time.ms, s.sink.samples, log)
    }

    constructor ()
      ensures Valid()
      ensures channelsToTracks == map[] && channelsToTrackTime == map[]
      ensures log == [] && openFiles == 0
    {
      channelsToTracks := map[];
      channelsToTrackTime := map[];
      log := [];
      openFiles := 0;
    }

    /**
     * `GetAudioTrack`: the registered sink exactly when the channel has one,
     * otherwise the error "Track not found".
     */
    function GetAudioTrack(channelID: string): (r: Result<Sink, string>)
      reads this
      ensures r.Ok? <==> channelID in channelsToTracks
      ensures r.Ok? ==> r.value == channelsToTracks[channelID]
      ensures r.Err? ==> r.error == "Track not found"
    {
      if channelID in channelsToTracks then Ok(channelsToTracks[channelID])
      else Err("Track not found")
    }

    /** `GetCurrentTrackTime`: dereferences the registered pointer, so the key must be present. */
    function GetCurrentTrackTime(channelID: string): (ms: int)
      requires Valid()
      requires channelID in channelsToTrackTime
      reads this, channelsToTrackTime.Values
      ensures ms >= 0
    {
      channelsToTrackTime[channelID].ms
    }

    /**
     * The registration part of `StartChannel`: a new sink and a new offset cell
     * holding one second are put under `channelID` in both registries; every
     * other channel's entries stay as they were. If the sink cannot be created
     * the failure is logged and nothing is registered.
     */
    method StartChannel(channelID: string, sinkRefused: bool) returns (session: Option<Session>)
      requires Valid()
      modifies this
      ensures Valid()
      ensures session.None? <==> sinkRefused
      ensures sinkRefused ==>
                && channelsToTracks == old(channelsToTracks)
                && channelsToTrackTime == old(channelsToTrackTime)
                && log == old(log) + [SinkCreationFailed]
      ensures session.Some? ==>
                && session.value.id == channelID
                && fresh(session.value.sink) && fresh(session.value.time)
                && session.value.sink.samples == []
                && session.value.time.ms == InitialOffsetMs
                && channelsToTracks == old(channelsToTracks)[channelID := session.value.sink]
                && channelsToTrackTime == old(channelsToTrackTime)[channelID := session.value.time]
                && log == old(log)
      ensures old(JustStarted()) ==> JustStarted()
      ensures old(Separate()) ==> Separate()
      ensures openFiles == old(openFiles)
    {
      if sinkRefused {
        log := log + [SinkCreationFailed];
        return None;
      }
      var audioTrack := new Sink();
      var currentTime := new TrackTime(InitialOffsetMs);
      channelsToTracks := channelsToTracks[channelID := audioTrack];
      channelsToTrackTime := channelsToTrackTime[channelID := currentTime];
      session := Some(Session(channelID, audioTrack, currentTime));
    }

    /**
     * `StartAllChannels` without the WebRTC configuration: both registries
     * start empty; if the channel list cannot be fetched that is fatal and no
     * channel is registered, otherwise one loop is started for each listed
     * channel, in list order.
     */
    method StartAllChannels(catalog: Result<seq<string>, string>, sinkRefused: set<string>)
      returns (fatal: bool, sessions: seq<Option<Session>>)
      modifies this
      ensures Valid() && JustStarted() && Separate()
      ensures fatal <==> catalog.Err?
      ensures fatal ==>
                && channelsToTracks == map[] && channelsToTrackTime == map[]
                && sessions == [] && log == old(log) + [CatalogUnavailable]
      ensures !fatal ==>
                && |sessions| == |catalog.value|
                && channelsToTracks.Keys == channelsToTrackTime.Keys
                && channelsToTracks.Keys == Listed(catalog.value, sinkRefused)
                && log == old(log) + Refusals(catalog.value, sinkRefused)
      ensures !fatal ==> forall k :: 0 <= k < |sessions| ==>
                && (sessions[k].Some? <==> catalog.value[k] !in sinkRefused)
                && (sessions[k].Some? ==> sessions[k].value.id == catalog.value[k])
                && (sessions[k].Some? && LastListing(catalog.value, k, |catalog.value|) ==> Registered(sessions[k].value))
      ensures !fatal ==> forall k :: 0 <= k < |sessions| && sessions[k].Some? ==>
                fresh(sessions[k].value.sink) && fresh(sessions[k].value.time)
      ensures !fatal ==> OwnObjects(sessions)
      ensures openFiles == old(openFiles)
    {
      channelsToTracks := map[];
      channelsToTrackTime := map[];
      sessions := [];
      if catalog.Err? {
        log := log + [CatalogUnavailable];
        return true, [];
      }
      fatal := false;
      var channels := catalog.value;
      var i := 0;
      while i < |channels|
        invariant 0 <= i <= |channels|
        invariant StartedUpTo(channels, i, sinkRefused, sessions, old(log))
        invariant forall k :: 0 <= k < i && sessions[k].Some? ==>
                    fresh(sessions[k].value.sink) && fresh(sessions[k].value.time)
        invariant openFiles == old(openFiles)
      {
        sessions := StartNext(channels, i, sinkRefused, sessions, old(log));
        i := i + 1;
      }
      assert channels[..i] == channels;
    }

    /** The state once the first `n` listed channels are started, `log0` being the log before. */
    ghost predicate StartedUpTo(channels: seq<string>, n: nat, sinkRefused: set<string>,
                                sessions: seq<Option<Session>>, log0: seq<LogEntry>)
      reads this, channelsToTracks.Values, channelsToTrackTime.Values
    {
      && n <= |channels| && |sessions| == n
      && JustStarted() && Separate()
      && channelsToTracks.Keys == channelsToTrackTime.Keys
      && channelsToTracks.Keys == Listed(channels[..n], sinkRefused)
      && log == log0 + Refusals(channels[..n], sinkRefused)
      && SessionsIn(channels, n, sinkRefused, sessions, channelsToTracks, channelsToTrackTime)
    }

    /** One pass of the start-up loop: the `i`-th listed channel is started. */
    method StartNext(channels: seq<string>, i: nat, sinkRefused: set<string>,
                     sessions: seq<Option<Session>>, ghost log0: seq<LogEntry>)
      returns (next: seq<Option<Session>>)
      requires i < |channels|
      requires StartedUpTo(channels, i, sinkRefused, sessions, log0)
      modifies this
      ensures StartedUpTo(channels, i + 1, sinkRefused, next, log0)
      ensures next[..i] == sessions
      ensures next[i].Some? ==> fresh(next[i].value.sink) && fresh(next[i].value.time)
      ensures openFiles == old(openFiles)
    {
      var session := StartChannel(channels[i], channels[i] in sinkRefused);
      ListedPrefix(channels, i, sinkRefused);
      next := sessions + [session];
      SessionsStep(channels, i, sinkRefused, sessions, session,
                   old(channelsToTracks), old(channelsToTrackTime), channelsToTracks, channelsToTrackTime);
      assert JustStarted();
      assert next[..i] == sessions;
      assert channelsToTracks.Keys == channelsToTrackTime.Keys;
      assert channelsToTracks.Keys == Listed(channels[..i + 1], sinkRefused);
      assert log == log0 + Refusals(channels[..i + 1], sinkRefused);
    }

    /**
     * One ticker-driven page loop over an opened track: `lastGranule` starts
     * at 0, every page before end of stream is timed, published and written.
     */
    method PlayTrack(sink: Sink, time: TrackTime, pages: seq<PageRead>)
      requires Valid()
      modifies sink, time, this`log
      ensures Valid()
      ensures var r := Play(PlayState(0, ChannelState(old(time.ms), old(sink.samples), old(log))), pages).out;
              time.ms == r.currentTime && sink.samples == r.samples && log == r.log
    {
      ghost var start := PlayState(0, ChannelState(time.ms, sink.samples, log));
      var lastGranule: Granule := 0;
      var i := 0;
      while i < |pages|
        invariant 0 <= i <= |pages|
        invariant Valid()
        invariant Play(start, pages) == Play(PlayState(lastGranule, ChannelState(time.ms, sink.samples, log)), pages[i..])
        decreases |pages| - i
      {
        var page := pages[i];
        if page.EndOfStream? {
          break;
        }
        if page.parseFailed {
          log := log + [PageParseFailed];
        }
        var sampleCount := SampleCount(page.granule, lastGranule);
        lastGranule := page.granule;
        var sampleDuration := Millis(sampleCount);
        time.ms := Millis(page.granule);
        var err := sink.WriteSample(Sample(page.payload, sampleDuration), page.writeRefused);
        if err {
          log := log + [SampleWriteFailed];
        }
        assert pages[i..][1..] == pages[i + 1..];
        i := i + 1;
      }
    }

    /**
     * One pass of `StartChannel`'s outer loop: a failed lookup or a failed
     * open is logged and retried, no current track is retried silently, and an
     * opened track is streamed to the end and its file closed. The registries
     * themselves are never touched: the offset changes only through the cell.
     */
    method Cycle(s: Session, c: CycleInput)
      requires Valid()
      modifies s.sink, s.time, this`log, this`openFiles
      ensures Valid()
      ensures View(s) == CycleStep(old(View(s)), c)
      ensures channelsToTracks == old(channelsToTracks) && channelsToTrackTime == old(channelsToTrackTime)
      ensures openFiles == old(openFiles)
    {
      match c.lookup
      case LookupFailed =>
        log := log + [ScheduleLookupFailed];
      case NoCurrentTrack =>
      case Current(audio) =>
        match c.open
        case OpenFailed =>
          log := log + [AudioOpenFailed];
        case Opened(headerParsed, pages) =>
          openFiles := openFiles + 1;
          if !headerParsed {
            log := log + [HeaderParseFailed];
          }
          PlayTrack(s.sink, s.time, pages);
          openFiles := openFiles - 1;
    }

    /**
     * The first `|cycles|` passes of the outer loop of `StartChannel`. When
     * the session is the one registered for its channel, `GetCurrentTrackTime`
     * reads the offset the loop last published.
     */
    method RunChannel(s: Session, cycles: seq<CycleInput>)
      requires Valid()
      modifies s.sink, s.time, this`log, this`openFiles
      ensures Valid()
      ensures View(s) == Run(old(View(s)), cycles)
      ensures channelsToTracks == old(channelsToTracks) && channelsToTrackTime == old(channelsToTrackTime)
      ensures openFiles == old(openFiles)
      ensures s.id in channelsToTrackTime && channelsToTrackTime[s.id] == s.time ==>
                GetCurrentTrackTime(s.id) == Run(old(View(s)), cycles).currentTime
      ensures forall id :: id in channelsToTrackTime && channelsToTrackTime[id] != s.time ==>
                channelsToTrackTime[id].ms == old(channelsToTrackTime[id].ms)
      ensures forall id :: id in channelsToTracks && channelsToTracks[id] != s.sink ==>
                channelsToTracks[id].samples == old(channelsToTracks[id].samples)
    {
      ghost var start := View(s);
      var i := 0;
      while i < |cycles|
        invariant 0 <= i <= |cycles|
        invariant Valid()
        invariant View(s) == Run(start, cycles[..i])
        invariant channelsToTracks == old(channelsToTracks) && channelsToTrackTime == old(channelsToTrackTime)
        invariant openFiles == old(openFiles)
      {
        Cycle(s, cycles[i]);
        assert cycles[..i + 1][..i] == cycles[..i];
        i := i + 1;
      }
      assert cycles[..i] == cycles;
    }
  }

  /** The channels that get a registry entry: the listed ones whose sink can be created. */
  function Listed(channels: seq<string>, sinkRefused: set<string>): (r: set<string>)
    ensures r == set id | id in channels && id !in sinkRefused
    decreases |channels|
  {
    if channels == [] then {}
    else
      var last := channels[|channels| - 1];
      assert channels == channels[..|channels| - 1] + [last];
      Listed(channels[..|channels| - 1], sinkRefused) + (if last in sinkRefused then {} else {last})
  }

  /** Listing one more channel registers it unless its sink is refused, and logs a warning if it is. */
  lemma ListedPrefix(channels: seq<string>, i: nat, sinkRefused: set<string>)
    requires i < |channels|
    ensures Listed(channels[..i + 1], sinkRefused)
         == Listed(channels[..i], sinkRefused) + (if channels[i] in sinkRefused then {} else {channels[i]})
    ensures Refusals(channels[..i + 1], sinkRefused)
         == Refusals(channels[..i], sinkRefused) + (if channels[i] in sinkRefused then [SinkCreationFailed] else [])
  {
    assert channels[..i + 1][..i] == channels[..i];
  }

  /** Every started session has a sink and an offset cell of its own. */
  predicate OwnObjects(sessions: seq<Option<Session>>) {
    forall k, l :: 0 <= k < l < |sessions| && sessions[k].Some? && sessions[l].Some? ==>
      sessions[k].value.sink != sessions[l].value.sink && sessions[k].value.time != sessions[l].value.time
  }

  /** The session's sink and offset cell are the ones `tracks` and `times` hold for its channel. */
  predicate RegisteredIn(s: Session, tracks: map<string, Sink>, times: map<string, TrackTime>) {
    && s.id in tracks && tracks[s.id] == s.sink
    && s.id in times && times[s.id] == s.time
  }

  /**
   * The sessions of the first `n` listed channels: one exists exactly when the
   * channel's sink could be created, it carries the channel's ID and objects
   * of its own, and the last session of a channel is the one registered for it.
   */
  ghost predicate SessionsIn(channels: seq<string>, n: nat, sinkRefused: set<string>, sessions: seq<Option<Session>>,
                       tracks: map<string, Sink>, times: map<string, TrackTime>)
  {
    && n <= |channels| && |sessions| == n
    && OwnObjects(sessions)
    && forall k :: 0 <= k < n ==>
         && (sessions[k].Some? <==> channels[k] !in sinkRefused)
         && (sessions[k].Some? ==> sessions[k].value.id == channels[k])
         && (sessions[k].Some? && LastListing(channels, k, n) ==> RegisteredIn(sessions[k].value, tracks, times))
  }

  /** Starting the next listed channel, with objects no earlier session has, extends the sessions by one. */
  lemma SessionsStep(channels: seq<string>, i: nat, sinkRefused: set<string>, sessions: seq<Option<Session>>,
                     session: Option<Session>, tracks0: map<string, Sink>, times0: map<string, TrackTime>,
                     tracks1: map<string, Sink>, times1: map<string, TrackTime>)
    requires i < |channels|
    requires SessionsIn(channels, i, sinkRefused, sessions, tracks0, times0)
    requires session.None? <==> channels[i] in sinkRefused
    requires session.None? ==> tracks1 == tracks0 && times1 == times0
    requires session.Some? ==>
               && session.value.id == channels[i]
               && tracks1 == tracks0[channels[i] := session.value.sink]
               && times1 == times0[channels[i] := session.value.time]
               && forall k :: 0 <= k < i && sessions[k].Some? ==>
                    sessions[k].value.sink != session.value.sink && sessions[k].value.time != session.value.time
    ensures SessionsIn(channels, i + 1, sinkRefused, sessions + [session], tracks1, times1)
  {
    var next := sessions + [session];
    forall k | 0 <= k < i + 1
      ensures && (next[k].Some? <==> channels[k] !in sinkRefused)
              && (next[k].Some? ==> next[k].value.id == channels[k])
              && (next[k].Some? && LastListing(channels, k, i + 1) ==> RegisteredIn(next[k].value, tracks1, times1))
    {
      if k < i {
        assert next[k] == sessions[k];
      } else {
        assert next[k] == session;
      }
    }
    assert OwnObjects(next) by {
      forall k, l | 0 <= k < l < i + 1 && next[k].Some? && next[l].Some?
        ensures next[k].value.sink != next[l].value.sink && next[k].value.time != next[l].value.time
      {
        assert next[k] == sessions[k];
        if l < i {
          assert next[l] == sessions[l];
        }
      }
    }
  }

  /** No entry of `channels` after the `k`-th and before the `n`-th names the same channel. */
  ghost predicate LastListing(channels: seq<string>, k: nat, n: nat)
    requires k < n <= |channels|
  {
    forall j :: k < j < n ==> channels[j] != channels[k]
  }

  /** One warning for each listed channel whose sink cannot be created, in list order. */
  function Refusals(channels: seq<string>, sinkRefused: set<string>): seq<LogEntry>
    decreases |channels|
  {
    if channels == [] then []
    else
      var last := channels[|channels| - 1];
      Refusals(channels[..|channels| - 1], sinkRefused) + (if last in sinkRefused then [SinkCreationFailed] else [])
  }
}
