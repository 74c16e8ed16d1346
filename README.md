# Channel broadcast engine of a multi-channel internet radio, in Dafny

This project models the core of a Go internet-radio server. Each channel has a schedule of
tracks. At start-up every channel gets a background loop that asks the schedule for the
current track, opens its Ogg/Opus file and reads it page by page. For each page the loop
works out the page's duration from the Ogg granule position (48 000 samples per second),
writes the page as a sample to the channel's live WebRTC track, and publishes the elapsed
time within the track. Two process-wide registries make the live track (the *sink*) and the
elapsed time (the *offset*) available to the rest of the server. The model also covers the
HTTP-facing channel service, which reads and updates channels and schedules in a repository
and reports the current track together with the live offset.

Files:

- `Playback.dfy` (module `Playback`): the timing arithmetic and both loops as pure
  functions over abstract inputs, with the lemmas that state what the loops promise.
  - `PageStep` handles one page.
  - `Play` is the page loop of one track.
  - `CycleStep` is one pass of the outer loop.
  - `Run` is a sequence of passes.
- `WebRTC.dfy` (module `WebRTC`): the registries and loops as they run in place. The
  class `Broadcaster` holds the two maps `channelsToTracks` and `channelsToTrackTime`.
  A `Sink` object records the samples written to it. A `TrackTime` object stands for the
  `*time.Duration` pointer, so the loop publishes its offset through the cell it registered
  and never touches the maps again. `PlayTrack` and `RunChannel` are while-loops, and
  `Cycle` runs one pass of the outer loop in place. Each is proved to compute exactly what
  `Play`, `Run` and `CycleStep` compute.
- `ChannelService.dfy` (module `ChannelService`): the methods of `ChannelServiceImpl` over
  a map-based repository stub, in class `ChannelServiceImpl`.
- `Decimal.dfy` (module `Decimal`): `strconv.Itoa`, together with a parser proved to undo it.
- `Wrappers.dfy`: `Option` and `Result`.

Units: all times are integers in milliseconds. A granule `g` is the offset `g * 1000 / 48000`
milliseconds, rounded down. Granules are `uint64`, so the loop's subtraction wraps modulo 2^64.
The model keeps this millisecond count unbounded. Go goes on to multiply it into `int64`
nanoseconds. `DurationNs` models that product with its wrap-around. It agrees with the exact
value up to `MaxExactSamples` (about 4.4e14) samples, which is `DurationExact`, and differs
from it for every count beyond that, which is `WrapsBeyond` (`WrappedCountOverflows` is one
concrete case). Every claim below that a duration or an offset
is never negative, or never decreases, is a claim about the unbounded millisecond count.

Behaviour of the code as written:

- The first offset is one second (`service.go:56`). The offset is not reset when a track
  starts: until the new track's first page arrives it still holds the previous track's last
  value.
- A failed Ogg header parse is only logged (`service.go:80-83`). There is no backoff, and the
  pages are read anyway.
- A page read that fails with an error other than end of stream is logged and then still
  timed, published and written (`service.go:94-101`).
- A failed sample write is only logged. Neither kind of error ends the page loop.
- When a track ends, the outer loop asks for the current track again. If the schedule has not
  moved on, it gets the same track and plays it again from the first page
  (`TrackPlaysFromStart`).
- A failed schedule lookup, no current track, and a failed file open change neither the sink
  nor the offset. The registries themselves are never changed after registration.
- A channel's status does not decide whether its loop is started.
- `GetCurrentTrackTime` dereferences the registered pointer, so a channel with no entry makes
  it fail; the model states this as a precondition. `GetCurrentTrack` reads the offset for
  every channel that has a current track. A channel created after start-up therefore has no
  loop and no entry, and once a track is scheduled on it, `GetCurrentTrack` for that channel
  cannot succeed.
- `GetCurrentTrack` asks for the like count under the track's ID, but asks whether the track
  is liked under the request's channel ID (`channel_service.go:145,151`). The stub keeps the
  two keys apart in the same way.

## Model

| member | source | states |
|---|---|---|
| Playback.SampleCount | pkg/webrtc/service.go:98 | the per-page sample count is the `uint64` difference of granules: the plain difference when the granule did not go down, the difference plus 2^64 when it did |
| Playback.Millis | pkg/webrtc/service.go:100-101 | a duration is the whole number of milliseconds in the samples at 48 000 Hz, rounded down; in the model's unbounded count it is never negative |
| Playback.MillisMonotone | pkg/webrtc/service.go:101 | more samples never give a shorter duration |
| Playback.DurationNs | pkg/webrtc/service.go:100-101 | the multiplication by `time.Millisecond` gives an `int64` that is congruent to the exact nanosecond count modulo 2^64 |
| Playback.DurationExact | pkg/webrtc/service.go:100-101 | up to `MaxExactSamples` samples, no duration exceeds `MaxDurationMs`, and the nanosecond duration is exact |
| Playback.WrapsBeyond | pkg/webrtc/service.go:100-101 | above `MaxExactSamples` samples the duration exceeds `MaxDurationMs` and the nanosecond product wraps, so `MaxExactSamples` is the largest exact count |
| Playback.WrappedCountOverflows | pkg/webrtc/service.go:98-100 | a page with granule 0 after one with granule 1 gets a wrapped sample count, and the nanosecond duration of the model's millisecond count for it wraps |
| Playback.PlayLog | pkg/webrtc/service.go:94-105 | page errors are only logged: the page loop appends exactly each reached page's parse error and refused write, in page order, and nothing else |
| Playback.PageStep | pkg/webrtc/service.go:94-105 | one page: log a parse error, time the page against `lastGranule`, set `lastGranule` and the offset from the page's granule, write the sample, log a refused write |
| Playback.Play | pkg/webrtc/service.go:88-106 | the page loop: pages in order until the first end of stream |
| Playback.BeforeEof | pkg/webrtc/service.go:88-92 | the pages the loop reaches are exactly the longest prefix of the reads that has no end-of-stream marker |
| Playback.SampleCounts | pkg/webrtc/service.go:98-99 | one sample count for each page reached, each counted from the previous page's granule |
| Playback.SampleCountAt | pkg/webrtc/service.go:98-99 | the i-th count is the `uint64` difference between the i-th reached page's granule and the previous reached page's granule, or the starting `lastGranule` for the first page |
| Playback.PlayStopsAtEof | pkg/webrtc/service.go:88-92 | reads after the first end of stream never affect the result |
| Playback.PlayAppendsOnePerPage | pkg/webrtc/service.go:98-105 | playing appends exactly one sample per page before end of stream and keeps the earlier samples |
| Playback.PlayWritesPage | pkg/webrtc/service.go:98-105 | the sample written for the i-th page carries that page's payload and the duration of its sample count |
| Playback.PlayWritesEachPageOnce | pkg/webrtc/service.go:98-105 | `WriteSample` is called exactly once for each page before end of stream, in order, with that page's payload and the duration of its sample count; earlier samples are kept |
| Playback.PlayFinalOffset | pkg/webrtc/service.go:99-101 | after the loop, `lastGranule` is the last page's granule and the offset is that granule in milliseconds; if no page was reached, both keep their values |
| Playback.OffsetAfterEachPage | pkg/webrtc/service.go:101 | after the k-th page the offset is that page's granule in milliseconds, whatever the earlier pages and the earlier offset were |
| Playback.OffsetNeverDecreases | pkg/webrtc/service.go:101 | with non-decreasing granules the published offset never goes down within a track |
| Playback.SampleCountsTelescope | pkg/webrtc/service.go:98-99 | over non-decreasing granules the per-page sample counts add up to the final granule minus the starting `lastGranule` |
| Playback.TrackSampleCountsTelescope | pkg/webrtc/service.go:85-99 | each track starts from `lastGranule` 0, so its sample counts add up to its last granule |
| Playback.PlayExtends | pkg/webrtc/service.go:85-105 | the page loop only appends samples and log entries, and what it appends does not depend on the earlier history |
| Playback.AfterHeader | pkg/webrtc/service.go:80-83 | a failed header parse adds one log entry and nothing else |
| Playback.CycleStep | pkg/webrtc/service.go:61-107 | one pass of the outer loop: retry on a lookup error, on no current track or on a failed open, otherwise play the whole track |
| Playback.Run | pkg/webrtc/service.go:60-108 | a sequence of passes of the outer loop |
| Playback.TrackPlaysFromStart | pkg/webrtc/service.go:72-107 | a streaming pass appends exactly the samples of its track played from the first page, whatever came before, so a track returned again is played again in full |
| Playback.CycleStepAppends | pkg/webrtc/service.go:61-107 | a pass never removes or rewrites a written sample or a log entry |
| Playback.RunAppends | pkg/webrtc/service.go:60-108 | the same holds for any number of passes |
| Playback.RetriesChangeNothing | pkg/webrtc/service.go:61-77 | passes that fail the lookup, find no track or fail to open the file leave the offset and the sink unchanged |
| WebRTC.Sink.WriteSample | pkg/webrtc/service.go:103-105 | the sink records the sample, and the error is the transport's verdict |
| WebRTC.Broadcaster.GetAudioTrack | pkg/webrtc/service.go:115-121 | returns the registered sink exactly when the channel ID is a key, and the error "Track not found" otherwise |
| WebRTC.Broadcaster.GetCurrentTrackTime | pkg/webrtc/service.go:123-125 | needs the key to be present; the offset it reads is never negative, as an unbounded millisecond count |
| WebRTC.Broadcaster.StartChannel | pkg/webrtc/service.go:49-58 | puts a new empty sink and a new offset of one second under the channel ID in both registries and leaves every other key unchanged; if the sink cannot be created, logs and registers nothing |
| WebRTC.Broadcaster.StartAllChannels | pkg/webrtc/service.go:36-46 | both registries start empty; a failure to list channels is fatal and registers nothing; otherwise there is one session per listed channel, and the registered keys are exactly the listed channels whose sink was created; the log gains one warning per refused sink, in list order; every registered sink is empty and every registered offset is one second; no two channels share a sink or an offset cell; a session exists exactly when its channel's sink was created, it carries that channel's ID and a newly allocated sink and offset cell shared with no other session, and the last session started for a channel is the one registered under it |
| WebRTC.Broadcaster.StartNext | pkg/webrtc/service.go:44-45 | starting the next listed channel extends the start-up state by that channel: its key, its warning if the sink is refused, and a session with newly allocated objects; the earlier sessions are kept |
| WebRTC.SessionsStep | pkg/webrtc/service.go:44-58 | a session with objects no earlier session has, registered under the next listed channel, extends the sessions by one and keeps each earlier channel's last session registered |
| WebRTC.Listed | pkg/webrtc/service.go:44-58 | the registered channels are the listed channels whose sink can be created |
| WebRTC.Broadcaster.PlayTrack | pkg/webrtc/service.go:85-106 | the page loop, run in place, leaves the offset cell, the sink and the log exactly as `Play` says, starting from `lastGranule` 0 |
| WebRTC.Broadcaster.Cycle | pkg/webrtc/service.go:61-107 | one pass, run in place, leaves the session's state as `CycleStep` says, leaves both registries unchanged and closes every file it opens |
| WebRTC.Broadcaster.RunChannel | pkg/webrtc/service.go:60-108 | the outer loop, run in place, computes `Run`; through the registered pointer, `GetCurrentTrackTime` then reads the offset the loop published last; every other registered offset cell and sink keeps its value |
| Decimal.Itoa | internal/service/channel_service.go:60 | a minus sign exactly for negative IDs, then the digits with no leading zero; zero is "0" |
| Decimal.ItoaRoundTrip | internal/service/channel_service.go:60 | parsing the decimal string of an ID gives back the ID |
| Decimal.ItoaInjective | internal/service/channel_service.go:139 | distinct IDs have distinct decimal strings |
| ChannelService.ChannelServiceImpl.GetChannel | internal/service/channel_service.go:48-67 | found exactly when the channel exists; then the title, description, status and logo are copied and the ID is the decimal string of the channel's ID |
| ChannelService.ChannelServiceImpl.GetChannelIdRoundTrip | internal/service/channel_service.go:60 | the ID a found channel is reported under parses back to the requested ID |
| ChannelService.ChannelServiceImpl.CreateChannel | internal/service/channel_service.go:69-75 | stores one new channel under a fresh ID, with the request's title and description, status `StoppedChannel` and an empty logo; nothing else changes |
| ChannelService.PatchTouchesOnlyRequestedFields | internal/service/channel_service.go:92-98 | a patch overwrites the title or description only when the request carries it; the ID, status and logo are kept |
| ChannelService.UpdateIdempotent | internal/service/channel_service.go:92-100 | applying the same update twice gives the same table as applying it once |
| ChannelService.ChannelServiceImpl.UpdateChannel | internal/service/channel_service.go:81-106 | not found, with no error and no write, when the channel is missing; otherwise exactly the requested channel is patched and written back |
| ChannelService.ChannelServiceImpl.StartChannel | internal/service/channel_service.go:108-110 | the stored status becomes `ActiveChannel` and nothing else changes |
| ChannelService.ChannelServiceImpl.StopChannel | internal/service/channel_service.go:112-114 | the stored status becomes `StoppedChannel` and nothing else changes |
| ChannelService.ChannelServiceImpl.AddTrack | internal/service/channel_service.go:120-127 | an unknown track is an error and schedules nothing; otherwise one entry is appended whose end is the start date plus the track's duration |
| ChannelService.CurrentEntry | internal/service/channel_service.go:131 | the stub schedule query: the first entry of the channel that covers the given time, or none exactly when no entry covers it |
| ChannelService.CurrentEntryBelongsToChannel | internal/service/channel_service.go:131 | the entry found for a channel's decimal ID belongs to that channel |
| ChannelService.ChannelServiceImpl.CurrentTrack | internal/service/channel_service.go:131 | a track is current only if a schedule entry covering the time refers to it |
| ChannelService.ChannelServiceImpl.LoopLookup | pkg/webrtc/service.go:61-70 | the stub lookup never fails; the loop gets an audio path only from a schedule entry of its channel playing at that time whose track is known, and gets no track when no entry is playing |
| ChannelService.ChannelServiceImpl.IdleWhileNothingScheduled | pkg/webrtc/service.go:61-70 | passes whose lookups come from this schedule at times when nothing is playing on the channel leave its offset and its sink unchanged |
| ChannelService.ChannelServiceImpl.GetCurrentTrack | internal/service/channel_service.go:129-161 | "Track not found" exactly when no track is current; otherwise the track's fields with its ID in decimal, the like count for that ID, the channel's live offset (never negative as an unbounded millisecond count), and `liked` false whenever no user ID is given |

## Left out

- The WebRTC configuration with its TURN credentials, and `GetPeerConfig`: these are static data with no logic.
- The creation of pion's `TrackLocalStaticSample` and what `WriteSample` does on the network. The sink only records the samples handed to it. Whether the sink can be created, and whether each write is refused, are inputs of the model.
- Ogg parsing inside `oggreader`: pages are abstract reads. The model assumes that a read failing with an error other than end of stream still carries a header, because the loop body reads the header's granule. A reader that returns no header with such an error would make the Go code dereference nil. After a failed header parse, the loop reads pages from whatever reader handle it got back. The reader library is not part of this model.
- End of input: a page sequence without an end-of-stream marker is treated as if one followed it.
- The file system: what opening the current track's audio file gives is an input of each pass (`CycleInput.open`). It is not tied to the path the lookup returned, so the model does not say which file a pass reads.
- `os.Open` and `Close` are reduced to an open-file counter. The `defer file.Close()` inside the endless loop never runs, because the function never returns; only the explicit close at the end of each track is modelled.
- `time.Sleep`, the 20 ms ticker and all wall-clock pacing: these are real-time behaviour. The retry delay of one second is not modelled either.
- Goroutines and the unsynchronised global maps. `StartAllChannels` registers the channels one after another, in list order. Each channel's endless loop is modelled by `RunChannel` over any finite number of passes.
- Playback.Millis: the `float64` arithmetic of the Go code is replaced by exact integer division, rounded down. The `float64` quotient can fall just below a whole number, so even an ordinary granule can come out one millisecond short (granule 192960 gives 4019 ms in `float64` arithmetic and 4020 ms in the model). `float64(uint64)` also drops low bits of counts above 2^53, so a duration there can differ by more than a millisecond. The model also keeps the unbounded millisecond count: the samples and offsets it records do not wrap. Go's `int64` nanosecond wrap above `MaxDurationMs` is modelled separately by `DurationNs`. It affects every sample count and every granule above `MaxExactSamples` (about 4.4e14). That includes every wrapped count between two granules below that bound, and every granule above it (for example the all-ones granule that section 6 of RFC 3533 reserves for a page on which no packet ends).
- WebRTC.Broadcaster.StartAllChannels: if a channel is listed twice, its second start replaces the first one's registry entries. The contract ties only the last session of each channel to the registries, and so to the empty sink and the one-second offset. An earlier session of the same channel is described by its ID and its own newly allocated objects only. Whether a sink can be created is an input keyed by channel ID (`sinkRefused`), although `NewTrackLocalStaticSample` does not depend on the ID. So for a channel listed twice the model cannot express one refused creation and one successful one.
- WebRTC.Broadcaster.GetCurrentTrackTime: the nil dereference of a missing key is modelled as a precondition, not as a crash.
- Log messages: only the kind of each log entry is recorded.
- The repository, the track store and the like queries: these are map stubs. The stubs record no database failure, so the corresponding error returns are not modelled.
- ChannelService.ChannelServiceImpl.CreateChannel: how the repository assigns IDs is not shown, so the stub hands out increasing IDs.
- ChannelService.ChannelServiceImpl.StartChannel and StopChannel: the stub ignores a status change for a missing channel.
- ChannelService.ChannelServiceImpl.AddTrack: the error type of the track store is not shown, so an unknown track is the model's own error.
- Numeric status codes: `int(channel.Status)` is shown by the status's name, because the file that defines the constants is not part of this model.
- The zero-valued fields of a not-found `GetChannelResponse` are not modelled.
- `GetChannels`, `DeleteChannel` and `UploadLogo`: each only forwards one repository call and has no logic of its own.
- The browser test client and the declarations-only files for responses and users: the response records are mirrored as datatypes.
