/**
 * The timing arithmetic and the two loops of a channel's broadcast, as pure
 * functions over abstract inputs. The Ogg reader is replaced by a finite
 * sequence of page reads that may end with an end-of-stream marker; the
 * schedule lookup and the file open are replaced by their results.
 *
 * WebRTC.dfy runs the same loops imperatively and proves that they compute
 * exactly these functions; the lemmas here state what the loops promise.
 */
module Playback {

  /** Granule positions and `lastGranule` are `uint64`: arithmetic wraps modulo 2^64. */
  const Uint64Modulus: int := 0x1_0000_0000_0000_0000

  /** Opus in Ogg is timed at 48 000 samples per second. */
  const SampleRate: nat := 48000

  /** Before the first page of the first track the published offset is one second. */
  const InitialOffsetMs: int := 1000

  type Granule = g: int | 0 <= g < Uint64Modulus

  type Bytes = seq<bv8>

  /**
   * One call of `ParseNextPage`, with what the transport then did with the
   * page's sample. `parseFailed` is a non-EOF error reported together with a
   * header; `writeRefused` is the error `WriteSample` returns for this page.
   */
  datatype PageRead =
    | Page(payload: Bytes, granule: Granule, parseFailed: bool, writeRefused: bool)
    | EndOfStream

  /** A `media.Sample`: the page payload and its duration in whole milliseconds. */
  datatype Sample = Sample(data: Bytes, durationMs: int)

  /** What the loops report to the logger (the messages themselves are not modelled). */
  datatype LogEntry =
    | CatalogUnavailable
    | SinkCreationFailed
    | ScheduleLookupFailed
    | AudioOpenFailed
    | HeaderParseFailed
    | PageParseFailed
    | SampleWriteFailed

  /**
   * What one channel's loop makes observable: the offset published through the
   * registry, every sample handed to the sink, and the log.
   */
  datatype ChannelState = ChannelState(currentTime: int, samples: seq<Sample>, log: seq<LogEntry>)

  /** The state of the inner loop: `lastGranule` is local to one track. */
  datatype PlayState = PlayState(lastGranule: Granule, out: ChannelState)

  /** The `uint64` subtraction `g - last`. */
  function SampleCount(g: Granule, last: Granule): (n: Granule)
    ensures last <= g ==> n == g - last
    ensures g < last ==> n == g - last + Uint64Modulus
  {
    (g - last) % Uint64Modulus
  }

  /** Whole milliseconds in `samples` samples, truncated like the conversion to `time.Duration`. */
  function Millis(samples: int): (ms: int)
    requires samples >= 0
    ensures 0 <= ms
    ensures ms * SampleRate <= samples * 1000 < (ms + 1) * SampleRate
  {
    samples * 1000 / SampleRate
  }

  lemma MillisMonotone(a: int, b: int)
    requires 0 <= a <= b
    ensures Millis(a) <= Millis(b)
  {
  }

  /** The largest millisecond count whose `time.Duration` in nanoseconds fits in an `int64`. */
  const MaxDurationMs: int := 9223372036854

  /** The largest sample count whose duration in milliseconds is at most `MaxDurationMs`. */
  const MaxExactSamples: int := 442721857769039

  /**
   * `time.Duration(ms) * time.Millisecond`: the product in nanoseconds, which
   * Go wraps to a signed 64-bit value.
   */
  function DurationNs(ms: int): (ns: int)
    ensures -0x8000_0000_0000_0000 <= ns < 0x8000_0000_0000_0000
    ensures (ms * 1_000_000 - ns) % Uint64Modulus == 0
  {
    (ms * 1_000_000 + 0x8000_0000_0000_0000) % Uint64Modulus - 0x8000_0000_0000_0000
  }

  /** Up to `MaxExactSamples` samples the nanosecond duration is exact. */
  lemma DurationExact(samples: int)
    requires 0 <= samples <= MaxExactSamples
    ensures Millis(samples) <= MaxDurationMs
    ensures DurationNs(Millis(samples)) == Millis(samples) * 1_000_000
  {
    MillisMonotone(samples, MaxExactSamples);
  }

  /**
   * Above `MaxExactSamples` samples the duration exceeds `MaxDurationMs`, so
   * the nanosecond product no longer fits and `DurationNs` differs from it.
   */
  lemma WrapsBeyond(samples: int)
    requires samples > MaxExactSamples
    ensures Millis(samples) > MaxDurationMs
    ensures DurationNs(Millis(samples)) != Millis(samples) * 1_000_000
  {
  }

  /**
   * A wrapped sample count, here a page with granule 0 after one with granule
   * 1, has a duration in milliseconds far above `MaxDurationMs`, so the
   * nanosecond duration computed from it wraps. The numbers are those of the
   * model's exact millisecond count; Go's `float64` division rounds the count
   * first and so wraps to a different value.
   */
  lemma WrappedCountOverflows()
    ensures Millis(SampleCount(0, 1)) == 384307168202282325
    ensures Millis(SampleCount(0, 1)) > MaxDurationMs
    ensures DurationNs(Millis(SampleCount(0, 1))) == 6148914691236183872
    ensures DurationNs(Millis(SampleCount(0, 1))) != Millis(SampleCount(0, 1)) * 1_000_000
  {
  }

  /** What the body of the page loop does with one page that is not end of stream. */
  function PageStep(st: PlayState, p: PageRead): PlayState
    requires p.Page?
  {
    var parsed := if p.parseFailed then st.out.log + [PageParseFailed] else st.out.log;
    var sample := Sample(p.payload, Millis(SampleCount(p.granule, st.lastGranule)));
    var written := if p.writeRefused then parsed + [SampleWriteFailed] else parsed;
    PlayState(p.granule, ChannelState(Millis(p.granule), st.out.samples + [sample], written))
  }

  /** The log entries the loop body adds for one page: its parse error, then its refused write. */
  function PageLog(p: PageRead): seq<LogEntry> {
    match p
    case EndOfStream => []
    case Page(_, _, parseFailed, writeRefused) =>
      (if parseFailed then [PageParseFailed] else []) + (if writeRefused then [SampleWriteFailed] else [])
  }

  /** The log entries of a sequence of pages, in page order. */
  function Logs(pages: seq<PageRead>): seq<LogEntry>
    decreases |pages|
  {
    if pages == [] then [] else PageLog(pages[0]) + Logs(pages[1..])
  }

  /** The page loop: pages are processed in order until the first end of stream. */
  function Play(st: PlayState, pages: seq<PageRead>): PlayState
    decreases |pages|
  {
    if pages == [] || pages[0].EndOfStream? then st
    else Play(PageStep(st, pages[0]), pages[1..])
  }

  /** The pages the loop reaches: the longest prefix free of end-of-stream markers. */
  function BeforeEof(pages: seq<PageRead>): (played: seq<PageRead>)
    ensures played <= pages
    ensures forall i :: 0 <= i < |played| ==> played[i].Page?
    ensures |played| < |pages| ==> pages[|played|].EndOfStream?
    decreases |pages|
  {
    if pages == [] || pages[0].EndOfStream? then [] else [pages[0]] + BeforeEof(pages[1..])
  }

  /** The number of samples each reached page covers, as the loop computes them before dividing. */
  function SampleCounts(last: Granule, pages: seq<PageRead>): (counts: seq<Granule>)
    ensures |counts| == |BeforeEof(pages)|
    decreases |pages|
  {
    if pages == [] || pages[0].EndOfStream? then []
    else [SampleCount(pages[0].granule, last)] + SampleCounts(pages[0].granule, pages[1..])
  }

  /**
   * The i-th count is the `uint64` difference between the i-th reached page's
   * granule and the previous reached page's, or `last` for the first page.
   */
  lemma {:induction false} SampleCountAt(last: Granule, pages: seq<PageRead>, i: nat)
    requires i < |BeforeEof(pages)|
    ensures SampleCounts(last, pages)[i]
         == SampleCount(BeforeEof(pages)[i].granule, if i == 0 then last else BeforeEof(pages)[i - 1].granule)
    decreases i
  {
    if i > 0 {
      SampleCountAt(pages[0].granule, pages[1..], i - 1);
      assert BeforeEof(pages)[i] == BeforeEof(pages[1..])[i - 1];
      assert BeforeEof(pages)[i - 1] == (if i == 1 then pages[0] else BeforeEof(pages[1..])[i - 2]);
      assert SampleCounts(last, pages)[i] == SampleCounts(pages[0].granule, pages[1..])[i - 1];
    }
  }

  /** `lastGranule` after the loop: the granule of the last page reached, or `last` if none. */
  function FinalGranule(last: Granule, pages: seq<PageRead>): Granule {
    var played := BeforeEof(pages);
    if played == [] then last else played[|played| - 1].granule
  }

  function Sum(xs: seq<int>): int {
    if xs == [] then 0 else xs[0] + Sum(xs[1..])
  }

  /** The granules of the pages reached never go down. */
  predicate NonDecreasing(pages: seq<PageRead>) {
    var played := BeforeEof(pages);
    forall i, j :: 0 <= i <= j < |played| ==> played[i].granule <= played[j].granule
  }

  lemma AllPagesReached(pages: seq<PageRead>)
    requires forall i :: 0 <= i < |pages| ==> pages[i].Page?
    ensures BeforeEof(pages) == pages
  {
  }

  /** Everything after the first end of stream is never read. */
  lemma {:induction false} PlayStopsAtEof(st: PlayState, pages: seq<PageRead>)
    ensures Play(st, pages) == Play(st, BeforeEof(pages))
    decreases |pages|
  {
    if pages != [] && pages[0].Page? {
      PlayStopsAtEof(PageStep(st, pages[0]), pages[1..]);
      assert ([pages[0]] + BeforeEof(pages[1..]))[1..] == BeforeEof(pages[1..]);
    }
  }

  /** The page loop appends one sample for each page before end of stream and keeps the earlier ones. */
  lemma {:induction false} PlayAppendsOnePerPage(st: PlayState, pages: seq<PageRead>)
    ensures var after := Play(st, pages).out.samples;
            && |after| == |st.out.samples| + |BeforeEof(pages)|
            && after[..|st.out.samples|] == st.out.samples
    decreases |pages|
  {
    if pages != [] && pages[0].Page? {
      var next := PageStep(st, pages[0]);
      PlayAppendsOnePerPage(next, pages[1..]);
      var after := Play(next, pages[1..]).out.samples;
      assert after[..|st.out.samples|] == after[..|next.out.samples|][..|st.out.samples|];
    }
  }

  /** The sample appended for the i-th page reached carries its payload and the duration of its sample count. */
  lemma {:induction false} PlayWritesPage(st: PlayState, pages: seq<PageRead>, i: nat)
    requires i < |BeforeEof(pages)|
    ensures |Play(st, pages).out.samples| == |st.out.samples| + |BeforeEof(pages)|
    ensures Play(st, pages).out.samples[|st.out.samples| + i]
         == Sample(BeforeEof(pages)[i].payload, Millis(SampleCounts(st.lastGranule, pages)[i]))
    decreases i
  {
    PlayAppendsOnePerPage(st, pages);
    var p := pages[0];
    var next := PageStep(st, p);
    var after := Play(next, pages[1..]).out.samples;
    assert Play(st, pages).out.samples == after;
    if i == 0 {
      PlayAppendsOnePerPage(next, pages[1..]);
      assert after[|st.out.samples|] == after[..|next.out.samples|][|st.out.samples|];
    } else {
      PlayWritesPage(next, pages[1..], i - 1);
      assert BeforeEof(pages)[i] == BeforeEof(pages[1..])[i - 1];
      assert SampleCounts(st.lastGranule, pages)[i] == SampleCounts(p.granule, pages[1..])[i - 1];
    }
  }

  /**
   * `WriteSample` is called exactly once for each page before end of stream,
   * in page order, with that page's payload and the duration of the samples
   * between it and the previous page; nothing already written changes.
   */
  lemma PlayWritesEachPageOnce(st: PlayState, pages: seq<PageRead>)
    ensures var played := BeforeEof(pages);
            var before := st.out.samples;
            var after := Play(st, pages).out.samples;
            && |after| == |before| + |played|
            && after[..|before|] == before
            && forall i :: 0 <= i < |played| ==>
                 after[|before| + i] == Sample(played[i].payload, Millis(SampleCounts(st.lastGranule, pages)[i]))
  {
    PlayAppendsOnePerPage(st, pages);
    forall i | 0 <= i < |BeforeEof(pages)|
      ensures Play(st, pages).out.samples[|st.out.samples| + i]
           == Sample(BeforeEof(pages)[i].payload, Millis(SampleCounts(st.lastGranule, pages)[i]))
    {
      PlayWritesPage(st, pages, i);
    }
  }

  /**
   * A page error is only logged: the log gains exactly each reached page's
   * parse error and refused write, in page order, and nothing else.
   */
  lemma {:induction false} PlayLog(st: PlayState, pages: seq<PageRead>)
    ensures Play(st, pages).out.log == st.out.log + Logs(BeforeEof(pages))
    decreases |pages|
  {
    if pages != [] && pages[0].Page? {
      var next := PageStep(st, pages[0]);
      PlayLog(next, pages[1..]);
      assert next.out.log == st.out.log + PageLog(pages[0]);
      var rest := BeforeEof(pages[1..]);
      assert ([pages[0]] + rest)[1..] == rest;
    }
  }

  /**
   * After the loop, `lastGranule` is the granule of the last page reached and
   * the offset is that granule in milliseconds; with no page reached both keep
   * their values.
   */
  lemma {:induction false} PlayFinalOffset(st: PlayState, pages: seq<PageRead>)
    ensures var played := BeforeEof(pages);
            var r := Play(st, pages);
            && r.lastGranule == FinalGranule(st.lastGranule, pages)
            && r.out.currentTime == (if played == [] then st.out.currentTime
                                     else Millis(played[|played| - 1].granule))
    decreases |pages|
  {
    if pages != [] && pages[0].Page? {
      PlayFinalOffset(PageStep(st, pages[0]), pages[1..]);
    }
  }

  /**
   * The offset published after the k-th page is that page's granule in
   * milliseconds, whatever the pages before it were and whatever offset was
   * published before the track started.
   */
  lemma OffsetAfterEachPage(st: PlayState, pages: seq<PageRead>, k: nat)
    requires k < |BeforeEof(pages)|
    ensures Play(st, pages[..k + 1]).lastGranule == BeforeEof(pages)[k].granule
    ensures Play(st, pages[..k + 1]).out.currentTime == Millis(BeforeEof(pages)[k].granule)
  {
    var played := BeforeEof(pages);
    var prefix := pages[..k + 1];
    assert prefix == played[..k + 1];
    AllPagesReached(prefix);
    PlayFinalOffset(st, prefix);
  }

  /** With non-decreasing granules the published offset never goes down within a track. */
  lemma OffsetNeverDecreases(st: PlayState, pages: seq<PageRead>, j: nat, k: nat)
    requires NonDecreasing(pages)
    requires j <= k < |BeforeEof(pages)|
    ensures Play(st, pages[..j + 1]).out.currentTime <= Play(st, pages[..k + 1]).out.currentTime
  {
    OffsetAfterEachPage(st, pages, j);
    OffsetAfterEachPage(st, pages, k);
    MillisMonotone(BeforeEof(pages)[j].granule, BeforeEof(pages)[k].granule);
  }

  /**
   * Over non-decreasing granules no subtraction wraps, so the per-page sample
   * counts telescope: starting from `last`, they add up to the final granule
   * minus `last`.
   */
  lemma {:induction false} SampleCountsTelescope(last: Granule, pages: seq<PageRead>)
    requires NonDecreasing(pages)
    requires |BeforeEof(pages)| > 0 ==> last <= BeforeEof(pages)[0].granule
    ensures Sum(SampleCounts(last, pages)) == FinalGranule(last, pages) - last
    decreases |pages|
  {
    if pages != [] && pages[0].Page? {
      var g := pages[0].granule;
      var rest := pages[1..];
      var played := BeforeEof(pages);
      assert BeforeEof(rest) == played[1..];
      assert NonDecreasing(rest) by {
        forall i, j | 0 <= i <= j < |BeforeEof(rest)|
          ensures BeforeEof(rest)[i].granule <= BeforeEof(rest)[j].granule
        {
          assert BeforeEof(rest)[i] == played[i + 1] && BeforeEof(rest)[j] == played[j + 1];
        }
      }
      if |BeforeEof(rest)| > 0 {
        assert played[0].granule <= played[1].granule;
      }
      SampleCountsTelescope(g, rest);
      assert SampleCounts(last, pages)[1..] == SampleCounts(g, rest);
    }
  }

  /** Each track starts from `lastGranule` 0, so its sample counts add up to its last granule. */
  lemma TrackSampleCountsTelescope(pages: seq<PageRead>)
    requires NonDecreasing(pages)
    ensures Sum(SampleCounts(0, pages)) == FinalGranule(0, pages)
  {
    SampleCountsTelescope(0, pages);
  }

  /**
   * The page loop only appends to the samples and the log, and what it appends
   * does not depend on what was there before; the offset it leaves depends on
   * the offset before only when no page is reached.
   */
  lemma {:induction false} PlayExtends(g: Granule, t1: int, t2: int, a: seq<Sample>, b: seq<Sample>,
                                       l: seq<LogEntry>, m: seq<LogEntry>, pages: seq<PageRead>)
    ensures var r := Play(PlayState(g, ChannelState(t1, a + b, l + m)), pages);
            var q := Play(PlayState(g, ChannelState(t2, b, m)), pages);
            && r.lastGranule == q.lastGranule
            && r.out.samples == a + q.out.samples
            && r.out.log == l + q.out.log
            && r.out.currentTime == (if BeforeEof(pages) == [] then t1 else q.out.currentTime)
    decreases |pages|
  {
    if pages != [] && pages[0].Page? {
      var p := pages[0];
      var r1 := PageStep(PlayState(g, ChannelState(t1, a + b, l + m)), p);
      var q1 := PageStep(PlayState(g, ChannelState(t2, b, m)), p);
      assert r1.out.samples == a + q1.out.samples;
      assert r1.out.log == l + q1.out.log;
      assert r1 == PlayState(q1.lastGranule, ChannelState(q1.out.currentTime, a + q1.out.samples, l + q1.out.log));
      PlayExtends(q1.lastGranule, q1.out.currentTime, q1.out.currentTime, a, q1.out.samples, l, q1.out.log, pages[1..]);
    } else {
      assert BeforeEof(pages) == [];
    }
  }

  /** The result of the schedule lookup `GetCurrentTrack(channelID)`. */
  datatype Lookup = LookupFailed | NoCurrentTrack | Current(audio: string)

  /** The result of `os.Open` on the track's audio file and of reading its Ogg header. */
  datatype OpenResult = OpenFailed | Opened(headerParsed: bool, pages: seq<PageRead>)

  /** What the outside world answered during one pass of the outer loop. */
  datatype CycleInput = CycleInput(lookup: Lookup, open: OpenResult)

  /** A pass that reaches the page loop. */
  predicate Streams(c: CycleInput) {
    c.lookup.Current? && c.open.Opened?
  }

  /** One pass of the outer loop: either a retry or one whole track. */
  function CycleStep(cs: ChannelState, c: CycleInput): ChannelState {
    match c.lookup
    case LookupFailed => cs.(log := cs.log + [ScheduleLookupFailed])
    case NoCurrentTrack => cs
    case Current(_) =>
      match c.open
      case OpenFailed => cs.(log := cs.log + [AudioOpenFailed])
      case Opened(headerParsed, pages) => Play(PlayState(0, AfterHeader(cs, headerParsed)), pages).out
  }

  /** A failed header parse is only logged; the pages are read all the same. */
  function AfterHeader(cs: ChannelState, headerParsed: bool): ChannelState {
    if headerParsed then cs else cs.(log := cs.log + [HeaderParseFailed])
  }

  /** The first `|cycles|` passes of the outer loop. */
  function Run(cs: ChannelState, cycles: seq<CycleInput>): ChannelState
    decreases |cycles|
  {
    if cycles == [] then cs else CycleStep(Run(cs, cycles[..|cycles| - 1]), cycles[|cycles| - 1])
  }

  /** The samples one track produces when it is played from its first page. */
  function TrackSamples(pages: seq<PageRead>): seq<Sample> {
    Play(PlayState(0, ChannelState(0, [], [])), pages).out.samples
  }

  /**
   * A track always plays from its beginning: what a streaming pass appends to
   * the sink is the same whatever happened before, so a schedule that returns
   * the same track again has it played again in full.
   */
  lemma TrackPlaysFromStart(cs: ChannelState, c: CycleInput)
    requires Streams(c)
    ensures CycleStep(cs, c).samples == cs.samples + TrackSamples(c.open.pages)
  {
    var ready := AfterHeader(cs, c.open.headerParsed);
    PlayExtends(0, ready.currentTime, 0, cs.samples, [], ready.log, [], c.open.pages);
    assert cs.samples + [] == cs.samples && ready.log + [] == ready.log;
  }

  /** A pass never removes or rewrites a sample or a log entry. */
  lemma CycleStepAppends(cs: ChannelState, c: CycleInput)
    ensures var r := CycleStep(cs, c);
            && |cs.samples| <= |r.samples| && r.samples[..|cs.samples|] == cs.samples
            && |cs.log| <= |r.log| && r.log[..|cs.log|] == cs.log
  {
    if Streams(c) {
      var ready := AfterHeader(cs, c.open.headerParsed);
      PlayExtends(0, ready.currentTime, 0, cs.samples, [], ready.log, [], c.open.pages);
      assert cs.samples + [] == cs.samples && ready.log + [] == ready.log;
    }
  }

  lemma {:induction false} RunAppends(cs: ChannelState, cycles: seq<CycleInput>)
    ensures var r := Run(cs, cycles);
            && |cs.samples| <= |r.samples| && r.samples[..|cs.samples|] == cs.samples
            && |cs.log| <= |r.log| && r.log[..|cs.log|] == cs.log
    decreases |cycles|
  {
    if cycles != [] {
      var mid := Run(cs, cycles[..|cycles| - 1]);
      RunAppends(cs, cycles[..|cycles| - 1]);
      CycleStepAppends(mid, cycles[|cycles| - 1]);
      var r := Run(cs, cycles);
      assert r.samples[..|cs.samples|] == r.samples[..|mid.samples|][..|cs.samples|];
      assert r.log[..|cs.log|] == r.log[..|mid.log|][..|cs.log|];
    }
  }

  /**
   * Passes that fail the lookup, find no current track, or fail to open the
   * file leave the offset and the sink untouched: they only log and retry.
   */
  lemma {:induction false} RetriesChangeNothing(cs: ChannelState, cycles: seq<CycleInput>)
    requires forall i :: 0 <= i < |cycles| ==> !Streams(cycles[i])
    ensures Run(cs, cycles).currentTime == cs.currentTime
    ensures Run(cs, cycles).samples == cs.samples
    decreases |cycles|
  {
    if cycles != [] {
      RetriesChangeNothing(cs, cycles[..|cycles| - 1]);
      assert !Streams(cycles[|cycles| - 1]);
    }
  }
}
