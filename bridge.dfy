/**
 * The native bridge's control rules (cpp/core/bridge.cpp): how the capture
 * thread derives its PCM configuration, retries opening the gadget's capture
 * device, and counts consecutive read errors; and how the bridge task decodes
 * the direction mask, sizes the ring buffer, selects an output engine and
 * switches between streaming and idling. PCM devices, engines and the clock are
 * inputs: the readiness of each open attempt, the outcome of each read, the
 * timestamp of each consume iteration.
 */
module NativeBridge {
  import opened Bits
  import opened Wrappers
  import Ring

  // ---- constants of bridge.cpp ----

  const FALLBACK_RATE: nat := 48000
  const DEFAULT_PERIODS: seq<nat> := [1024, 480, 240]
  const OPEN_ROUNDS: nat := 20
  const MAX_READ_ERRORS: nat := 50
  const MIN_BUFFER_FRAMES: nat := 480
  const BYTES_PER_FRAME: nat := 4
  const FALLBACK_BURST: nat := 192
  const IDLE_TIMEOUT_MS: int := 1000
  const STATS_INTERVAL: nat := 500
  const PREROLL_MS: nat := 50
  const CAPTURE_FAILED: string := "Capture Failed"

  /** Native states reported to the service. */
  const STATE_STOPPED := 0
  const STATE_CONNECTING := 1
  const STATE_WAITING := 2
  const STATE_STREAMING := 3
  const STATE_IDLING := 4

  const UINT_RANGE: int := 0x1_0000_0000

  /** A value of C's 32-bit `int`. */
  predicate IsInt32(x: int) {
    -0x8000_0000 <= x < 0x8000_0000
  }

  /** What the native side reports to Java. */
  datatype Report =
    | StateReport(code: int)
    | StatsReport(rate: int, period: int, bufferFrames: int)
    | ErrorReport(msg: string)

  // ---- parameter derivation ----

  /** The capture thread's rate: `(unsigned int)requested_rate`, with 0
      replaced by 48000. */
  function CaptureRate(requested: int): (rate: nat)
    requires IsInt32(requested)
    ensures 0 < requested ==> rate == requested
    ensures requested == 0 ==> rate == FALLBACK_RATE
    ensures requested < 0 ==> rate == requested + UINT_RANGE
  {
    var u := requested % UINT_RANGE;
    if u == 0 then FALLBACK_RATE else u
  }

  /** The bridge task's rate: `sampleRate > 0 ? sampleRate : 48000`. */
  function BridgeRate(sampleRate: int): (rate: int)
    ensures rate > 0
    ensures rate == sampleRate || rate == FALLBACK_RATE
  {
    if sampleRate > 0 then sampleRate else FALLBACK_RATE
  }

  /** The two threads agree on the rate for every non-negative request; a
      negative request is reinterpreted as a huge unsigned rate by the capture
      thread while the output engine runs at 48000. */
  lemma CaptureAndBridgeRates(requested: int)
    requires IsInt32(requested)
    ensures requested >= 0 ==> CaptureRate(requested) == BridgeRate(requested)
    ensures requested < 0 ==> CaptureRate(requested) >= 0x8000_0000 && BridgeRate(requested) == FALLBACK_RATE
  {
  }

  /** The period sizes the capture thread tries, in order. */
  function CapturePeriods(requested: int): (ps: seq<nat>)
    ensures |ps| >= 1 && forall i :: 0 <= i < |ps| ==> ps[i] > 0
    ensures requested > 0 <==> ps == [requested]
  {
    if requested > 0 then [requested] else DEFAULT_PERIODS
  }

  /** `max(480, bufferSizeFrames)`: frames held by the speaker ring buffer. */
  function DeepBufferFrames(bufferSizeFrames: int): (frames: nat)
    ensures frames >= MIN_BUFFER_FRAMES && frames >= bufferSizeFrames
    ensures frames == MIN_BUFFER_FRAMES || frames == bufferSizeFrames
  {
    if bufferSizeFrames > MIN_BUFFER_FRAMES then bufferSizeFrames else MIN_BUFFER_FRAMES
  }

  /** Size of the speaker ring buffer in bytes (16-bit stereo frames). */
  function RingBytes(bufferSizeFrames: int): (bytes: nat)
    ensures bytes >= MIN_BUFFER_FRAMES * BYTES_PER_FRAME
    ensures bytes % BYTES_PER_FRAME == 0 && bytes / BYTES_PER_FRAME == DeepBufferFrames(bufferSizeFrames)
  {
    DeepBufferFrames(bufferSizeFrames) * BYTES_PER_FRAME
  }

  datatype Engine = AAudio | OpenSL | AudioTrack

  /** Engine type 1 is OpenSL ES, 2 is the Java AudioTrack, anything else AAudio. */
  function SelectEngine(engineType: int): (e: Engine)
    ensures e == OpenSL <==> engineType == 1
    ensures e == AudioTrack <==> engineType == 2
    ensures e == AAudio <==> engineType != 1 && engineType != 2
  {
    if engineType == 1 then OpenSL else if engineType == 2 then AudioTrack else AAudio
  }

  /** The burst the consumer reads per iteration, 192 frames when the engine
      reports none. */
  function BurstFrames(reported: int): (frames: nat)
    ensures frames > 0
    ensures reported > 0 ==> frames == reported
    ensures reported <= 0 ==> frames == FALLBACK_BURST
  {
    if reported <= 0 then FALLBACK_BURST else reported
  }

  /** Bytes the ring buffer must hold before output starts: 50 ms of audio. */
  function PrerollBytes(rate: nat): (bytes: nat)
    ensures bytes % BYTES_PER_FRAME == 0
    ensures bytes / BYTES_PER_FRAME * 1000 <= rate * PREROLL_MS < (bytes / BYTES_PER_FRAME + 1) * 1000
  {
    (rate * PREROLL_MS / 1000) * BYTES_PER_FRAME
  }

  /** What one check of the pre-roll loop sees: `isRunning` and the bytes
      the ring buffer holds. */
  datatype Poll = Poll(running: bool, available: nat)

  /** How many 5 ms sleeps the pre-roll loop takes over `polls`: it sleeps
      while running with less than `threshold` bytes buffered, and stops at
      the first check that is not so (or when the checks run out). */
  function PrerollSleeps(threshold: nat, polls: seq<Poll>): (n: nat)
    ensures n <= |polls|
    ensures forall j :: 0 <= j < n ==> polls[j].running && polls[j].available < threshold
    ensures n < |polls| ==> !polls[n].running || polls[n].available >= threshold
    decreases |polls|
  {
    if polls == [] || !polls[0].running || polls[0].available >= threshold then 0
    else 1 + PrerollSleeps(threshold, polls[1..])
  }

  /** The checks at the front of `polls` that see the bridge running. */
  function RunningChecks(polls: seq<Poll>): (n: nat)
    ensures n <= |polls|
    ensures forall j :: 0 <= j < n ==> polls[j].running
    ensures n < |polls| ==> !polls[n].running
    decreases |polls|
  {
    if polls == [] || !polls[0].running then 0 else 1 + RunningChecks(polls[1..])
  }

  /** No check sees more than `cap` bytes in the ring: a ring of `cap` bytes
      never holds more. */
  predicate HoldsAtMost(polls: seq<Poll>, cap: nat) {
    forall j :: 0 <= j < |polls| ==> polls[j].available <= cap
  }

  /** A threshold above what the ring can hold is never reached: the wait
      sleeps at every check that sees the bridge running, so only a stop ends
      it. */
  lemma {:induction false} UnreachableThresholdWaitsForStop(threshold: nat, cap: nat, polls: seq<Poll>)
    requires cap < threshold && HoldsAtMost(polls, cap)
    ensures PrerollSleeps(threshold, polls) == RunningChecks(polls)
    decreases |polls|
  {
    if polls != [] && polls[0].running {
      assert polls[0].available < threshold;
      UnreachableThresholdWaitsForStop(threshold, cap, polls[1..]);
    }
  }

  /** The pre-roll threshold as written hangs a bridge started with a small
      buffer: `toggleCapture`'s 1024-frame fallback at 48 kHz gives a ring of
      4096 bytes, while 50 ms is 9600 bytes. */
  lemma PrerollHangsAsWritten(polls: seq<Poll>)
    requires HoldsAtMost(polls, RingBytes(1024))
    ensures RingBytes(1024) == 4096 && PrerollBytes(48000) == 9600
    ensures PrerollSleeps(PrerollBytes(48000), polls) == RunningChecks(polls)
  {
    UnreachableThresholdWaitsForStop(PrerollBytes(48000), RingBytes(1024), polls);
  }

  /** The corrected threshold: 50 ms of audio, or a full ring when the ring
      holds less. */
  function PrerollTarget(rate: nat, ringBytes: nat): (t: nat)
    ensures t <= ringBytes && t <= PrerollBytes(rate)
    ensures t == ringBytes || t == PrerollBytes(rate)
  {
    if PrerollBytes(rate) <= ringBytes then PrerollBytes(rate) else ringBytes
  }

  /** The corrected wait is the source's whenever the ring can hold 50 ms,
      and otherwise a check that sees a full ring ends it. */
  lemma {:induction false} CorrectedPrerollEnds(rate: nat, ringBytes: nat, polls: seq<Poll>, j: nat)
    requires j < |polls| && polls[j].available == ringBytes
    ensures PrerollBytes(rate) <= ringBytes ==> PrerollTarget(rate, ringBytes) == PrerollBytes(rate)
    ensures PrerollSleeps(PrerollTarget(rate, ringBytes), polls) <= j
  {
    if PrerollSleeps(PrerollTarget(rate, ringBytes), polls) > j {
      assert false;
    }
  }

  /** The pre-roll loop of `bridgeTask`, waiting until `threshold` bytes are
      buffered or the bridge stops. */
  method PrerollWait(threshold: nat, polls: seq<Poll>) returns (sleeps: nat)
    ensures sleeps == PrerollSleeps(threshold, polls)
  {
    sleeps := 0;
    while sleeps < |polls| && polls[sleeps].running && polls[sleeps].available < threshold
      invariant sleeps <= |polls|
      invariant PrerollSleeps(threshold, polls) == sleeps + PrerollSleeps(threshold, polls[sleeps..])
      decreases |polls| - sleeps
    {
      assert polls[sleeps..][1..] == polls[sleeps + 1..];
      sleeps := sleeps + 1;
    }
  }

  predicate SpeakerEnabled(directions: int) {
    BitSet(directions, 0)
  }

  predicate MicEnabled(directions: int) {
    BitSet(directions, 1)
  }

  // ---- capture: opening the PCM device ----

  /** How the open phase ended: the round and candidate index that opened, or
      the number of rounds tried. */
  datatype OpenOutcome = Opened(round: nat, index: nat) | NotOpened(rounds: nat)

  /** The first candidate at or after `k` that is ready in round `round`, or -1. */
  function FirstReady(n: nat, ready: (nat, nat) -> bool, round: nat, k: nat): (i: int)
    ensures i == -1 || k <= i < n
    ensures i == -1 ==> forall j :: k <= j < n ==> !ready(round, j)
    ensures i != -1 ==> ready(round, i) && forall j :: k <= j < i ==> !ready(round, j)
    decreases n - k
  {
    if k >= n then -1 else if ready(round, k) then k else FirstReady(n, ready, round, k + 1)
  }

  /** The open phase from round `retry` on: rounds continue while fewer than 20
      have run and `isRunning` (as read at the start of round r:
      `running(r)`) holds. */
  function OpenSpec(n: nat, running: nat -> bool, ready: (nat, nat) -> bool, retry: nat): OpenOutcome
    decreases OPEN_ROUNDS - retry
  {
    if retry >= OPEN_ROUNDS || !running(retry) then NotOpened(retry)
    else
      var i := FirstReady(n, ready, retry, 0);
      if i >= 0 then Opened(retry, i) else OpenSpec(n, running, ready, retry + 1)
  }

  /** In every round from `from` up to `to`, `isRunning` held and no candidate was ready. */
  ghost predicate RoundsFailed(n: nat, running: nat -> bool, ready: (nat, nat) -> bool, from: nat, to: nat) {
    (forall r :: from <= r < to ==> running(r)) &&
    (forall r, j :: from <= r < to && 0 <= j < n ==> !ready(r, j))
  }

  /** What the open phase does, stated independently of its recursion: an open
      happens at most in round 19, through the first ready candidate of the
      first round that has one, and every earlier round ran with nothing ready;
      when nothing opens, either all 20 rounds ran or `isRunning` was cleared. */
  lemma {:induction false} OpenSpecMeaning(n: nat, running: nat -> bool, ready: (nat, nat) -> bool, retry: nat)
    requires retry <= OPEN_ROUNDS
    ensures var o := OpenSpec(n, running, ready, retry);
      o.Opened? ==>
        retry <= o.round < OPEN_ROUNDS && o.index < n && running(o.round) && ready(o.round, o.index) &&
        (forall j :: 0 <= j < o.index ==> !ready(o.round, j)) &&
        RoundsFailed(n, running, ready, retry, o.round)
    ensures var o := OpenSpec(n, running, ready, retry);
      o.NotOpened? ==>
        retry <= o.rounds <= OPEN_ROUNDS && (o.rounds == OPEN_ROUNDS || !running(o.rounds)) &&
        RoundsFailed(n, running, ready, retry, o.rounds)
    decreases OPEN_ROUNDS - retry
  {
    if retry < OPEN_ROUNDS && running(retry) && FirstReady(n, ready, retry, 0) < 0 {
      OpenSpecMeaning(n, running, ready, retry + 1);
      var o := OpenSpec(n, running, ready, retry + 1);
      assert OpenSpec(n, running, ready, retry) == o;
      var bound := if o.Opened? then o.round else o.rounds;
      assert RoundsFailed(n, running, ready, retry + 1, bound);
      forall r', j | retry <= r' < bound && 0 <= j < n
        ensures running(r') && !ready(r', j)
      {
        if r' == retry {
          assert !ready(retry, j);
        }
      }
    }
  }

  /** Lines 50-95 of `captureLoop`. `periodOut` is `*out_period_size` (the
      bridge task initialises it to 0); `reports` are the states sent to Java;
      `proceed` is whether the capture loop is entered (`isRunning` after the
      final check, which sees `running(r + 1)` after an open in round r);
      `clearsRunning` is whether the early return stores false in `isRunning`,
      which it does on every path that does not proceed. */
  method OpenCapture(periods: seq<nat>, running: nat -> bool, ready: (nat, nat) -> bool)
    returns (isOpen: bool, periodOut: int, reports: seq<Report>, proceed: bool, clearsRunning: bool,
             ghost outcome: OpenOutcome)
    ensures outcome == OpenSpec(|periods|, running, ready, 0)
    ensures isOpen <==> outcome.Opened?
    ensures outcome.Opened? ==> outcome.index < |periods|
    ensures isOpen ==> periodOut == periods[outcome.index] &&
                       reports == [StateReport(STATE_CONNECTING), StateReport(STATE_WAITING)] &&
                       (proceed <==> running(outcome.round + 1))
    ensures !isOpen ==> periodOut == 0 && reports == [StateReport(STATE_CONNECTING)] && !proceed
    ensures clearsRunning <==> !proceed
    ensures !isOpen ==> clearsRunning
  {
    reports := [StateReport(STATE_CONNECTING)];
    isOpen := false;
    periodOut := 0;
    var retry: nat := 0;
    while retry < OPEN_ROUNDS && running(retry)
      invariant retry <= OPEN_ROUNDS
      invariant !isOpen && periodOut == 0 && reports == [StateReport(STATE_CONNECTING)]
      invariant OpenSpec(|periods|, running, ready, retry) == OpenSpec(|periods|, running, ready, 0)
      decreases OPEN_ROUNDS - retry
    {
      var k := 0;
      while k < |periods|
        invariant 0 <= k <= |periods|
        invariant !isOpen && periodOut == 0 && reports == [StateReport(STATE_CONNECTING)]
        invariant FirstReady(|periods|, ready, retry, 0) == FirstReady(|periods|, ready, retry, k)
      {
        if ready(retry, k) {
          isOpen := true;
          periodOut := periods[k];
          reports := reports + [StateReport(STATE_WAITING)];
          break;
        }
        k := k + 1;
      }
      if isOpen {
        outcome := Opened(retry, k);
        proceed := running(retry + 1);
        clearsRunning := !proceed;
        return;
      }
      retry := retry + 1;
    }
    outcome := NotOpened(retry);
    proceed := false;
    clearsRunning := true;
  }

  // ---- capture: the read loop ----

  /** One iteration of the capture read loop: `pcm_wait` timed out, a read
      delivered a chunk, a read failed with EAGAIN, or a read failed otherwise. */
  datatype ReadEvent = WaitTimeout | ReadOk(chunk: seq<Ring.byte>) | ReadAgain | ReadFailed

  /** `readErrorCount` after one more event. */
  function NextErrorCount(count: nat, e: ReadEvent): nat {
    match e
    case WaitTimeout => count
    case ReadOk(_) => 0
    case ReadAgain => count
    case ReadFailed => count + 1
  }

  /** `readErrorCount` after a sequence of events. */
  function ErrorsAfter(evs: seq<ReadEvent>): nat {
    if evs == [] then 0 else NextErrorCount(ErrorsAfter(evs[..|evs| - 1]), evs[|evs| - 1])
  }

  /** Number of `ReadFailed` events. */
  function CountFailed(evs: seq<ReadEvent>): nat {
    if evs == [] then 0 else (if evs[0] == ReadFailed then 1 else 0) + CountFailed(evs[1..])
  }

  lemma {:induction false} CountFailedAppend(a: seq<ReadEvent>, b: seq<ReadEvent>)
    ensures CountFailed(a + b) == CountFailed(a) + CountFailed(b)
  {
    if a == [] {
      assert a + b == b;
    } else {
      assert (a + b)[0] == a[0] && (a + b)[1..] == a[1..] + b;
      CountFailedAppend(a[1..], b);
    }
  }

  /** Index of the last successful read, or -1. */
  function LastOk(evs: seq<ReadEvent>): (i: int)
    ensures -1 <= i < |evs|
    ensures i >= 0 ==> evs[i].ReadOk?
    ensures forall j :: i < j < |evs| ==> !evs[j].ReadOk?
  {
    if evs == [] then -1
    else if evs[|evs| - 1].ReadOk? then |evs| - 1
    else LastOk(evs[..|evs| - 1])
  }

  /** The error counter is exactly the number of failed reads since the last
      successful read: timeouts and EAGAIN do not count, a good read resets. */
  lemma {:induction false} ErrorsAfterIsFailuresSinceLastOk(evs: seq<ReadEvent>)
    ensures ErrorsAfter(evs) == CountFailed(evs[LastOk(evs) + 1..])
  {
    if evs != [] {
      var init := evs[..|evs| - 1];
      var e := evs[|evs| - 1];
      if !e.ReadOk? {
        ErrorsAfterIsFailuresSinceLastOk(init);
        var from := LastOk(init) + 1;
        assert evs[from..] == init[from..] + [e];
        CountFailedAppend(init[from..], [e]);
      }
    }
  }

  /** The ring-buffer writes issued by a sequence of read events. */
  function Puts(evs: seq<ReadEvent>): (ops: seq<Ring.Op>)
    ensures |ops| <= |evs|
  {
    if evs == [] then []
    else Puts(evs[..|evs| - 1]) + (if evs[|evs| - 1].ReadOk? then [Ring.Put(evs[|evs| - 1].chunk)] else [])
  }

  /** Lines 104-158 of `captureLoop`, single-threaded: `events` are the loop's
      iterations up to the point where `isRunning` is cleared from outside.
      The loop stops early, reporting "Capture Failed", once more than 50
      consecutive reads have failed. */
  method CaptureReadLoop(rb: Ring.RingBuffer, events: seq<ReadEvent>)
    returns (failed: bool, processed: nat, errorCount: nat, overruns: nat, reports: seq<Report>)
    requires rb.Valid()
    modifies rb, rb.buffer
    ensures rb.Valid() && rb.buffer == old(rb.buffer)
    ensures processed <= |events| && errorCount == ErrorsAfter(events[..processed])
    ensures failed <==> exists k :: 0 < k <= |events| && ErrorsAfter(events[..k]) > MAX_READ_ERRORS
    ensures failed ==> processed > 0 && errorCount == MAX_READ_ERRORS + 1 &&
                       (forall k :: 0 < k < processed ==> ErrorsAfter(events[..k]) <= MAX_READ_ERRORS) &&
                       reports == [ErrorReport(CAPTURE_FAILED)]
    ensures !failed ==> processed == |events| && reports == []
    ensures var t := Ring.Run(old(rb.Contents), rb.size, Puts(events[..processed]));
            rb.Contents == t.queue && overruns == t.dropped
  {
    failed := false;
    errorCount := 0;
    overruns := 0;
    reports := [];
    processed := 0;
    ghost var q0 := rb.Contents;
    while processed < |events|
      invariant processed <= |events|
      invariant rb.Valid() && rb.buffer == old(rb.buffer)
      invariant errorCount == ErrorsAfter(events[..processed]) <= MAX_READ_ERRORS
      invariant NeverOverBefore(events, processed)
      invariant var t := Ring.Run(q0, rb.size, Puts(events[..processed]));
                rb.Contents == t.queue && overruns == t.dropped
      invariant reports == []
    {
      var e := events[processed];
      CaptureStep(q0, rb.size, events, processed);
      match e {
        case WaitTimeout =>
        case ReadOk(chunk) =>
          var w := rb.Write(chunk);
          if w == 0 {
            overruns := overruns + 1;
          }
          errorCount := 0;
        case ReadAgain =>
        case ReadFailed =>
          errorCount := errorCount + 1;
          if errorCount > MAX_READ_ERRORS {
            reports := [ErrorReport(CAPTURE_FAILED)];
            failed := true;
            processed := processed + 1;
            return;
          }
      }
      NeverOverStep(events, processed);
      processed := processed + 1;
    }
    assert events[..processed] == events;
  }

  /** No prefix of `events` of length 1 to `n` has more than the tolerated
      number of consecutive read errors. */
  predicate NeverOverBefore(events: seq<ReadEvent>, n: nat)
    requires n <= |events|
  {
    forall k :: 0 < k <= n ==> ErrorsAfter(events[..k]) <= MAX_READ_ERRORS
  }

  lemma NeverOverStep(events: seq<ReadEvent>, n: nat)
    requires n < |events| && NeverOverBefore(events, n)
    requires ErrorsAfter(events[..n + 1]) <= MAX_READ_ERRORS
    ensures NeverOverBefore(events, n + 1)
  {
  }

  /** One more read event: the error counter takes one step and the ring
      buffer sees at most one more write. */
  lemma CaptureStep(q0: seq<Ring.byte>, cap: nat, events: seq<ReadEvent>, i: nat)
    requires i < |events|
    ensures ErrorsAfter(events[..i + 1]) == NextErrorCount(ErrorsAfter(events[..i]), events[i])
    ensures var u := Ring.Run(q0, cap, Puts(events[..i]));
            var t := Ring.Run(q0, cap, Puts(events[..i + 1]));
            match events[i]
            case ReadOk(c) =>
              t.queue == (if Ring.WriteFits(u.queue, cap, c) then u.queue + c else u.queue) &&
              t.dropped == u.dropped + (if Ring.WriteFits(u.queue, cap, c) && c != [] then 0 else 1)
            case _ => t.queue == u.queue && t.dropped == u.dropped
  {
    var before := events[..i];
    var e := events[i];
    assert events[..i + 1] == before + [e];
    assert (before + [e])[..|before|] == before;
    var op := if e.ReadOk? then [Ring.Put(e.chunk)] else [];
    assert Puts(events[..i + 1]) == Puts(before) + op;
    Ring.RunSnoc(q0, cap, Puts(before), op);
    if e.ReadOk? {
      var u := Ring.Run(q0, cap, Puts(before));
      assert op[1..] == [];
    }
  }

  // ---- speaker: the consume loop ----

  /** One consume iteration: the steady-clock time in milliseconds and whether
      the burst read from the ring buffer returned data. */
  datatype Tick = Tick(now: int, got: bool)

  datatype ConsumeState = ConsumeState(streaming: bool, lastDataTime: int, statsCounter: nat)

  /** The loop state right after pre-roll: streaming, last data now, counter 0. */
  function InitialConsume(t0: int): ConsumeState {
    ConsumeState(true, t0, 0)
  }

  /** Lines 328-359: one iteration of the consume loop. `stats` is the stats
      report of this session. */
  function ConsumeStep(s: ConsumeState, t: Tick, stats: Report): (ConsumeState, seq<Report>) {
    var (s1, r1) :=
      if t.got then
        if !s.streaming then (ConsumeState(true, t.now, 0), [StateReport(STATE_STREAMING), stats])
        else (s.(lastDataTime := t.now), [])
      else if s.streaming && t.now - s.lastDataTime > IDLE_TIMEOUT_MS then
        (s.(streaming := false), [StateReport(STATE_IDLING)])
      else (s, []);
    if s1.streaming then
      if s1.statsCounter + 1 > STATS_INTERVAL then (s1.(statsCounter := 0), r1 + [stats])
      else (s1.(statsCounter := s1.statsCounter + 1), r1)
    else (s1, r1)
  }

  /** The loop state and all reports after a sequence of iterations. */
  function ConsumeRun(s0: ConsumeState, ticks: seq<Tick>, stats: Report): (ConsumeState, seq<Report>) {
    if ticks == [] then (s0, [])
    else
      var (s, r) := ConsumeRun(s0, ticks[..|ticks| - 1], stats);
      var (s', r') := ConsumeStep(s, ticks[|ticks| - 1], stats);
      (s', r + r')
  }

  /** The streaming/idling codes among a sequence of reports. */
  function StateCodes(rs: seq<Report>): (codes: seq<int>)
    ensures |codes| <= |rs|
  {
    if rs == [] then []
    else StateCodes(rs[..|rs| - 1]) +
         (if rs[|rs| - 1].StateReport? then [rs[|rs| - 1].code] else [])
  }

  lemma {:induction false} StateCodesAppend(a: seq<Report>, b: seq<Report>)
    ensures StateCodes(a + b) == StateCodes(a) + StateCodes(b)
    decreases |b|
  {
    if b == [] {
      assert a + b == a;
    } else {
      assert (a + b)[..|a + b| - 1] == a + b[..|b| - 1];
      StateCodesAppend(a, b[..|b| - 1]);
    }
  }

  /** Idle and resume reports alternate, starting with an idle report when the
      loop starts streaming. */
  ghost predicate Alternating(codes: seq<int>, startStreaming: bool) {
    forall k :: 0 <= k < |codes| ==>
      codes[k] == (if (k % 2 == 0) == startStreaming then STATE_IDLING else STATE_STREAMING)
  }

  /** The codes of a one- or two-report sequence. */
  lemma StateCodesShort(x: Report, y: Report)
    requires y.StatsReport?
    ensures StateCodes([x]) == if x.StateReport? then [x.code] else []
    ensures StateCodes([x, y]) == StateCodes([x])
  {
    assert [x][..0] == [];
    assert [x, y][..1] == [x];
  }

  /** One iteration keeps the counter at most 500 and reports a state code
      exactly when the mode changes: 3 on resuming, 4 on going idle. */
  lemma StepCodes(s: ConsumeState, t: Tick, stats: Report)
    requires s.statsCounter <= STATS_INTERVAL
    requires stats.StatsReport?
    ensures var (s', r') := ConsumeStep(s, t, stats);
            s'.statsCounter <= STATS_INTERVAL &&
            StateCodes(r') == (if s'.streaming == s.streaming then []
                               else if s'.streaming then [STATE_STREAMING] else [STATE_IDLING])
  {
    var (s', r') := ConsumeStep(s, t, stats);
    StateCodesShort(StateReport(STATE_STREAMING), stats);
    StateCodesShort(StateReport(STATE_IDLING), stats);
    StateCodesShort(stats, stats);
    if !(t.got && !s.streaming) && !(!t.got && s.streaming && t.now - s.lastDataTime > IDLE_TIMEOUT_MS) {
      assert r' == [] || r' == [stats];
    }
  }

  /** Appending the code the parity expects keeps the codes alternating. */
  lemma AlternatingSnoc(c: seq<int>, b: bool, code: int)
    requires Alternating(c, b)
    requires code == (if (|c| % 2 == 0) == b then STATE_IDLING else STATE_STREAMING)
    ensures Alternating(c + [code], b)
  {
    var c' := c + [code];
    forall k | 0 <= k < |c'|
      ensures c'[k] == (if (k % 2 == 0) == b then STATE_IDLING else STATE_STREAMING)
    {
      if k < |c| {
        assert c'[k] == c[k];
      }
    }
  }

  /** The counter is at most 500, the state codes reported so far alternate
      from `start`, and their parity gives the current mode. */
  ghost predicate CodesTrackMode(start: bool, s: ConsumeState, r: seq<Report>) {
    s.statsCounter <= STATS_INTERVAL &&
    Alternating(StateCodes(r), start) &&
    (s.streaming <==> (start == (|StateCodes(r)| % 2 == 0)))
  }

  /** One iteration keeps the codes tracking the mode. */
  lemma TrackStep(start: bool, s: ConsumeState, r: seq<Report>, t: Tick, stats: Report)
    requires stats.StatsReport? && CodesTrackMode(start, s, r)
    ensures var st := ConsumeStep(s, t, stats); CodesTrackMode(start, st.0, r + st.1)
  {
    var st := ConsumeStep(s, t, stats);
    var c := StateCodes(r);
    StateCodesAppend(r, st.1);
    StepCodes(s, t, stats);
    if st.0.streaming != s.streaming {
      var code := if st.0.streaming then STATE_STREAMING else STATE_IDLING;
      assert StateCodes(r + st.1) == c + [code];
      AlternatingSnoc(c, start, code);
      ParityFlips(|c|);
      assert |StateCodes(r + st.1)| == |c| + 1;
      assert st.0.streaming == !s.streaming;
    } else {
      assert StateCodes(r + st.1) == c + [] == c;
    }
  }

  lemma ParityFlips(n: nat)
    ensures ((n + 1) % 2 == 0) == !(n % 2 == 0)
  {
  }

  /** The loop keeps the stats counter at most 500 and reports the idle state
      exactly once per streaming-to-idle switch: idle and resume reports
      strictly alternate, and their parity gives the current mode. */
  lemma {:induction false} ConsumeRunInvariant(s0: ConsumeState, ticks: seq<Tick>, stats: Report)
    requires s0.statsCounter <= STATS_INTERVAL
    requires stats.StatsReport?
    ensures var (s, r) := ConsumeRun(s0, ticks, stats);
            s.statsCounter <= STATS_INTERVAL &&
            Alternating(StateCodes(r), s0.streaming) &&
            (s.streaming <==> (s0.streaming == (|StateCodes(r)| % 2 == 0)))
  {
    if ticks == [] {
      assert StateCodes([]) == [];
    } else {
      var init := ticks[..|ticks| - 1];
      ConsumeRunInvariant(s0, init, stats);
      var (s, r) := ConsumeRun(s0, init, stats);
      TrackStep(s0.streaming, s, r, ticks[|ticks| - 1], stats);
      var st := ConsumeStep(s, ticks[|ticks| - 1], stats);
      assert ConsumeRun(s0, ticks, stats) == (st.0, r + st.1);
    }
  }

  /** While streaming and receiving data, the counter counts iterations modulo
      501 and a stats report is emitted exactly on the iteration where it
      would exceed 500. */
  lemma StatsCadence(s: ConsumeState, t: Tick, stats: Report)
    requires s.streaming && t.got && s.statsCounter <= STATS_INTERVAL
    ensures var (s', r) := ConsumeStep(s, t, stats);
            s'.streaming && s'.lastDataTime == t.now &&
            s'.statsCounter == (s.statsCounter + 1) % (STATS_INTERVAL + 1) &&
            (r == [stats] <==> s.statsCounter == STATS_INTERVAL) &&
            (r == [] <==> s.statsCounter < STATS_INTERVAL)
  {
  }

  /** Data arriving while idle resumes streaming: state 3 then stats are
      reported, and the counter restarts (it is 1 after this iteration's
      periodic increment). */
  lemma ResumeStep(s: ConsumeState, t: Tick, stats: Report)
    requires !s.streaming && t.got
    ensures var (s', r) := ConsumeStep(s, t, stats);
            s'.streaming && s'.lastDataTime == t.now && s'.statsCounter == 1 &&
            r == [StateReport(STATE_STREAMING), stats]
  {
  }

  /** A gap of more than 1000 ms while streaming switches to idling with a
      single state-4 report; no further idle report follows while no data
      arrives, and nothing else changes. */
  lemma IdleStep(s: ConsumeState, t: Tick, t2: Tick, stats: Report)
    requires s.streaming && !t.got && t.now - s.lastDataTime > IDLE_TIMEOUT_MS
    requires !t2.got
    ensures var (s', r) := ConsumeStep(s, t, stats);
            s' == s.(streaming := false) && r == [StateReport(STATE_IDLING)] &&
            ConsumeStep(s', t2, stats) == (s', [])
  {
  }

  /** Lines 323-360, with one iteration per tick. */
  method ConsumeLoop(t0: int, ticks: seq<Tick>, stats: Report) returns (final: ConsumeState, reports: seq<Report>)
    ensures (final, reports) == ConsumeRun(InitialConsume(t0), ticks, stats)
  {
    var statsCounter: nat := 0;
    var isStreaming := true;
    var lastDataTime := t0;
    reports := [];
    var i := 0;
    while i < |ticks|
      invariant 0 <= i <= |ticks|
      invariant (ConsumeState(isStreaming, lastDataTime, statsCounter), reports) ==
                ConsumeRun(InitialConsume(t0), ticks[..i], stats)
    {
      assert ticks[..i + 1][..i] == ticks[..i];
      ghost var prev := ConsumeState(isStreaming, lastDataTime, statsCounter);
      var now := ticks[i].now;
      var step: seq<Report> := [];
      if ticks[i].got {
        lastDataTime := now;
        if !isStreaming {
          isStreaming := true;
          step := [StateReport(STATE_STREAMING), stats];
          statsCounter := 0;
        }
      } else {
        var elapsed := now - lastDataTime;
        if isStreaming && elapsed > IDLE_TIMEOUT_MS {
          isStreaming := false;
          step := [StateReport(STATE_IDLING)];
        }
      }
      if isStreaming {
        statsCounter := statsCounter + 1;
        if statsCounter > STATS_INTERVAL {
          step := step + [stats];
          statsCounter := 0;
        }
      }
      assert ConsumeStep(prev, ticks[i], stats) == (ConsumeState(isStreaming, lastDataTime, statsCounter), step);
      reports := reports + step;
      i := i + 1;
    }
    assert ticks[..|ticks|] == ticks;
    final := ConsumeState(isStreaming, lastDataTime, statsCounter);
  }

  // ---- the bridge task ----

  /** The inputs of one bridge task that come from outside the program: whether
      the selected engine opens, the burst size it reports, the period size
      the capture thread has published when the stats are first reported, what
      the pre-roll loop sees at each check, the start time and the consume
      iterations until `isRunning` is cleared. */
  datatype Environment = Environment(
    engineOpens: bool, reportedBurst: int, actualPeriod: int, preroll: seq<Poll>, t0: int, ticks: seq<Tick>)

  /** What the bridge task reports from its own thread, by direction mask. */
  function TaskReports(bufferSizeFrames: int, sampleRate: int, directions: int, env: Environment): seq<Report> {
    if !SpeakerEnabled(directions) then
      (if MicEnabled(directions) then [StateReport(STATE_STREAMING)] else []) + [StateReport(STATE_STOPPED)]
    else if !env.engineOpens then []
    else
      var stats := StatsReport(BridgeRate(sampleRate), env.actualPeriod, DeepBufferFrames(bufferSizeFrames));
      [stats] + ConsumeRun(InitialConsume(env.t0), env.ticks, stats).1 + [StateReport(STATE_STOPPED)]
  }

  /** A task whose engine fails to open never reports the stopped state; every
      other task ends with it. */
  lemma TaskEndsStopped(bufferSizeFrames: int, sampleRate: int, directions: int, env: Environment)
    ensures var r := TaskReports(bufferSizeFrames, sampleRate, directions, env);
            (r == [] <==> SpeakerEnabled(directions) && !env.engineOpens) &&
            (r != [] ==> r[|r| - 1] == StateReport(STATE_STOPPED))
  {
  }

  /** Lines 230-382 of `bridgeTask` on the bridge thread. The capture and mic
      threads are not run here: `micStarted` says whether the mic thread is
      started and `rb` is the ring buffer handed to the capture thread. */
  method BridgeTask(bufferSizeFrames: int, periodSizeFrames: int, engineType: int,
                    sampleRate: int, activeDirections: int, env: Environment)
    returns (micStarted: bool, rb: Ring.RingBuffer?, engine: Option<Engine>,
             burstBytes: nat, prerollSleeps: nat, reports: seq<Report>, clearsRunning: bool)
    ensures micStarted == MicEnabled(activeDirections)
    ensures reports == TaskReports(bufferSizeFrames, sampleRate, activeDirections, env)
    ensures !SpeakerEnabled(activeDirections) ==> rb == null && engine == None && !clearsRunning
    ensures SpeakerEnabled(activeDirections) ==>
      rb != null && fresh(rb) && rb.Valid() && rb.Contents == [] &&
      rb.size == RingBytes(bufferSizeFrames) &&
      engine == Some(SelectEngine(engineType)) &&
      (clearsRunning <==> !env.engineOpens) &&
      (env.engineOpens ==> burstBytes == BurstFrames(env.reportedBurst) * BYTES_PER_FRAME &&
                           prerollSleeps == PrerollSleeps(PrerollTarget(BridgeRate(sampleRate), RingBytes(bufferSizeFrames)), env.preroll))
  {
    var enableSpeaker := SpeakerEnabled(activeDirections);
    var enableMic := MicEnabled(activeDirections);
    micStarted := enableMic;
    burstBytes := 0;
    prerollSleeps := 0;
    clearsRunning := false;
    if !enableSpeaker {
      reports := [];
      if enableMic {
        reports := reports + [StateReport(STATE_STREAMING)];
      }
      reports := reports + [StateReport(STATE_STOPPED)];
      rb := null;
      engine := None;
      return;
    }
    var deepBufferFrames := DeepBufferFrames(bufferSizeFrames);
    var rbSize := deepBufferFrames * BYTES_PER_FRAME;
    rb := new Ring.RingBuffer(rbSize);
    var rate := BridgeRate(sampleRate);
    engine := Some(SelectEngine(engineType));
    if !env.engineOpens {
      clearsRunning := true;
      reports := [];
      return;
    }
    prerollSleeps := PrerollWait(PrerollTarget(rate, rbSize), env.preroll);
    var stats := StatsReport(rate, env.actualPeriod, deepBufferFrames);
    reports := [stats];
    var burstFrames := BurstFrames(env.reportedBurst);
    burstBytes := burstFrames * BYTES_PER_FRAME;
    var _, consumed := ConsumeLoop(env.t0, env.ticks, stats);
    reports := reports + consumed + [StateReport(STATE_STOPPED)];
  }
}
