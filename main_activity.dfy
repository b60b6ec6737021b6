/**
 * The activity's state handling in MainActivity.kt: the `MainUiState` record
 * (the fields its reducers touch), the broadcast receivers and toggles that
 * compute a new record with `copy`, the bounded log and the direction-mask
 * chips. The class `MainActivity` holds the record as its `uiState` field and
 * the calls it makes on the bound service.
 */
module ActivityState {
  import opened Text
  import opened Wrappers
  import opened Bits
  import Settings

  /** The `MainUiState` fields the modelled handlers read or write, with the
      record's defaults. */
  datatype MainUiState = MainUiState(
    isGadgetEnabled: bool,
    isGadgetPending: bool,
    isServiceRunning: bool,
    isCapturePending: bool,
    runningDirections: int,
    sampleRateOption: int,
    keepAdbOption: bool,
    activeDirectionsOption: int,
    speakerMuted: bool,
    micMuted: bool,
    serviceState: Str,
    serviceStateColor: int,
    sampleRate: Str,
    periodSize: Str,
    currentBuffer: Str,
    udcController: Str,
    activeFunctions: Str,
    logText: Str)

  const DEFAULT_UI := MainUiState(false, false, false, false, 0, 48000, false, 1, false, false,
                                  "Idle", 0xFF888888, "--", "--", "--", "--", "--", "")

  /** A call the activity makes on the bound service. */
  datatype ServiceCall = EnableGadget(sampleRate: int, keepAdb: bool) | SetGadgetEnabled(enabled: bool) | StopBridge

  /** The log grows up to `LOG_LIMIT` characters and is then cut back to at
      most `LOG_KEEP`. */
  const LOG_LIMIT := 100000
  const LOG_KEEP := 80000

  /** One log line, stamped with the formatted time. */
  function LogLine(time: Str, msg: Str): (line: Str)
    ensures |line| == |time| + |msg| + 4 && line[|line| - 1] == '\n'
  {
    "[" + time + "] " + msg + "\n"
  }

  /** `appendLog(msg)` on the log text: the line is appended; past the limit
      the text is cut just after the first newline at or beyond the point
      that leaves `LOG_KEEP` characters, so only whole lines are dropped. */
  function AppendedLog(log: Str, time: Str, msg: Str): (r: Str)
    ensures var all := log + LogLine(time, msg);
      (|all| <= LOG_LIMIT ==> r == all) &&
      (|all| > LOG_LIMIT ==>
        |r| < LOG_KEEP && r == all[|all| - |r|..] &&
        var cut := |all| - |r| - 1;
        |all| - LOG_KEEP <= cut && all[cut] == '\n' &&
        forall i :: |all| - LOG_KEEP <= i < cut ==> all[i] != '\n')
    ensures r == [] || r[|r| - 1] == '\n'
  {
    var all := log + LogLine(time, msg);
    if |all| > LOG_LIMIT then
      var cut := IndexOfFrom(all, '\n', |all| - LOG_KEEP);
      assert all[|all| - 1] == '\n';
      if cut != -1 then all[cut + 1..] else all
    else all
  }

  /** A log made of whole lines keeps its newest line whole whenever that
      line is shorter than `LOG_KEEP`. */
  lemma NewestLineKept(log: Str, time: Str, msg: Str)
    requires log == [] || log[|log| - 1] == '\n'
    requires |LogLine(time, msg)| < LOG_KEEP
    ensures var line := LogLine(time, msg); var r := AppendedLog(log, time, msg);
      |line| <= |r| && r[|r| - |line|..] == line
  {
    var line := LogLine(time, msg);
    var all := log + line;
    var r := AppendedLog(log, time, msg);
    if |all| > LOG_LIMIT {
      assert all[|log| - 1] == '\n';
      assert |all| - |r| - 1 <= |log| - 1;
      assert r[|r| - |line|..] == all[|all| - |line|..];
    }
  }

  /** `stateReceiver`: running flag, directions, label (defaulted when the
      broadcast has none) and colour (defaulted when it is 0) are taken; the
      capture is no longer pending; a stopped service clears the stream
      figures. */
  function StateReceived(u: MainUiState, isRunning: bool, stateLabel: Option<Str>, color: int, directions: int): (r: MainUiState)
    ensures r.isServiceRunning == isRunning && r.runningDirections == directions && !r.isCapturePending
    ensures stateLabel.Some? ==> r.serviceState == stateLabel.value
    ensures stateLabel.None? ==> r.serviceState == if isRunning then "Active" else "Stopped"
    ensures color != 0 ==> r.serviceStateColor == color
    ensures !isRunning ==> r.sampleRate == "--" && r.periodSize == "--" && r.currentBuffer == "--"
    ensures isRunning ==> r.sampleRate == u.sampleRate && r.periodSize == u.periodSize && r.currentBuffer == u.currentBuffer
    ensures r.logText == u.logText && r.isGadgetEnabled == u.isGadgetEnabled && r.isGadgetPending == u.isGadgetPending
  {
    var u1 := u.(isServiceRunning := isRunning, runningDirections := directions,
                 serviceState := if stateLabel.Some? then stateLabel.value else if isRunning then "Active" else "Stopped",
                 serviceStateColor := if color != 0 then color else if isRunning then 0xFFFFC107 else 0xFF888888);
    var u2 := u1.(isCapturePending := false);
    if !isRunning then u2.(sampleRate := "--", periodSize := "--", currentBuffer := "--") else u2
  }

  /** `statsReceiver`. */
  function StatsReceived(u: MainUiState, rate: int, period: int, buffer: int): MainUiState {
    u.(sampleRate := DecimalString(rate) + " Hz",
       periodSize := DecimalString(period) + " frames",
       currentBuffer := DecimalString(buffer) + " frames")
  }

  /** The figures shown are exactly the reported numbers: each text reads
      back to its number, and nothing else changes. */
  lemma StatsShown(u: MainUiState, rate: int, period: int, buffer: int)
    ensures var r := StatsReceived(u, rate, period, buffer);
      |r.sampleRate| > 3 && ParseDecimal(r.sampleRate[..|r.sampleRate| - 3]) == rate &&
      |r.periodSize| > 7 && ParseDecimal(r.periodSize[..|r.periodSize| - 7]) == period &&
      |r.currentBuffer| > 7 && ParseDecimal(r.currentBuffer[..|r.currentBuffer| - 7]) == buffer
    ensures StatsReceived(u, rate, period, buffer).(sampleRate := u.sampleRate, periodSize := u.periodSize,
                                                     currentBuffer := u.currentBuffer) == u
  {
    var r := StatsReceived(u, rate, period, buffer);
    assert r.sampleRate[..|r.sampleRate| - 3] == DecimalString(rate);
    assert r.periodSize[..|r.periodSize| - 7] == DecimalString(period);
    assert r.currentBuffer[..|r.currentBuffer| - 7] == DecimalString(buffer);
    DecimalRoundTrip(rate);
    DecimalRoundTrip(period);
    DecimalRoundTrip(buffer);
  }

  /** `gadgetResultReceiver` on the record. */
  function GadgetResultReceived(u: MainUiState, success: bool): (r: MainUiState)
    ensures r.isGadgetEnabled == success && !r.isGadgetPending
    ensures r.(isGadgetEnabled := u.isGadgetEnabled, isGadgetPending := u.isGadgetPending) == u
  {
    u.(isGadgetEnabled := success, isGadgetPending := false)
  }

  /** `gadgetStatusReceiver`: a missing extra shows "--". */
  function GadgetStatusReceived(u: MainUiState, udc: Option<Str>, functions: Option<Str>): (r: MainUiState)
    ensures r.udcController == (if udc.Some? then udc.value else "--")
    ensures r.activeFunctions == (if functions.Some? then functions.value else "--")
    ensures r.(udcController := u.udcController, activeFunctions := u.activeFunctions) == u
  {
    u.(udcController := if udc.Some? then udc.value else "--",
       activeFunctions := if functions.Some? then functions.value else "--")
  }

  /** The gadget switch on the record: switching on only marks the gadget
      pending until the result arrives; switching off shows it disabled at
      once, and pending. */
  function GadgetToggled(u: MainUiState, enable: bool): (r: MainUiState)
    ensures r.isGadgetPending
    ensures enable ==> r == u.(isGadgetPending := true)
    ensures !enable ==> !r.isGadgetEnabled && r.(isGadgetEnabled := u.isGadgetEnabled, isGadgetPending := u.isGadgetPending) == u
  {
    if enable then u.(isGadgetPending := true) else u.(isGadgetEnabled := false, isGadgetPending := true)
  }

  /** The calls the gadget switch makes: enable with the selected rate and
      ADB choice, or mark the gadget disabled and stop the bridge. */
  function GadgetToggleCalls(u: MainUiState, enable: bool): seq<ServiceCall> {
    if enable then [EnableGadget(u.sampleRateOption, u.keepAdbOption)] else [SetGadgetEnabled(false), StopBridge]
  }

  /** An "off" always ends in a stop of the bridge and never asks to enable. */
  lemma GadgetOffStops(u: MainUiState)
    ensures var calls := GadgetToggleCalls(u, false);
      calls[|calls| - 1] == StopBridge && forall k :: 0 <= k < |calls| ==> !calls[k].EnableGadget?
  {
  }

  function SpeakerMuteToggled(u: MainUiState): (r: MainUiState)
    ensures r.speakerMuted == !u.speakerMuted && r.(speakerMuted := u.speakerMuted) == u
  {
    u.(speakerMuted := !u.speakerMuted)
  }

  function MicMuteToggled(u: MainUiState): (r: MainUiState)
    ensures r.micMuted == !u.micMuted && r.(micMuted := u.micMuted) == u
  {
    u.(micMuted := !u.micMuted)
  }

  /** Each mute toggle undoes itself, and the two do not interfere. */
  lemma MuteTogglesInvolutive(u: MainUiState)
    ensures SpeakerMuteToggled(SpeakerMuteToggled(u)) == u
    ensures MicMuteToggled(MicMuteToggled(u)) == u
    ensures SpeakerMuteToggled(MicMuteToggled(u)) == MicMuteToggled(SpeakerMuteToggled(u))
  {
  }

  /** A direction chip's click: clears bit `k` of the mask when it is set
      (`and (1 shl k).inv()`), sets it otherwise (`or (1 shl k)`). */
  function FlipDirection(mask: int, k: nat): int {
    if BitSet(mask, k) then ClearBit(mask, k) else SetBit(mask, k)
  }

  /** The speaker chip flips bit 0 (value 1), the microphone chip bit 1 (value 2). */
  function SpeakerChip(mask: int): int { FlipDirection(mask, 0) }
  function MicChip(mask: int): int { FlipDirection(mask, 1) }

  /** A chip flips exactly its own bit. */
  lemma FlipDirectionBits(mask: int, k: nat, j: nat)
    ensures BitSet(FlipDirection(mask, k), j) <==> (if j == k then !BitSet(mask, k) else BitSet(mask, j))
  {
    if BitSet(mask, k) {
      ClearBitBits(mask, k, j);
    } else {
      SetBitBits(mask, k, j);
    }
  }

  /** Clicking a chip twice restores the mask. */
  lemma FlipDirectionInvolutive(mask: int, k: nat)
    ensures FlipDirection(FlipDirection(mask, k), k) == mask
  {
    SetClearInverse(mask, k);
    FlipDirectionBits(mask, k, k);
  }

  /** The two chips on the direction masks 0..3: speaker only is 1, mic only
      is 2, both is 3. */
  lemma ChipsOnMasks()
    ensures SpeakerChip(0) == 1 && SpeakerChip(1) == 0 && SpeakerChip(2) == 3 && SpeakerChip(3) == 2
    ensures MicChip(0) == 2 && MicChip(1) == 3 && MicChip(2) == 0 && MicChip(3) == 1
  {
    assert BitSet(2, 1) && BitSet(3, 1) && !BitSet(0, 1) && !BitSet(1, 1);
  }

  /** `onActiveDirectionsChange(mask)` on the record. */
  function DirectionsChanged(u: MainUiState, mask: int): MainUiState {
    u.(activeDirectionsOption := mask)
  }

  /** The activity: its `uiState` field and the calls it made on the service,
      made only while the service is bound (`audioService?`). */
  class MainActivity {
    var uiState: MainUiState
    var serviceBound: bool
    var calls: seq<ServiceCall>

    constructor(serviceBound: bool)
      ensures uiState == DEFAULT_UI && this.serviceBound == serviceBound && calls == []
    {
      uiState := DEFAULT_UI;
      this.serviceBound := serviceBound;
      calls := [];
    }

    /** `appendLog(msg)` with the formatted time. */
    method AppendLog(time: Str, msg: Str)
      modifies this
      ensures uiState == old(uiState).(logText := AppendedLog(old(uiState).logText, time, msg))
      ensures serviceBound == old(serviceBound) && calls == old(calls)
    {
      var line := LogLine(time, msg);
      var currentText := uiState.logText + line;
      if |currentText| > LOG_LIMIT {
        var excess := |currentText| - LOG_KEEP;
        var cutIndex := IndexOfFrom(currentText, '\n', excess);
        if cutIndex != -1 {
          currentText := currentText[cutIndex + 1..];
        }
      }
      uiState := uiState.(logText := currentText);
    }

    method OnStateReceived(isRunning: bool, stateLabel: Option<Str>, color: int, directions: int)
      modifies this
      ensures uiState == StateReceived(old(uiState), isRunning, stateLabel, color, directions)
      ensures serviceBound == old(serviceBound) && calls == old(calls)
    {
      uiState := uiState.(isServiceRunning := isRunning, runningDirections := directions,
                          serviceState := if stateLabel.Some? then stateLabel.value else if isRunning then "Active" else "Stopped",
                          serviceStateColor := if color != 0 then color else if isRunning then 0xFFFFC107 else 0xFF888888);
      uiState := uiState.(isCapturePending := false);
      if !isRunning {
        uiState := uiState.(sampleRate := "--", periodSize := "--", currentBuffer := "--");
      }
    }

    method OnStatsReceived(rate: int, period: int, buffer: int)
      modifies this
      ensures uiState == StatsReceived(old(uiState), rate, period, buffer)
      ensures serviceBound == old(serviceBound) && calls == old(calls)
    {
      uiState := StatsReceived(uiState, rate, period, buffer);
    }

    method OnGadgetResult(success: bool)
      modifies this
      ensures uiState == GadgetResultReceived(old(uiState), success)
      ensures serviceBound == old(serviceBound)
      ensures calls == old(calls) + if serviceBound then [SetGadgetEnabled(success)] else []
    {
      uiState := GadgetResultReceived(uiState, success);
      if serviceBound {
        calls := calls + [SetGadgetEnabled(success)];
      }
    }

    method OnGadgetStatus(udc: Option<Str>, functions: Option<Str>)
      modifies this
      ensures uiState == GadgetStatusReceived(old(uiState), udc, functions)
      ensures serviceBound == old(serviceBound) && calls == old(calls)
    {
      uiState := GadgetStatusReceived(uiState, udc, functions);
    }

    /** The gadget switch (`onToggleGadget`). */
    method ToggleGadget(enable: bool)
      modifies this
      ensures uiState == GadgetToggled(old(uiState), enable)
      ensures serviceBound == old(serviceBound)
      ensures calls == old(calls) + if serviceBound then GadgetToggleCalls(old(uiState), enable) else []
    {
      if enable {
        uiState := uiState.(isGadgetPending := true);
        if serviceBound {
          calls := calls + [EnableGadget(uiState.sampleRateOption, uiState.keepAdbOption)];
        }
      } else {
        uiState := uiState.(isGadgetEnabled := false, isGadgetPending := true);
        if serviceBound {
          calls := calls + [SetGadgetEnabled(false)];
          calls := calls + [StopBridge];
        }
      }
    }

    method ToggleSpeakerMute()
      modifies this
      ensures uiState == SpeakerMuteToggled(old(uiState))
      ensures serviceBound == old(serviceBound) && calls == old(calls)
    {
      uiState := uiState.(speakerMuted := !uiState.speakerMuted);
    }

    method ToggleMicMute()
      modifies this
      ensures uiState == MicMuteToggled(old(uiState))
      ensures serviceBound == old(serviceBound) && calls == old(calls)
    {
      uiState := uiState.(micMuted := !uiState.micMuted);
    }

    /** A direction chip's click: the new mask is shown and saved. */
    method ClickDirectionChip(k: nat, repo: Settings.SettingsRepository)
      requires repo.Valid()
      modifies this, repo
      ensures uiState == DirectionsChanged(old(uiState), FlipDirection(old(uiState).activeDirectionsOption, k))
      ensures serviceBound == old(serviceBound) && calls == old(calls)
      ensures repo.Valid() &&
        repo.prefs == Settings.Put(old(repo.prefs), Settings.IntKey(Settings.ActiveDirections),
                                   Settings.IntV(FlipDirection(old(uiState).activeDirectionsOption, k)))
    {
      var newMask := FlipDirection(uiState.activeDirectionsOption, k);
      uiState := uiState.(activeDirectionsOption := newMask);
      repo.SaveInt(Settings.ActiveDirections, newMask);
    }
  }
}
