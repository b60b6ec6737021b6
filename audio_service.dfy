/**
 * The bridge session of AudioService.kt: the running flag, the last native
 * state code, the last error message and the six saved start parameters,
 * driven by start, stop, the native callbacks, output disconnects and the
 * notification's capture toggle. Every step is a pure function on a
 * `Session`; the class `AudioService` keeps the same fields and its methods
 * are proved to perform those steps. What the service emits (native bridge
 * start and stop, state, stats and output-disconnect broadcasts, the
 * notification text, the gadget teardown) is recorded in `effects`.
 */
module BridgeSession {
  import opened Text
  import opened Wrappers

  /** The state codes shared with the native side. */
  const STATE_STOPPED := 0
  const STATE_CONNECTING := 1
  const STATE_WAITING := 2
  const STATE_STREAMING := 3
  const STATE_IDLING := 4
  const STATE_ERROR := 5

  /** The `broadcastState` colours. */
  const RED := 0xFFF44336
  const GRAY := 0xFF888888
  const ORANGE := 0xFFFFA000
  const AMBER := 0xFFFFC107
  const GREEN := 0xFF4CAF50
  const LIGHT_BLUE := 0xFF03A9F4

  /** The start parameters `startBridge` saves for a restart. */
  datatype Params = Params(bufferSize: int, periodSize: int, engineType: int,
                           sampleRate: int, activeDirections: int, micSource: int)

  /** The initial values of `lastBufferSize` .. `lastMicSource`. */
  const SAVED_DEFAULTS := Params(0, 0, 0, 48000, 1, 6)

  /** What the service does outside its own fields. */
  datatype Effect =
    | NativeStart(card: int, device: int, params: Params)       // startAudioBridge
    | NativeStop                                                 // stopAudioBridge
    | StateBroadcast(isRunning: bool, stateLabel: Str, color: int, directions: int)
    | StatsBroadcast(rate: int, period: int, buffer: int)
    | Notify(text: Str, running: bool)                          // the notification's text
    | OutputDisconnectBroadcast(autoRestart: bool)
    | DisableGadget                                              // UsbGadgetManager.disableGadget
    | GadgetResult(success: bool)
    | StopSelf

  /** The service's fields. */
  datatype Session = Session(running: bool, nativeState: int, errorMsg: Str,
                             last: Params, gadgetEnabled: bool, effects: seq<Effect>)

  /** A freshly created service. */
  const INITIAL := Session(false, STATE_STOPPED, "", SAVED_DEFAULTS, false, [])

  /** The status table of `onNativeState` and `getStatusText`. */
  function StateText(code: int): (r: Str)
    ensures r == "Inactive" <==> !(STATE_CONNECTING <= code <= STATE_ERROR)
  {
    if code == STATE_STREAMING then "Streaming"
    else if code == STATE_CONNECTING then "Connecting"
    else if code == STATE_WAITING then "Waiting for host"
    else if code == STATE_IDLING then "Idle"
    else if code == STATE_ERROR then "Error"
    else "Inactive"
  }

  /** The five active codes have five different texts. */
  lemma StateTextDistinct(a: int, b: int)
    requires STATE_CONNECTING <= a <= STATE_ERROR && STATE_CONNECTING <= b <= STATE_ERROR
    ensures StateText(a) == StateText(b) ==> a == b
  {
  }

  /** `getBridgeText(directions)`. */
  function BridgeText(directions: int): (r: Str)
    ensures r == [] <==> !(1 <= directions <= 3)
  {
    if directions == 1 then "Speaker"
    else if directions == 2 then "Mic"
    else if directions == 3 then "Mic + Speaker"
    else ""
  }

  /** The notification text built from a status text: prefixed with "Active"
      and followed by the directions while the bridge runs. */
  function ActiveText(status: Str, running: bool, directions: int): (r: Str)
    ensures !running ==> r == status
    ensures running ==> |r| >= 8 + |status| && r[..8] == "Active (" && r[8..8 + |status|] == status
  {
    if running then "Active (" + status + ")" + " - " + BridgeText(directions) else status
  }

  /** `getStatusText()`. */
  function StatusText(s: Session): Str {
    if !s.gadgetEnabled then "Inactive - Gadget disabled" else StateText(s.nativeState)
  }

  /** The broadcast `updateUiState()` sends; `usbPlugged` is what
      `checkUsbConnected()` reads at that moment. */
  function UiState(s: Session, usbPlugged: bool): (e: Effect)
    ensures e.StateBroadcast? && e.isRunning == s.running
  {
    if s.nativeState == STATE_ERROR then StateBroadcast(s.running, "Error (" + s.errorMsg + ")", RED, 0)
    else if !s.running then StateBroadcast(s.running, "Stopped", GRAY, 0)
    else if s.nativeState == STATE_CONNECTING then
      if !usbPlugged then StateBroadcast(s.running, "Active (Not Connected)", ORANGE, s.last.activeDirections)
      else StateBroadcast(s.running, "Active (Searching...)", AMBER, s.last.activeDirections)
    else if s.nativeState == STATE_WAITING then
      if !usbPlugged then StateBroadcast(s.running, "Active (Not Connected)", ORANGE, s.last.activeDirections)
      else StateBroadcast(s.running, "Active (Waiting for Host...)", AMBER, s.last.activeDirections)
    else if s.nativeState == STATE_STREAMING then StateBroadcast(s.running, "Streaming", GREEN, s.last.activeDirections)
    else if s.nativeState == STATE_IDLING then StateBroadcast(s.running, "Active (Idling)", LIGHT_BLUE, s.last.activeDirections)
    else StateBroadcast(s.running, "Active", GRAY, s.last.activeDirections)
  }

  /** A label that reports an error. */
  predicate IsErrorLabel(lbl: Str) {
    StartsWith(lbl, "Error (")
  }

  /** The label reports an error exactly in state ERROR, whether or not the
      bridge runs, and then carries the message. */
  lemma ErrorLabelIff(s: Session, usbPlugged: bool)
    ensures IsErrorLabel(UiState(s, usbPlugged).stateLabel) <==> s.nativeState == STATE_ERROR
    ensures s.nativeState == STATE_ERROR ==> UiState(s, usbPlugged).stateLabel == "Error (" + s.errorMsg + ")"
  {
    var lbl := UiState(s, usbPlugged).stateLabel;
    if s.nativeState != STATE_ERROR {
      assert lbl[0] != 'E';
    }
  }

  /** "Stopped" exactly when the bridge is not running and not in error;
      "Streaming" exactly when it runs in state STREAMING; the unplugged label
      exactly while it runs, searches or waits, and the cable is out. */
  lemma LabelTable(s: Session, usbPlugged: bool)
    ensures UiState(s, usbPlugged).stateLabel == "Stopped" <==> !s.running && s.nativeState != STATE_ERROR
    ensures UiState(s, usbPlugged).stateLabel == "Streaming" <==> s.running && s.nativeState == STATE_STREAMING
    ensures UiState(s, usbPlugged).stateLabel == "Active (Not Connected)" <==>
      s.running && !usbPlugged && (s.nativeState == STATE_CONNECTING || s.nativeState == STATE_WAITING)
    ensures UiState(s, usbPlugged).directions != 0 ==> s.running && s.nativeState != STATE_ERROR
  {
    var lbl := UiState(s, usbPlugged).stateLabel;
    if s.nativeState == STATE_ERROR {
      assert lbl[0] == 'E';
    }
  }

  /** Only the searching and waiting labels depend on the cable. */
  lemma UsbMattersOnlyWhileConnecting(s: Session)
    requires !s.running || s.nativeState == STATE_ERROR ||
             (s.nativeState != STATE_CONNECTING && s.nativeState != STATE_WAITING)
    ensures UiState(s, true) == UiState(s, false)
  {
  }

  /** `updateUiState()`. */
  function UpdateUi(s: Session, usbPlugged: bool): Session {
    s.(effects := s.effects + [UiState(s, usbPlugged)])
  }

  /** `onNativeState(code)`: only the state changes; the notification shows
      the code's text and the broadcast the new state's label. */
  function NativeStateStep(s: Session, code: int, usbPlugged: bool): (r: Session)
    ensures r.nativeState == code
    ensures r.running == s.running && r.errorMsg == s.errorMsg && r.last == s.last && r.gadgetEnabled == s.gadgetEnabled
    ensures r.effects == s.effects + [Notify(ActiveText(StateText(code), s.running, s.last.activeDirections), s.running),
                                      UiState(r, usbPlugged)]
  {
    var s1 := s.(nativeState := code);
    UpdateUi(s1.(effects := s1.effects + [Notify(ActiveText(StateText(code), s.running, s.last.activeDirections), s.running)]),
             usbPlugged)
  }

  /** `onNativeStats(rate, period, buffer)`: the stats are broadcast and the
      state is forced to STREAMING, through `onNativeState` only when it was
      not STREAMING already. */
  function NativeStatsStep(s: Session, rate: int, period: int, buffer: int, usbPlugged: bool): (r: Session)
    ensures r.nativeState == STATE_STREAMING
    ensures r.running == s.running && r.errorMsg == s.errorMsg && r.last == s.last && r.gadgetEnabled == s.gadgetEnabled
    ensures |r.effects| > |s.effects| && r.effects[|s.effects|] == StatsBroadcast(rate, period, buffer)
    ensures s.nativeState == STATE_STREAMING <==> |r.effects| == |s.effects| + 1
  {
    var s1 := s.(effects := s.effects + [StatsBroadcast(rate, period, buffer)]);
    if s.nativeState != STATE_STREAMING then NativeStateStep(s1, STATE_STREAMING, usbPlugged) else s1
  }

  /** `onNativeError(msg)`: the native bridge is stopped and the service ends
      not running, in ERROR, with `msg`, which the broadcast label shows. */
  function NativeErrorStep(s: Session, msg: Str, usbPlugged: bool): (r: Session)
    ensures !r.running && r.nativeState == STATE_ERROR && r.errorMsg == msg
    ensures r.last == s.last && r.gadgetEnabled == s.gadgetEnabled
    ensures r.effects == s.effects + [NativeStop, Notify("Monitoring Error", false),
                                      StateBroadcast(false, "Error (" + msg + ")", RED, 0)]
  {
    UpdateUi(s.(running := false, nativeState := STATE_ERROR, errorMsg := msg,
                effects := s.effects + [NativeStop, Notify("Monitoring Error", false)]), usbPlugged)
  }

  /** Whether `stopAudioOnly` acts: while running, or to clear an error. */
  predicate StopsAudio(s: Session) {
    s.running || s.nativeState == STATE_ERROR
  }

  /** `stopAudioOnly()`: nothing when stopped without an error; otherwise the
      native bridge stops and the session is cleared to STOPPED with no
      message, which the broadcast label shows. */
  function StopAudioStep(s: Session, usbPlugged: bool): (r: Session)
    ensures !StopsAudio(s) ==> r == s
    ensures StopsAudio(s) ==>
      !r.running && r.nativeState == STATE_STOPPED && r.errorMsg == [] &&
      r.last == s.last && r.gadgetEnabled == s.gadgetEnabled &&
      r.effects == s.effects + [NativeStop, Notify("Monitoring Paused (Gadget Active)", false),
                                StateBroadcast(false, "Stopped", GRAY, 0)]
  {
    if !StopsAudio(s) then s
    else
      UpdateUi(s.(running := false, nativeState := STATE_STOPPED, errorMsg := "",
                  effects := s.effects + [NativeStop, Notify("Monitoring Paused (Gadget Active)", false)]), usbPlugged)
  }

  /** What `stopBridge` always schedules: gadget teardown, the gadget result
      `false`, and the end of the service. */
  const TEARDOWN: seq<Effect> := [DisableGadget, GadgetResult(false), StopSelf]

  /** `stopBridge()`: the session is cleared only when it was running; the
      teardown is scheduled in every case. */
  function StopStep(s: Session, usbPlugged: bool): (r: Session)
    ensures |r.effects| >= 3 && r.effects[|r.effects| - 3..] == TEARDOWN
    ensures !s.running ==> r == s.(effects := s.effects + TEARDOWN)
    ensures s.running ==>
      !r.running && r.nativeState == STATE_STOPPED && r.errorMsg == [] &&
      r.last == s.last && r.gadgetEnabled == s.gadgetEnabled &&
      r.effects == s.effects + [NativeStop,
                                Notify(if s.gadgetEnabled then "Inactive" else "Inactive - Gadget disabled", false),
                                StateBroadcast(false, "Stopped", GRAY, 0)] + TEARDOWN
  {
    var s1 :=
      if s.running then
        var stopped := s.(running := false, nativeState := STATE_STOPPED, errorMsg := "");
        UpdateUi(stopped.(effects := s.effects + [NativeStop, Notify(StatusText(stopped), false)]), usbPlugged)
      else s;
    s1.(effects := s1.effects + TEARDOWN)
  }

  /** `startBridge(params)` once the card lookup has returned `card`: nothing
      while running; otherwise the parameters are saved first, and only a
      card found (`card >= 0`) starts the native bridge on device 0 and makes
      the session running, CONNECTING, with no message. */
  function StartStep(s: Session, p: Params, card: int, usbPlugged: bool): (r: Session)
    ensures s.running ==> r == s
    ensures !s.running ==> r.last == p && r.gadgetEnabled == s.gadgetEnabled
    ensures !s.running && card < 0 ==> r == s.(last := p)
    ensures !s.running && card >= 0 ==>
      r.running && r.nativeState == STATE_CONNECTING && r.errorMsg == [] &&
      r.effects == s.effects + [NativeStart(card, 0, p), Notify("Active", true), UiState(r, usbPlugged)]
  {
    if s.running then s
    else
      var s1 := s.(last := p);
      if card < 0 then s1
      else
        UpdateUi(s1.(running := true, nativeState := STATE_CONNECTING, errorMsg := "",
                     effects := s1.effects + [NativeStart(card, 0, p), Notify("Active", true)]), usbPlugged)
  }

  /** `handleOutputDisconnect()` with the auto-restart setting and the card a
      restart would find. */
  function OutputDisconnectStep(s: Session, autoRestart: bool, card: int, usbPlugged: bool): (r: Session)
    ensures !s.running ==> r == s
  {
    if !s.running then s
    else
      var s1 := s.(effects := s.effects + [OutputDisconnectBroadcast(autoRestart)]);
      if autoRestart then
        var s2 := s1.(running := false, effects := s1.effects + [NativeStop]);
        if s2.last.bufferSize > 0 then StartStep(s2, s2.last, card, usbPlugged) else s2
      else StopAudioStep(s1, usbPlugged)
  }

  /** Without auto-restart a disconnect is `stopAudioOnly` after the
      disconnect broadcast. */
  lemma DisconnectWithoutRestartStops(s: Session, card: int, usbPlugged: bool)
    requires s.running
    ensures OutputDisconnectStep(s, false, card, usbPlugged) ==
      StopAudioStep(s.(effects := s.effects + [OutputDisconnectBroadcast(false)]), usbPlugged)
    ensures !OutputDisconnectStep(s, false, card, usbPlugged).running
  {
  }

  /** With auto-restart and saved parameters, a disconnect stops the native
      bridge and starts it again with exactly the saved parameters; the
      session is CONNECTING again when the card is found. */
  lemma DisconnectRestartsWithSavedParams(s: Session, card: int, usbPlugged: bool)
    requires s.running && s.last.bufferSize > 0 && card >= 0
    ensures var r := OutputDisconnectStep(s, true, card, usbPlugged);
      r.running && r.nativeState == STATE_CONNECTING && r.last == s.last &&
      r.effects == s.effects + [OutputDisconnectBroadcast(true), NativeStop, NativeStart(card, 0, s.last),
                                Notify("Active", true), UiState(r, usbPlugged)]
  {
  }

  /** With auto-restart but no saved buffer size, nothing is restarted: the
      bridge ends stopped and its state code is left as it was. */
  lemma DisconnectWithoutSavedBufferStaysStopped(s: Session, card: int, usbPlugged: bool)
    requires s.running && s.last.bufferSize <= 0
    ensures var r := OutputDisconnectStep(s, true, card, usbPlugged);
      !r.running && r.nativeState == s.nativeState &&
      r.effects == s.effects + [OutputDisconnectBroadcast(true), NativeStop]
  {
  }

  /** The parameters `toggleCapture` starts with: the saved ones, with a
      non-positive buffer size, period, rate or direction mask replaced by
      1024, 0, 48000 and 1. */
  function ToggleParams(p: Params): (r: Params)
    ensures r.bufferSize > 0 && r.periodSize >= 0 && r.sampleRate > 0 && r.activeDirections > 0
    ensures r.engineType == p.engineType && r.micSource == p.micSource
    ensures p.bufferSize > 0 ==> r.bufferSize == p.bufferSize
    ensures p.periodSize > 0 ==> r.periodSize == p.periodSize
    ensures p.sampleRate > 0 ==> r.sampleRate == p.sampleRate
    ensures p.activeDirections > 0 ==> r.activeDirections == p.activeDirections
  {
    Params(if p.bufferSize > 0 then p.bufferSize else 1024,
           if p.periodSize > 0 then p.periodSize else 0,
           p.engineType,
           if p.sampleRate > 0 then p.sampleRate else 48000,
           if p.activeDirections > 0 then p.activeDirections else 1,
           p.micSource)
  }

  /** The substitutions are idempotent, and what a fresh service toggles on
      with is buffer 1024 at 48000 Hz, speaker only, microphone source 6. */
  lemma ToggleParamsSettled(p: Params)
    ensures ToggleParams(ToggleParams(p)) == ToggleParams(p)
    ensures ToggleParams(SAVED_DEFAULTS) == Params(1024, 0, 0, 48000, 1, 6)
  {
  }

  /** `toggleCapture()`. */
  function ToggleStep(s: Session, card: int, usbPlugged: bool): (r: Session)
    ensures s.running ==> r == StopStep(s, usbPlugged)
    ensures !s.running ==> r == StartStep(s, ToggleParams(s.last), card, usbPlugged)
  {
    if s.running then StopStep(s, usbPlugged) else StartStep(s, ToggleParams(s.last), card, usbPlugged)
  }

  /** `setGadgetEnabled(enabled)` and its `refreshNotification()`. */
  function SetGadgetStep(s: Session, enabled: bool): (r: Session)
    ensures r.gadgetEnabled == enabled
    ensures r.running == s.running && r.nativeState == s.nativeState && r.errorMsg == s.errorMsg && r.last == s.last
    ensures !enabled ==> r.effects == s.effects + [Notify(ActiveText("Inactive - Gadget disabled", s.running, s.last.activeDirections), s.running)]
    ensures enabled ==> r.effects == s.effects + [Notify(ActiveText(StateText(s.nativeState), s.running, s.last.activeDirections), s.running)]
  {
    var s1 := s.(gadgetEnabled := enabled);
    s1.(effects := s1.effects + [Notify(ActiveText(StatusText(s1), s.running, s.last.activeDirections), s.running)])
  }

  /** Everything that can happen to the service. */
  datatype Event =
    | Start(params: Params, card: int)
    | NativeState(code: int)
    | NativeStats(rate: int, period: int, buffer: int)
    | NativeError(msg: Str)
    | StopAudio
    | Stop
    | OutputDisconnect(autoRestart: bool, card: int)
    | Toggle(card: int)
    | SetGadget(enabled: bool)
    | PowerChanged                      // the power-connection receiver

  /** An event and the cable state `checkUsbConnected()` reads while it is handled. */
  datatype Input = Input(event: Event, usbPlugged: bool)

  function Apply(s: Session, i: Input): Session {
    match i.event
    case Start(p, card) => StartStep(s, p, card, i.usbPlugged)
    case NativeState(code) => NativeStateStep(s, code, i.usbPlugged)
    case NativeStats(rate, period, buffer) => NativeStatsStep(s, rate, period, buffer, i.usbPlugged)
    case NativeError(msg) => NativeErrorStep(s, msg, i.usbPlugged)
    case StopAudio => StopAudioStep(s, i.usbPlugged)
    case Stop => StopStep(s, i.usbPlugged)
    case OutputDisconnect(autoRestart, card) => OutputDisconnectStep(s, autoRestart, card, i.usbPlugged)
    case Toggle(card) => ToggleStep(s, card, i.usbPlugged)
    case SetGadget(enabled) => SetGadgetStep(s, enabled)
    case PowerChanged => UpdateUi(s, i.usbPlugged)
  }

  /** The session after a sequence of inputs. */
  function Run(s: Session, inputs: seq<Input>): Session
    decreases |inputs|
  {
    if inputs == [] then s else Run(Apply(s, inputs[0]), inputs[1..])
  }

  /** The events after which an error of a stopped bridge stays on display:
      only an explicit `stopAudioOnly`, a start that finds a card or a native
      state change clears it. */
  predicate KeepsError(e: Event) {
    e.NativeError? || e.Stop? || e.SetGadget? || e.PowerChanged? || e.OutputDisconnect? ||
    ((e.Start? || e.Toggle?) && e.card < 0)
  }

  /** The error is sticky: from a stopped bridge in ERROR, any run of the
      events above leaves it stopped and in ERROR, so every label it
      broadcasts reports the error. */
  lemma {:induction false} ErrorSticky(s: Session, inputs: seq<Input>)
    requires !s.running && s.nativeState == STATE_ERROR
    requires forall k :: 0 <= k < |inputs| ==> KeepsError(inputs[k].event)
    ensures !Run(s, inputs).running && Run(s, inputs).nativeState == STATE_ERROR
    ensures forall usb: bool :: IsErrorLabel(UiState(Run(s, inputs), usb).stateLabel)
    decreases |inputs|
  {
    if inputs != [] {
      var s1 := Apply(s, inputs[0]);
      assert !s1.running && s1.nativeState == STATE_ERROR;
      ErrorSticky(s1, inputs[1..]);
    }
    forall usb: bool {
      ErrorLabelIff(Run(s, inputs), usb);
    }
  }

  /** An explicit stop always clears an error, running or not. */
  lemma StopAudioClearsError(s: Session, usbPlugged: bool)
    requires s.nativeState == STATE_ERROR
    ensures var r := StopAudioStep(s, usbPlugged);
      !r.running && r.nativeState == STATE_STOPPED && !IsErrorLabel(UiState(r, usbPlugged).stateLabel)
  {
    ErrorLabelIff(StopAudioStep(s, usbPlugged), usbPlugged);
  }

  /** Whether the effects last started (rather than stopped) the native
      bridge: `Some(true)` after a start, `Some(false)` after a stop, `None`
      when neither happened. */
  function LastNative(es: seq<Effect>): Option<bool>
    decreases |es|
  {
    if es == [] then None
    else if es[|es| - 1].NativeStart? then Some(true)
    else if es[|es| - 1].NativeStop? then Some(false)
    else LastNative(es[..|es| - 1])
  }

  /** The later effects decide, unless they neither start nor stop. */
  lemma {:induction false} LastNativeAppend(a: seq<Effect>, b: seq<Effect>)
    ensures LastNative(a + b) == if LastNative(b).Some? then LastNative(b) else LastNative(a)
    decreases |b|
  {
    if b != [] {
      assert (a + b)[..|a + b| - 1] == a + b[..|b| - 1];
      LastNativeAppend(a, b[..|b| - 1]);
    } else {
      assert a + b == a;
    }
  }

  /** The running flag is true exactly when the native bridge was last
      started. */
  predicate NativeConsistent(s: Session) {
    s.running <==> LastNative(s.effects) == Some(true)
  }

  lemma InitialConsistent()
    ensures NativeConsistent(INITIAL)
  {
  }

  /** Effects that neither start nor stop the native bridge. */
  predicate Quiet(b: seq<Effect>) {
    forall k :: 0 <= k < |b| ==> !b[k].NativeStart? && !b[k].NativeStop?
  }

  lemma {:induction false} QuietHasNoLast(b: seq<Effect>)
    requires Quiet(b)
    ensures LastNative(b) == None
    decreases |b|
  {
    if b != [] {
      QuietHasNoLast(b[..|b| - 1]);
    }
  }

  /** Appending quiet effects keeps the invariant's reading. */
  lemma QuietAppend(a: seq<Effect>, b: seq<Effect>)
    requires Quiet(b)
    ensures LastNative(a + b) == LastNative(a)
  {
    QuietHasNoLast(b);
    LastNativeAppend(a, b);
  }

  /** Appending one start or stop followed by quiet effects ends in it. */
  lemma LoudAppend(a: seq<Effect>, e: Effect, b: seq<Effect>)
    requires e.NativeStart? || e.NativeStop?
    requires Quiet(b)
    ensures LastNative(a + [e] + b) == Some(e.NativeStart?)
  {
    QuietAppend(a + [e], b);
    assert (a + [e])[..|a + [e]| - 1] == a;
  }

  /** Every input keeps the running flag in step with the native bridge. */
  lemma ApplyConsistent(s: Session, i: Input)
    requires NativeConsistent(s)
    ensures NativeConsistent(Apply(s, i))
  {
    var usb := i.usbPlugged;
    assert i == Input(i.event, usb);
    match i.event
    case Start(p, card) => StartConsistent(s, p, card, usb);
    case NativeState(code) => NativeStateConsistent(s, code, usb);
    case NativeStats(rate, period, buffer) => StatsConsistent(s, rate, period, buffer, usb);
    case NativeError(msg) => ErrorConsistent(s, msg, usb);
    case StopAudio => StopAudioConsistent(s, usb);
    case Stop => StopConsistent(s, usb);
    case OutputDisconnect(autoRestart, card) => DisconnectConsistent(s, autoRestart, card, usb);
    case Toggle(card) => ToggleConsistent(s, card, usb);
    case SetGadget(enabled) => SetGadgetConsistent(s, enabled, usb);
    case PowerChanged => UpdateUiConsistent(s, usb);
  }

  lemma ToggleConsistent(s: Session, card: int, usbPlugged: bool)
    requires NativeConsistent(s)
    ensures NativeConsistent(ToggleStep(s, card, usbPlugged))
    ensures NativeConsistent(Apply(s, Input(Toggle(card), usbPlugged)))
  {
    if s.running {
      StopConsistent(s, usbPlugged);
    } else {
      StartConsistent(s, ToggleParams(s.last), card, usbPlugged);
    }
  }

  lemma UpdateUiConsistent(s: Session, usbPlugged: bool)
    requires NativeConsistent(s)
    ensures NativeConsistent(UpdateUi(s, usbPlugged))
    ensures NativeConsistent(Apply(s, Input(PowerChanged, usbPlugged)))
  {
    QuietAppend(s.effects, [UiState(s, usbPlugged)]);
  }

  lemma NativeStateConsistent(s: Session, code: int, usbPlugged: bool)
    requires NativeConsistent(s)
    ensures NativeConsistent(NativeStateStep(s, code, usbPlugged))
    ensures NativeConsistent(Apply(s, Input(NativeState(code), usbPlugged)))
  {
    var r := NativeStateStep(s, code, usbPlugged);
    QuietAppend(s.effects, r.effects[|s.effects|..]);
    assert r.effects == s.effects + r.effects[|s.effects|..];
  }

  lemma StatsConsistent(s: Session, rate: int, period: int, buffer: int, usbPlugged: bool)
    requires NativeConsistent(s)
    ensures NativeConsistent(NativeStatsStep(s, rate, period, buffer, usbPlugged))
    ensures NativeConsistent(Apply(s, Input(NativeStats(rate, period, buffer), usbPlugged)))
  {
    var s1 := s.(effects := s.effects + [StatsBroadcast(rate, period, buffer)]);
    QuietAppend(s.effects, [StatsBroadcast(rate, period, buffer)]);
    if s.nativeState != STATE_STREAMING {
      NativeStateConsistent(s1, STATE_STREAMING, usbPlugged);
    }
  }

  lemma ErrorConsistent(s: Session, msg: Str, usbPlugged: bool)
    requires NativeConsistent(s)
    ensures NativeConsistent(NativeErrorStep(s, msg, usbPlugged))
    ensures NativeConsistent(Apply(s, Input(NativeError(msg), usbPlugged)))
  {
    var tail := [Notify("Monitoring Error", false), StateBroadcast(false, "Error (" + msg + ")", RED, 0)];
    LoudAppend(s.effects, NativeStop, tail);
    assert NativeErrorStep(s, msg, usbPlugged).effects == s.effects + [NativeStop] + tail;
  }

  lemma StopAudioConsistent(s: Session, usbPlugged: bool)
    requires NativeConsistent(s)
    ensures NativeConsistent(StopAudioStep(s, usbPlugged))
    ensures NativeConsistent(Apply(s, Input(StopAudio, usbPlugged)))
  {
    if StopsAudio(s) {
      var tail := [Notify("Monitoring Paused (Gadget Active)", false), StateBroadcast(false, "Stopped", GRAY, 0)];
      LoudAppend(s.effects, NativeStop, tail);
      assert StopAudioStep(s, usbPlugged).effects == s.effects + [NativeStop] + tail;
    }
  }

  lemma SetGadgetConsistent(s: Session, enabled: bool, usbPlugged: bool)
    requires NativeConsistent(s)
    ensures NativeConsistent(SetGadgetStep(s, enabled))
    ensures NativeConsistent(Apply(s, Input(SetGadget(enabled), usbPlugged)))
  {
    var r := SetGadgetStep(s, enabled);
    QuietAppend(s.effects, r.effects[|s.effects|..]);
    assert r.effects == s.effects + r.effects[|s.effects|..];
  }

  lemma StartConsistent(s: Session, p: Params, card: int, usbPlugged: bool)
    requires NativeConsistent(s)
    ensures NativeConsistent(StartStep(s, p, card, usbPlugged))
    ensures NativeConsistent(Apply(s, Input(Start(p, card), usbPlugged)))
  {
    if !s.running && card >= 0 {
      var r := StartStep(s, p, card, usbPlugged);
      LoudAppend(s.effects, NativeStart(card, 0, p), [Notify("Active", true), UiState(r, usbPlugged)]);
      assert r.effects == s.effects + [NativeStart(card, 0, p)] + [Notify("Active", true), UiState(r, usbPlugged)];
    }
  }

  lemma StopConsistent(s: Session, usbPlugged: bool)
    requires NativeConsistent(s)
    ensures NativeConsistent(StopStep(s, usbPlugged))
    ensures NativeConsistent(Apply(s, Input(Stop, usbPlugged)))
  {
    if s.running {
      StopRunningConsistent(s, usbPlugged);
    } else {
      QuietAppend(s.effects, TEARDOWN);
    }
    assert Apply(s, Input(Stop, usbPlugged)) == StopStep(s, usbPlugged);
  }

  /** Stopping a running bridge leaves the native stop as the last start or
      stop. */
  lemma StopRunningConsistent(s: Session, usbPlugged: bool)
    requires s.running
    ensures !StopStep(s, usbPlugged).running && LastNative(StopStep(s, usbPlugged).effects) == Some(false)
  {
    var tail := [Notify(if s.gadgetEnabled then "Inactive" else "Inactive - Gadget disabled", false),
                 StateBroadcast(false, "Stopped", GRAY, 0)] + TEARDOWN;
    LoudAppend(s.effects, NativeStop, tail);
    assert s.effects + [NativeStop] + tail == StopStep(s, usbPlugged).effects;
  }

  lemma DisconnectConsistent(s: Session, autoRestart: bool, card: int, usbPlugged: bool)
    requires NativeConsistent(s)
    ensures NativeConsistent(OutputDisconnectStep(s, autoRestart, card, usbPlugged))
    ensures NativeConsistent(Apply(s, Input(OutputDisconnect(autoRestart, card), usbPlugged)))
  {
    if s.running {
      var s1 := s.(effects := s.effects + [OutputDisconnectBroadcast(autoRestart)]);
      if autoRestart {
        var s2 := s1.(running := false, effects := s1.effects + [NativeStop]);
        LoudAppend(s1.effects, NativeStop, []);
        assert s1.effects + [NativeStop] + [] == s2.effects;
        if s2.last.bufferSize > 0 {
          StartConsistent(s2, s2.last, card, usbPlugged);
        }
      } else {
        assert NativeConsistent(s1) by { QuietAppend(s.effects, [OutputDisconnectBroadcast(autoRestart)]); }
        StopAudioConsistent(s1, usbPlugged);
      }
    }
  }

  /** From a fresh service, after any inputs, the running flag says exactly
      whether the native bridge was last started rather than stopped. */
  lemma {:induction false} RunConsistent(s: Session, inputs: seq<Input>)
    requires NativeConsistent(s)
    ensures NativeConsistent(Run(s, inputs))
    decreases |inputs|
  {
    if inputs != [] {
      ApplyConsistent(s, inputs[0]);
      RunConsistent(Apply(s, inputs[0]), inputs[1..]);
    }
  }

  /** The service object: the fields of AudioService.kt and what it emitted. */
  class AudioService {
    var isBridgeRunning: bool
    var lastNativeState: int
    var lastErrorMsg: Str
    var lastBufferSize: int
    var lastPeriodSize: int
    var lastEngineType: int
    var lastSampleRate: int
    var lastActiveDirections: int
    var lastMicSource: int
    var isGadgetEnabled: bool
    var effects: seq<Effect>

    function Snapshot(): Session
      reads this
    {
      Session(isBridgeRunning, lastNativeState, lastErrorMsg,
              Params(lastBufferSize, lastPeriodSize, lastEngineType, lastSampleRate, lastActiveDirections, lastMicSource),
              isGadgetEnabled, effects)
    }

    constructor()
      ensures Snapshot() == INITIAL
    {
      isBridgeRunning := false;
      lastNativeState := STATE_STOPPED;
      lastErrorMsg := "";
      lastBufferSize := 0;
      lastPeriodSize := 0;
      lastEngineType := 0;
      lastSampleRate := 48000;
      lastActiveDirections := 1;
      lastMicSource := 6;
      isGadgetEnabled := false;
      effects := [];
    }

    method UpdateUiState(usbPlugged: bool)
      modifies this
      ensures Snapshot() == UpdateUi(old(Snapshot()), usbPlugged)
    {
      effects := effects + [UiState(Snapshot(), usbPlugged)];
    }

    method OnNativeState(stateCode: int, usbPlugged: bool)
      modifies this
      ensures Snapshot() == NativeStateStep(old(Snapshot()), stateCode, usbPlugged)
    {
      lastNativeState := stateCode;
      var isRunning := isBridgeRunning;
      var fullText := ActiveText(StateText(stateCode), isRunning, lastActiveDirections);
      effects := effects + [Notify(fullText, isRunning)];
      UpdateUiState(usbPlugged);
    }

    method OnNativeStats(rate: int, period: int, buffer: int, usbPlugged: bool)
      modifies this
      ensures Snapshot() == NativeStatsStep(old(Snapshot()), rate, period, buffer, usbPlugged)
    {
      effects := effects + [StatsBroadcast(rate, period, buffer)];
      if lastNativeState != STATE_STREAMING {
        OnNativeState(STATE_STREAMING, usbPlugged);
      }
    }

    method OnNativeError(msg: Str, usbPlugged: bool)
      modifies this
      ensures Snapshot() == NativeErrorStep(old(Snapshot()), msg, usbPlugged)
    {
      effects := effects + [NativeStop];
      isBridgeRunning := false;
      lastNativeState := STATE_ERROR;
      lastErrorMsg := msg;
      effects := effects + [Notify("Monitoring Error", false)];
      UpdateUiState(usbPlugged);
    }

    method StopAudioOnly(usbPlugged: bool)
      modifies this
      ensures Snapshot() == StopAudioStep(old(Snapshot()), usbPlugged)
    {
      if !isBridgeRunning && lastNativeState != STATE_ERROR {
        return;
      }
      effects := effects + [NativeStop];
      isBridgeRunning := false;
      lastNativeState := STATE_STOPPED;
      lastErrorMsg := "";
      effects := effects + [Notify("Monitoring Paused (Gadget Active)", false)];
      UpdateUiState(usbPlugged);
    }

    method StopBridge(usbPlugged: bool)
      modifies this
      ensures Snapshot() == StopStep(old(Snapshot()), usbPlugged)
    {
      var wasRunning := isBridgeRunning;
      if wasRunning {
        effects := effects + [NativeStop];
        isBridgeRunning := false;
        lastNativeState := STATE_STOPPED;
        lastErrorMsg := "";
        effects := effects + [Notify(StatusText(Snapshot()), false)];
        UpdateUiState(usbPlugged);
      }
      effects := effects + [DisableGadget, GadgetResult(false), StopSelf];
    }

    /** `startBridge`, given what `findAndPrepareCard` returns. */
    method StartBridge(bufferSize: int, periodSize: int, engineType: int, sampleRate: int,
                       activeDirections: int, micSource: int, cardId: int, usbPlugged: bool)
      modifies this
      ensures Snapshot() == StartStep(old(Snapshot()),
        Params(bufferSize, periodSize, engineType, sampleRate, activeDirections, micSource), cardId, usbPlugged)
    {
      if isBridgeRunning {
        return;
      }
      lastBufferSize := bufferSize;
      lastPeriodSize := periodSize;
      lastEngineType := engineType;
      lastSampleRate := sampleRate;
      lastActiveDirections := activeDirections;
      lastMicSource := micSource;
      if cardId < 0 {
        return;
      }
      effects := effects + [NativeStart(cardId, 0, Params(bufferSize, periodSize, engineType, sampleRate, activeDirections, micSource))];
      isBridgeRunning := true;
      lastNativeState := STATE_CONNECTING;
      lastErrorMsg := "";
      effects := effects + [Notify("Active", true)];
      UpdateUiState(usbPlugged);
    }

    /** `handleOutputDisconnect`, given the auto-restart setting and what a
        restart's card lookup returns. */
    method HandleOutputDisconnect(autoRestart: bool, cardId: int, usbPlugged: bool)
      modifies this
      ensures Snapshot() == OutputDisconnectStep(old(Snapshot()), autoRestart, cardId, usbPlugged)
    {
      if !isBridgeRunning {
        return;
      }
      effects := effects + [OutputDisconnectBroadcast(autoRestart)];
      if autoRestart {
        effects := effects + [NativeStop];
        isBridgeRunning := false;
        if lastBufferSize > 0 {
          StartBridge(lastBufferSize, lastPeriodSize, lastEngineType, lastSampleRate,
                      lastActiveDirections, lastMicSource, cardId, usbPlugged);
        }
      } else {
        StopAudioOnly(usbPlugged);
      }
    }

    method ToggleCapture(cardId: int, usbPlugged: bool)
      modifies this
      ensures Snapshot() == ToggleStep(old(Snapshot()), cardId, usbPlugged)
    {
      if isBridgeRunning {
        StopBridge(usbPlugged);
      } else {
        var bufferSize := if lastBufferSize > 0 then lastBufferSize else 1024;
        var periodSize := if lastPeriodSize > 0 then lastPeriodSize else 0;
        var engineType := lastEngineType;
        var sampleRate := if lastSampleRate > 0 then lastSampleRate else 48000;
        var activeDirections := if lastActiveDirections > 0 then lastActiveDirections else 1;
        var micSource := lastMicSource;
        StartBridge(bufferSize, periodSize, engineType, sampleRate, activeDirections, micSource, cardId, usbPlugged);
      }
    }

    method SetGadgetEnabled(enabled: bool)
      modifies this
      ensures Snapshot() == SetGadgetStep(old(Snapshot()), enabled)
    {
      isGadgetEnabled := enabled;
      var fullText := ActiveText(StatusText(Snapshot()), isBridgeRunning, lastActiveDirections);
      effects := effects + [Notify(fullText, isBridgeRunning)];
    }
  }
}
