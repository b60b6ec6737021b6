/**
 * The preference store (SettingsRepository.kt): one `SharedPreferences` file,
 * a map from key strings to typed values, read with a per-key default. Every
 * `saveX`/`getX` pair of the source is one key below; the pure functions over
 * the map carry the properties and the class mutates its map through them.
 */
module Settings {
  import opened Wrappers

  /** Integer preferences. */
  datatype IntSetting =
    | BufferMode | LatencyPreset | PeriodSize | EngineType | SampleRate
    | ActiveDirections | MicSource | ScreensaverTimeout | ScreensaverRepositionInterval

  /** Boolean preferences. */
  datatype BoolSetting =
    | KeepAdb | AutoRestartOnOutputChange | MuteOnMediaButton | KernelNoticeDismissed
    | NotificationEnabled | KeepScreenOn | ScreensaverEnabled | ScreensaverFullscreen

  /** Nullable string preferences (no default). */
  datatype StrSetting = OrigManufacturer | OrigProduct | OrigSerial | StoppedHalService

  /** Every key the repository uses; `buffer_size` is its only float. */
  datatype Key = IntKey(i: IntSetting) | BoolKey(b: BoolSetting) | BufferSizeKey | StrKey(s: StrSetting)

  /** A stored value (`putInt`, `putBoolean`, `putFloat`, `putString`). */
  datatype Value = IntV(i: int) | BoolV(b: bool) | FloatV(f: real) | StrV(s: string)

  type Prefs = map<string, Value>

  function IntName(s: IntSetting): string {
    match s
    case BufferMode => "buffer_mode"
    case LatencyPreset => "latency_preset"
    case PeriodSize => "period_size"
    case EngineType => "engine_type"
    case SampleRate => "sample_rate"
    case ActiveDirections => "active_directions"
    case MicSource => "mic_source"
    case ScreensaverTimeout => "screensaver_timeout"
    case ScreensaverRepositionInterval => "screensaver_reposition_interval"
  }

  function BoolName(s: BoolSetting): string {
    match s
    case KeepAdb => "keep_adb"
    case AutoRestartOnOutputChange => "auto_restart_output"
    case MuteOnMediaButton => "mute_on_media_button"
    case KernelNoticeDismissed => "kernel_notice_dismissed"
    case NotificationEnabled => "notification_enabled"
    case KeepScreenOn => "keep_screen_on"
    case ScreensaverEnabled => "screensaver_enabled"
    case ScreensaverFullscreen => "screensaver_fullscreen"
  }

  function StrName(s: StrSetting): string {
    match s
    case OrigManufacturer => "orig_man"
    case OrigProduct => "orig_prod"
    case OrigSerial => "orig_serial"
    case StoppedHalService => "stopped_hal_service"
  }

  /** The key string under which a setting is stored. */
  function Name(k: Key): string {
    match k
    case IntKey(s) => IntName(s)
    case BoolKey(s) => BoolName(s)
    case BufferSizeKey => "buffer_size"
    case StrKey(s) => StrName(s)
  }

  /** The setting stored under a key string, if any. The length is tested
      first, which keeps the proofs about it small. */
  function KeyOf(n: string): Option<Key> {
    if |n| == 8 then
      if n == "keep_adb" then Some(BoolKey(KeepAdb))
      else if n == "orig_man" then Some(StrKey(OrigManufacturer))
      else None
    else if |n| == 9 then
      if n == "orig_prod" then Some(StrKey(OrigProduct))
      else None
    else if |n| == 10 then
      if n == "mic_source" then Some(IntKey(MicSource))
      else None
    else if |n| == 11 then
      if n == "buffer_mode" then Some(IntKey(BufferMode))
      else if n == "period_size" then Some(IntKey(PeriodSize))
      else if n == "engine_type" then Some(IntKey(EngineType))
      else if n == "sample_rate" then Some(IntKey(SampleRate))
      else if n == "buffer_size" then Some(BufferSizeKey)
      else if n == "orig_serial" then Some(StrKey(OrigSerial))
      else None
    else if |n| == 14 then
      if n == "latency_preset" then Some(IntKey(LatencyPreset))
      else if n == "keep_screen_on" then Some(BoolKey(KeepScreenOn))
      else None
    else if |n| == 17 then
      if n == "active_directions" then Some(IntKey(ActiveDirections))
      else None
    else if |n| == 19 then
      if n == "screensaver_timeout" then Some(IntKey(ScreensaverTimeout))
      else if n == "auto_restart_output" then Some(BoolKey(AutoRestartOnOutputChange))
      else if n == "screensaver_enabled" then Some(BoolKey(ScreensaverEnabled))
      else if n == "stopped_hal_service" then Some(StrKey(StoppedHalService))
      else None
    else if |n| == 20 then
      if n == "mute_on_media_button" then Some(BoolKey(MuteOnMediaButton))
      else if n == "notification_enabled" then Some(BoolKey(NotificationEnabled))
      else None
    else if |n| == 22 then
      if n == "screensaver_fullscreen" then Some(BoolKey(ScreensaverFullscreen))
      else None
    else if |n| == 23 then
      if n == "kernel_notice_dismissed" then Some(BoolKey(KernelNoticeDismissed))
      else None
    else if |n| == 31 then
      if n == "screensaver_reposition_interval" then Some(IntKey(ScreensaverRepositionInterval))
      else None
    else None
  }

  /** Every setting is recovered from its key string, so distinct settings are
      stored under distinct key strings and no save can disturb another setting. */
  lemma KeyOfName(k: Key)
    ensures KeyOf(Name(k)) == Some(k)
  {
    match k
    case IntKey(s) => KeyOfIntName(s);
    case BoolKey(s) => KeyOfBoolName(s);
    case BufferSizeKey =>
    case StrKey(s) => KeyOfStrName(s);
  }

  lemma KeyOfIntName(s: IntSetting)
    ensures KeyOf(IntName(s)) == Some(IntKey(s))
  {
  }

  lemma KeyOfBoolName(s: BoolSetting)
    ensures KeyOf(BoolName(s)) == Some(BoolKey(s))
  {
  }

  lemma KeyOfStrName(s: StrSetting)
    ensures KeyOf(StrName(s)) == Some(StrKey(s))
  {
  }

  lemma NamesDiffer(a: Key, b: Key)
    requires a != b
    ensures Name(a) != Name(b)
  {
    KeyOfName(a);
    KeyOfName(b);
  }

  lemma NameInjective(a: Key, b: Key)
    requires Name(a) == Name(b)
    ensures a == b
  {
    KeyOfName(a);
    KeyOfName(b);
  }

  // ---- defaults ----

  function IntDefault(s: IntSetting): int {
    match s
    case BufferMode => 0
    case LatencyPreset => 2
    case PeriodSize => 0
    case EngineType => 0
    case SampleRate => 48000
    case ActiveDirections => 1
    case MicSource => 6
    case ScreensaverTimeout => 15
    case ScreensaverRepositionInterval => 5
  }

  function BoolDefault(s: BoolSetting): bool {
    match s
    case KeepAdb => false
    case AutoRestartOnOutputChange => false
    case MuteOnMediaButton => true
    case KernelNoticeDismissed => false
    case NotificationEnabled => true
    case KeepScreenOn => false
    case ScreensaverEnabled => false
    case ScreensaverFullscreen => true
  }

  const BUFFER_SIZE_DEFAULT: real := 4800.0

  // ---- typed reads (`getInt(key, default)` and friends) ----

  /** A stored value of the right type, or the default. A value of another type
      under the key cannot arise: only this repository writes the file and
      every key has one type (see `WellTyped`). */
  function GetInt(p: Prefs, s: IntSetting): int {
    var n := IntName(s);
    if n in p && p[n].IntV? then p[n].i else IntDefault(s)
  }

  function GetBool(p: Prefs, s: BoolSetting): bool {
    var n := BoolName(s);
    if n in p && p[n].BoolV? then p[n].b else BoolDefault(s)
  }

  function GetBufferSize(p: Prefs): real {
    var n := Name(BufferSizeKey);
    if n in p && p[n].FloatV? then p[n].f else BUFFER_SIZE_DEFAULT
  }

  /** `getString(key, null)`. */
  function GetStr(p: Prefs, s: StrSetting): Option<string> {
    var n := StrName(s);
    if n in p && p[n].StrV? then Some(p[n].s) else None
  }

  /** The value a key reads as, whatever its type. */
  function Read(p: Prefs, k: Key): Value {
    match k
    case IntKey(s) => IntV(GetInt(p, s))
    case BoolKey(s) => BoolV(GetBool(p, s))
    case BufferSizeKey => FloatV(GetBufferSize(p))
    case StrKey(s) => if GetStr(p, s).Some? then StrV(GetStr(p, s).value) else StrV([])
  }

  /** Whether a string key is set. */
  predicate IsSet(p: Prefs, k: Key) {
    Name(k) in p
  }

  /** The value written for one setting. */
  predicate Fits(k: Key, v: Value) {
    match k
    case IntKey(_) => v.IntV?
    case BoolKey(_) => v.BoolV?
    case BufferSizeKey => v.FloatV?
    case StrKey(_) => v.StrV?
  }

  ghost predicate WellTyped(p: Prefs) {
    forall k: Key :: Name(k) in p ==> Fits(k, p[Name(k)])
  }

  // ---- edits (`edit().putX(...)`, `remove`, `clear`) ----

  function Put(p: Prefs, k: Key, v: Value): (p': Prefs)
    requires Fits(k, v)
    ensures WellTyped(p) ==> WellTyped(p')
  {
    var p' := p[Name(k) := v];
    assert forall k': Key :: Name(k') == Name(k) ==> k' == k by {
      forall k': Key | Name(k') == Name(k) ensures k' == k { NameInjective(k', k); }
    }
    p'
  }

  function Remove(p: Prefs, k: Key): (p': Prefs)
    ensures WellTyped(p) ==> WellTyped(p')
  {
    p - {Name(k)}
  }

  /** A put is read back, and every other setting reads as before. */
  lemma PutThenRead(p: Prefs, k: Key, v: Value, other: Key)
    requires Fits(k, v) && WellTyped(p)
    ensures Read(Put(p, k, v), k) == v && IsSet(Put(p, k, v), k)
    ensures k.IntKey? ==> GetInt(Put(p, k, v), k.i) == v.i
    ensures k.BoolKey? ==> GetBool(Put(p, k, v), k.b) == v.b
    ensures k == BufferSizeKey ==> GetBufferSize(Put(p, k, v)) == v.f
    ensures k.StrKey? ==> GetStr(Put(p, k, v), k.s) == Some(v.s)
    ensures other != k ==> Read(Put(p, k, v), other) == Read(p, other) && (IsSet(Put(p, k, v), other) <==> IsSet(p, other))
  {
    if other != k {
      NamesDiffer(other, k);
    }
  }

  /** A removed key reads as null (strings) or its default; others are untouched. */
  lemma RemoveThenRead(p: Prefs, k: Key, other: Key)
    ensures !IsSet(Remove(p, k), k)
    ensures k.StrKey? ==> GetStr(Remove(p, k), k.s) == None
    ensures other != k ==> Read(Remove(p, k), other) == Read(p, other) && (IsSet(Remove(p, k), other) <==> IsSet(p, other))
  {
    if other != k {
      NamesDiffer(other, k);
    }
  }

  /** After `clear()` every getter returns its default and the nullable strings
      are null; the table is the one of SettingsRepository.kt. */
  lemma ClearedReadsDefaults()
    ensures forall s :: GetInt(map[], s) == IntDefault(s)
    ensures forall s :: GetBool(map[], s) == BoolDefault(s)
    ensures forall s :: GetStr(map[], s) == None
    ensures GetBufferSize(map[]) == 4800.0
    ensures GetInt(map[], PeriodSize) == 0 && GetInt(map[], EngineType) == 0
    ensures GetInt(map[], SampleRate) == 48000 && GetInt(map[], ActiveDirections) == 1
    ensures GetInt(map[], MicSource) == 6 && GetInt(map[], ScreensaverTimeout) == 15
    ensures GetInt(map[], ScreensaverRepositionInterval) == 5
    ensures GetInt(map[], BufferMode) == 0 && GetInt(map[], LatencyPreset) == 2
    ensures !GetBool(map[], KeepAdb) && !GetBool(map[], AutoRestartOnOutputChange)
    ensures GetBool(map[], MuteOnMediaButton) && GetBool(map[], NotificationEnabled)
    ensures !GetBool(map[], KeepScreenOn) && !GetBool(map[], ScreensaverEnabled)
    ensures GetBool(map[], ScreensaverFullscreen) && !GetBool(map[], KernelNoticeDismissed)
  {
  }

  // ---- the identity backup triple ----

  /** `getOriginalIdentity()`: (manufacturer, product, serial). */
  function OriginalIdentity(p: Prefs): (Option<string>, Option<string>, Option<string>) {
    (GetStr(p, OrigManufacturer), GetStr(p, OrigProduct), GetStr(p, OrigSerial))
  }

  function SaveIdentity(p: Prefs, m: string, pr: string, s: string): (p': Prefs)
    ensures WellTyped(p) ==> WellTyped(p')
  {
    Put(Put(Put(p, StrKey(OrigManufacturer), StrV(m)), StrKey(OrigProduct), StrV(pr)), StrKey(OrigSerial), StrV(s))
  }

  function ClearIdentity(p: Prefs): (p': Prefs)
    ensures WellTyped(p) ==> WellTyped(p')
  {
    Remove(Remove(Remove(p, StrKey(OrigManufacturer)), StrKey(OrigProduct)), StrKey(OrigSerial))
  }

  /** Saving the triple reads it back; clearing reads back three nulls; neither
      touches any other key. */
  lemma IdentityRoundTrip(p: Prefs, m: string, pr: string, s: string, other: Key)
    requires WellTyped(p)
    ensures OriginalIdentity(SaveIdentity(p, m, pr, s)) == (Some(m), Some(pr), Some(s))
    ensures OriginalIdentity(ClearIdentity(p)) == (None, None, None)
    ensures other !in {StrKey(OrigManufacturer), StrKey(OrigProduct), StrKey(OrigSerial)} ==>
      Read(SaveIdentity(p, m, pr, s), other) == Read(p, other) &&
      Read(ClearIdentity(p), other) == Read(p, other)
  {
    var p1 := Put(p, StrKey(OrigManufacturer), StrV(m));
    var p2 := Put(p1, StrKey(OrigProduct), StrV(pr));
    PutThenRead(p, StrKey(OrigManufacturer), StrV(m), StrKey(OrigProduct));
    PutThenRead(p, StrKey(OrigManufacturer), StrV(m), StrKey(OrigSerial));
    PutThenRead(p1, StrKey(OrigProduct), StrV(pr), StrKey(OrigManufacturer));
    PutThenRead(p1, StrKey(OrigProduct), StrV(pr), StrKey(OrigSerial));
    PutThenRead(p2, StrKey(OrigSerial), StrV(s), StrKey(OrigManufacturer));
    PutThenRead(p2, StrKey(OrigSerial), StrV(s), StrKey(OrigProduct));
    PutThenRead(p2, StrKey(OrigSerial), StrV(s), StrKey(OrigSerial));
    var c1 := Remove(p, StrKey(OrigManufacturer));
    var c2 := Remove(c1, StrKey(OrigProduct));
    RemoveThenRead(c2, StrKey(OrigSerial), StrKey(OrigManufacturer));
    RemoveThenRead(c2, StrKey(OrigSerial), StrKey(OrigProduct));
    RemoveThenRead(c1, StrKey(OrigProduct), StrKey(OrigManufacturer));
    RemoveThenRead(c2, StrKey(OrigSerial), StrKey(OrigSerial));
    if other !in {StrKey(OrigManufacturer), StrKey(OrigProduct), StrKey(OrigSerial)} {
      PutThenRead(p, StrKey(OrigManufacturer), StrV(m), other);
      PutThenRead(p1, StrKey(OrigProduct), StrV(pr), other);
      PutThenRead(p2, StrKey(OrigSerial), StrV(s), other);
      RemoveThenRead(p, StrKey(OrigManufacturer), other);
      RemoveThenRead(c1, StrKey(OrigProduct), other);
      RemoveThenRead(c2, StrKey(OrigSerial), other);
    }
  }

  /** `shouldShowKernelNotice()`. */
  predicate ShowKernelNotice(p: Prefs) {
    !GetBool(p, KernelNoticeDismissed)
  }

  /** The notice shows on a fresh store, and never again once dismissed unless
      the store is reset or the key is overwritten. */
  lemma KernelNoticeOnce(p: Prefs, k: Key, v: Value)
    requires Fits(k, v) && WellTyped(p) && k != BoolKey(KernelNoticeDismissed)
    ensures ShowKernelNotice(map[])
    ensures !ShowKernelNotice(Put(p, BoolKey(KernelNoticeDismissed), BoolV(true)))
    ensures ShowKernelNotice(Put(p, k, v)) == ShowKernelNotice(p)
  {
    PutThenRead(p, BoolKey(KernelNoticeDismissed), BoolV(true), BoolKey(KernelNoticeDismissed));
    PutThenRead(p, k, v, BoolKey(KernelNoticeDismissed));
  }

  /** The repository object over its preference file. */
  class SettingsRepository {
    var prefs: Prefs

    ghost predicate Valid()
      reads this
    {
      WellTyped(prefs)
    }

    /** A repository over a file that may already hold values. */
    constructor (initial: Prefs)
      requires WellTyped(initial)
      ensures Valid() && prefs == initial
    {
      prefs := initial;
    }

    function GetIntSetting(s: IntSetting): (v: int)
      reads this
      ensures !(IntName(s) in prefs) ==> v == IntDefault(s)
    {
      GetInt(prefs, s)
    }

    function GetBoolSetting(s: BoolSetting): (v: bool)
      reads this
      ensures !(BoolName(s) in prefs) ==> v == BoolDefault(s)
    {
      GetBool(prefs, s)
    }

    function GetBufferSizeSetting(): (v: real)
      reads this
      ensures !(Name(BufferSizeKey) in prefs) ==> v == BUFFER_SIZE_DEFAULT
    {
      GetBufferSize(prefs)
    }

    function GetStrSetting(s: StrSetting): (v: Option<string>)
      reads this
      ensures v.None? <==> !(StrName(s) in prefs) || !prefs[StrName(s)].StrV?
    {
      GetStr(prefs, s)
    }

    /** `getOriginalIdentity()`. */
    function GetOriginalIdentity(): (t: (Option<string>, Option<string>, Option<string>))
      reads this
      ensures t.0 == GetStr(prefs, OrigManufacturer) && t.1 == GetStr(prefs, OrigProduct) && t.2 == GetStr(prefs, OrigSerial)
    {
      OriginalIdentity(prefs)
    }

    /** `shouldShowKernelNotice()`. */
    function ShouldShowKernelNotice(): (show: bool)
      reads this
      ensures show <==> !GetBool(prefs, KernelNoticeDismissed)
    {
      ShowKernelNotice(prefs)
    }

    method SaveInt(s: IntSetting, v: int)
      requires Valid()
      modifies this
      ensures Valid() && prefs == Put(old(prefs), IntKey(s), IntV(v))
    {
      prefs := Put(prefs, IntKey(s), IntV(v));
    }

    method SaveBool(s: BoolSetting, v: bool)
      requires Valid()
      modifies this
      ensures Valid() && prefs == Put(old(prefs), BoolKey(s), BoolV(v))
    {
      prefs := Put(prefs, BoolKey(s), BoolV(v));
    }

    method SaveBufferSize(size: real)
      requires Valid()
      modifies this
      ensures Valid() && prefs == Put(old(prefs), BufferSizeKey, FloatV(size))
    {
      prefs := Put(prefs, BufferSizeKey, FloatV(size));
    }

    /** `setKernelNoticeDismissed()`. */
    method SetKernelNoticeDismissed()
      requires Valid()
      modifies this
      ensures Valid() && prefs == Put(old(prefs), BoolKey(KernelNoticeDismissed), BoolV(true))
      ensures !ShouldShowKernelNotice()
    {
      prefs := Put(prefs, BoolKey(KernelNoticeDismissed), BoolV(true));
    }

    method SaveOriginalIdentity(manufacturer: string, product: string, serial: string)
      requires Valid()
      modifies this
      ensures Valid() && prefs == SaveIdentity(old(prefs), manufacturer, product, serial)
      ensures GetOriginalIdentity() == (Some(manufacturer), Some(product), Some(serial))
    {
      IdentityRoundTrip(prefs, manufacturer, product, serial, BufferSizeKey);
      prefs := SaveIdentity(prefs, manufacturer, product, serial);
    }

    method ClearOriginalIdentity()
      requires Valid()
      modifies this
      ensures Valid() && prefs == ClearIdentity(old(prefs))
      ensures GetOriginalIdentity() == (None, None, None)
    {
      IdentityRoundTrip(prefs, [], [], [], BufferSizeKey);
      prefs := ClearIdentity(prefs);
    }

    method SaveStoppedHalService(serviceName: string)
      requires Valid()
      modifies this
      ensures Valid() && prefs == Put(old(prefs), StrKey(StoppedHalService), StrV(serviceName))
      ensures GetStrSetting(StoppedHalService) == Some(serviceName)
    {
      prefs := Put(prefs, StrKey(StoppedHalService), StrV(serviceName));
    }

    method ClearStoppedHalService()
      requires Valid()
      modifies this
      ensures Valid() && prefs == Remove(old(prefs), StrKey(StoppedHalService))
      ensures GetStrSetting(StoppedHalService) == None
    {
      prefs := Remove(prefs, StrKey(StoppedHalService));
    }

    /** `resetDefaults()`: `clear()` of the whole file. */
    method ResetDefaults()
      modifies this
      ensures Valid() && prefs == map[]
    {
      prefs := map[];
    }
  }
}
