/**
 * The controller logic of the XTRX input settings panel, as a pure state
 * machine. A `Panel` value is the panel's state with the widgets abstracted
 * away: its mirror of the settings, the apply gate, the force flag, the
 * debounce timer (active or not), the two status-poll counters, and the
 * messages it has pushed to the input device so far, oldest first.
 * Every handler of the panel is a function from one `Panel` to the next;
 * the class in module XtrxInputGui is proved against these functions.
 */
module XtrxPanel {
  import opened Base
  import opened XtrxInputSettings
  import opened XtrxMessages

  /** The engine state remembered before the first status poll (`(State) -1`). */
  const UNKNOWN_ENGINE_STATE: int := -1

  /** Largest combo-box index accepted for log2 of the hardware / software decimation. */
  const MAX_LOG2_HARD_DECIM: int := 5
  const MAX_LOG2_SOFT_DECIM: int := 6

  /** The status timer ticks after which a request is sent (every 2nd and every 11th tick). */
  const STREAM_POLL_PERIOD: nat := 2
  const DEVICE_POLL_PERIOD: nat := 11

  datatype Panel = Panel(
    settings: Settings,
    doApplySettings: bool,       // the apply gate: configure messages are sent only when set
    forceSettings: bool,         // the next configure message asks for a forced apply
    updateTimerActive: bool,     // the debounce timer that fires UpdateHardware
    statusCounter: nat,          // ticks since the last stream-info request
    deviceStatusCounter: nat,    // ticks since the last device-info poll
    lastEngineState: int,
    sampleRate: int,             // last sample rate notified by the DSP engine
    deviceCenterFrequency: uint64,
    sent: seq<Msg>)              // messages pushed to the input device's queue

  /** A message taken from the panel's input queue. */
  datatype Inbound =
    | DspSignal(sampleRate: int32, centerFrequency: uint64)   // DSPSignalNotification
    | Device(msg: Msg)

  /** The changes a user makes through the panel's widgets (the `on_*` slots). */
  datatype UserEdit =
    | StartStopToggled(checked: bool)
    | RecordToggled(checked: bool)
    | CenterFrequencyChanged(centerKHz: uint64)
    | NcoFrequencyChanged(dialKHz: uint64)
    | NcoEnableToggled(checked: bool)
    | NcoResetClicked
    | DcOffsetToggled(checked: bool)
    | IqImbalanceToggled(checked: bool)
    | SampleRateChanged(rate: uint64)
    | HwDecimIndexChanged(index: int32)
    | SwDecimIndexChanged(index: int32)
    | LpfChanged(bandwidthKHz: uint64)
    | LpFirEnableToggled(checked: bool)
    | LpFirChanged(bandwidthKHz: uint64)
    | GainModeIndexChanged(index: int32)
    | GainChanged(value: int32)
    | LnaGainChanged(value: int32)
    | TiaGainIndexChanged(index: int32)
    | PgaGainChanged(value: int32)
    | AntennaIndexChanged(index: int32)
    | ExtClockClicked(active: bool, frequency: uint32)
    | PwrModeIndexChanged(index: int32)

  /** The panel state outside the settings mirror, the flags and the sent messages. */
  predicate SameCounters(p: Panel, r: Panel)
  {
    && r.statusCounter == p.statusCounter
    && r.deviceStatusCounter == p.deviceStatusCounter
    && r.lastEngineState == p.lastEngineState
    && r.sampleRate == p.sampleRate
    && r.deviceCenterFrequency == p.deviceCenterFrequency
  }

  // ---------------------------------------------------------------------------
  // Sending settings to the device

  /** `sendSettings`: start the debounce timer unless it is already running. */
  function SendSettings(p: Panel): (r: Panel)
    ensures r.updateTimerActive
    ensures r.(updateTimerActive := p.updateTimerActive) == p
    ensures p.updateTimerActive ==> r == p
  {
    if p.updateTimerActive then p else p.(updateTimerActive := true)
  }

  lemma SendSettingsIdempotent(p: Panel)
    ensures SendSettings(SendSettings(p)) == SendSettings(p)
  {
  }

  /**
   * `updateHardware`, fired by the debounce timer: when the gate is open, push
   * one configure message with the mirror and the force flag, clear the force
   * flag and stop the timer; when it is closed, do nothing.
   */
  function UpdateHardware(p: Panel): (r: Panel)
    ensures p.doApplySettings ==>
      && r.sent == p.sent + [ConfigureXtrx(p.settings, p.forceSettings)]
      && !r.forceSettings && !r.updateTimerActive
      && r.(sent := p.sent, forceSettings := p.forceSettings, updateTimerActive := p.updateTimerActive) == p
    ensures !p.doApplySettings ==> r == p
  {
    if p.doApplySettings then
      p.(sent := p.sent + [ConfigureXtrx(p.settings, p.forceSettings)],
         forceSettings := false,
         updateTimerActive := false)
    else
      p
  }

  /** Only the first of two back-to-back configure messages can be forced. */
  lemma SecondConfigureIsUnforced(p: Panel)
    requires p.doApplySettings
    ensures UpdateHardware(UpdateHardware(p)).sent
         == p.sent + [ConfigureXtrx(p.settings, p.forceSettings), ConfigureXtrx(p.settings, false)]
  {
  }

  // ---------------------------------------------------------------------------
  // Status polling

  /**
   * `updateStatus`, one tick of the status timer: remember the engine state,
   * request stream information every second tick and, when this instance is
   * the buddy leader, device information every eleventh tick.
   */
  function UpdateStatus(p: Panel, engineState: int, isBuddyLeader: bool): (r: Panel)
    ensures r.statusCounter < STREAM_POLL_PERIOD && r.deviceStatusCounter < DEVICE_POLL_PERIOD
    ensures r.lastEngineState == engineState
    ensures r.sent == p.sent
      + (if p.statusCounter >= STREAM_POLL_PERIOD - 1 then [GetStreamInfo] else [])
      + (if p.deviceStatusCounter >= DEVICE_POLL_PERIOD - 1 && isBuddyLeader then [GetDeviceInfo] else [])
    ensures r.settings == p.settings && r.doApplySettings == p.doApplySettings
    ensures r.forceSettings == p.forceSettings && r.updateTimerActive == p.updateTimerActive
    ensures r.sampleRate == p.sampleRate && r.deviceCenterFrequency == p.deviceCenterFrequency
  {
    var p1 := p.(lastEngineState := engineState);
    var p2 := if p1.statusCounter < 1 then p1.(statusCounter := p1.statusCounter + 1)
              else p1.(sent := p1.sent + [GetStreamInfo], statusCounter := 0);
    if p2.deviceStatusCounter < 10 then p2.(deviceStatusCounter := p2.deviceStatusCounter + 1)
    else p2.(sent := p2.sent + (if isBuddyLeader then [GetDeviceInfo] else []), deviceStatusCounter := 0)
  }

  /** `n` ticks of the status timer with a fixed engine state and leadership. */
  function Ticks(p: Panel, n: nat, engineState: int, isBuddyLeader: bool): Panel
  {
    if n == 0 then p else UpdateStatus(Ticks(p, n - 1, engineState, isBuddyLeader), engineState, isBuddyLeader)
  }

  /** Number of occurrences of `m` in `s`. */
  function Count(s: seq<Msg>, m: Msg): nat
  {
    if s == [] then 0 else Count(s[..|s| - 1], m) + (if s[|s| - 1] == m then 1 else 0)
  }

  lemma {:induction false} CountAppend(s: seq<Msg>, t: seq<Msg>, m: Msg)
    ensures Count(s + t, m) == Count(s, m) + Count(t, m)
  {
    if t == [] {
      assert s + t == s;
    } else {
      var t' := t[..|t| - 1];
      assert (s + t)[..|s + t| - 1] == s + t';
      CountAppend(s, t', m);
    }
  }

  /** A status poll request. */
  predicate IsPoll(m: Msg)
  {
    m == GetStreamInfo || m == GetDeviceInfo
  }

  lemma CountOfOne(x: Msg, m: Msg)
    ensures Count([x], m) == if x == m then 1 else 0
  {
    assert [x][..0] == [];
  }

  /** The messages one tick appends: a stream-info request, then a device-info request, each optional. */
  lemma TickAppends(q0: Panel, engineState: int, isBuddyLeader: bool)
    ensures var q := UpdateStatus(q0, engineState, isBuddyLeader);
      q.sent == q0.sent + TickStreamPoll(q0) + TickDevicePoll(q0, isBuddyLeader)
  {
  }

  function TickStreamPoll(q0: Panel): seq<Msg>
  {
    if q0.statusCounter >= 1 then [GetStreamInfo] else []
  }

  function TickDevicePoll(q0: Panel, isBuddyLeader: bool): seq<Msg>
  {
    if q0.deviceStatusCounter >= 10 && isBuddyLeader then [GetDeviceInfo] else []
  }

  lemma TickOnlyPolls(q0: Panel, engineState: int, isBuddyLeader: bool)
    ensures var q := UpdateStatus(q0, engineState, isBuddyLeader);
      |q0.sent| <= |q.sent| && q.sent[..|q0.sent|] == q0.sent
      && (forall k :: |q0.sent| <= k < |q.sent| ==> IsPoll(q.sent[k]))
  {
    var a := TickStreamPoll(q0);
    var b := TickDevicePoll(q0, isBuddyLeader);
    var q := UpdateStatus(q0, engineState, isBuddyLeader);
    TickAppends(q0, engineState, isBuddyLeader);
    assert q.sent[..|q0.sent|] == q0.sent;
    forall k | |q0.sent| <= k < |q.sent|
      ensures IsPoll(q.sent[k])
    {
      if k < |q0.sent| + |a| {
        assert q.sent[k] == a[k - |q0.sent|];
      } else {
        assert q.sent[k] == b[k - |q0.sent| - |a|];
      }
    }
  }

  lemma TickCount(q0: Panel, engineState: int, isBuddyLeader: bool, m: Msg)
    requires IsPoll(m)
    ensures Count(UpdateStatus(q0, engineState, isBuddyLeader).sent, m)
         == Count(q0.sent, m) + Count(TickStreamPoll(q0), m) + Count(TickDevicePoll(q0, isBuddyLeader), m)
  {
    var a := TickStreamPoll(q0);
    TickAppends(q0, engineState, isBuddyLeader);
    CountAppend(q0.sent, a, m);
    CountAppend(q0.sent + a, TickDevicePoll(q0, isBuddyLeader), m);
  }

  /** One tick from counters in range advances each counter modulo its period. */
  lemma OneTickCounters(q0: Panel, engineState: int, isBuddyLeader: bool)
    requires q0.statusCounter < STREAM_POLL_PERIOD && q0.deviceStatusCounter < DEVICE_POLL_PERIOD
    ensures UpdateStatus(q0, engineState, isBuddyLeader).statusCounter
         == (q0.statusCounter + 1) % STREAM_POLL_PERIOD
    ensures UpdateStatus(q0, engineState, isBuddyLeader).deviceStatusCounter
         == (q0.deviceStatusCounter + 1) % DEVICE_POLL_PERIOD
  {
  }

  /**
   * One tick from counters in range advances each counter modulo its period
   * and sends each request exactly when its counter wraps.
   */
  lemma OneTick(q0: Panel, engineState: int, isBuddyLeader: bool)
    requires q0.statusCounter < STREAM_POLL_PERIOD && q0.deviceStatusCounter < DEVICE_POLL_PERIOD
    ensures UpdateStatus(q0, engineState, isBuddyLeader).statusCounter
         == (q0.statusCounter + 1) % STREAM_POLL_PERIOD
    ensures UpdateStatus(q0, engineState, isBuddyLeader).deviceStatusCounter
         == (q0.deviceStatusCounter + 1) % DEVICE_POLL_PERIOD
    ensures Count(UpdateStatus(q0, engineState, isBuddyLeader).sent, GetStreamInfo)
         == Count(q0.sent, GetStreamInfo) + (if q0.statusCounter == STREAM_POLL_PERIOD - 1 then 1 else 0)
    ensures Count(UpdateStatus(q0, engineState, isBuddyLeader).sent, GetDeviceInfo)
         == Count(q0.sent, GetDeviceInfo)
            + (if q0.deviceStatusCounter == DEVICE_POLL_PERIOD - 1 && isBuddyLeader then 1 else 0)
  {
    OneTickCounters(q0, engineState, isBuddyLeader);
    TickCount(q0, engineState, isBuddyLeader, GetStreamInfo);
    TickCount(q0, engineState, isBuddyLeader, GetDeviceInfo);
    CountOfOne(GetStreamInfo, GetStreamInfo);
    CountOfOne(GetStreamInfo, GetDeviceInfo);
    CountOfOne(GetDeviceInfo, GetStreamInfo);
    CountOfOne(GetDeviceInfo, GetDeviceInfo);
  }

  lemma ModSucc(k: nat)
    ensures (k % STREAM_POLL_PERIOD + 1) % STREAM_POLL_PERIOD == (k + 1) % STREAM_POLL_PERIOD
    ensures (k % DEVICE_POLL_PERIOD + 1) % DEVICE_POLL_PERIOD == (k + 1) % DEVICE_POLL_PERIOD
  {
  }

  lemma DivSucc(k: nat)
    ensures (k + 1) / STREAM_POLL_PERIOD == k / STREAM_POLL_PERIOD + (if k % STREAM_POLL_PERIOD == STREAM_POLL_PERIOD - 1 then 1 else 0)
    ensures (k + 1) / DEVICE_POLL_PERIOD == k / DEVICE_POLL_PERIOD + (if k % DEVICE_POLL_PERIOD == DEVICE_POLL_PERIOD - 1 then 1 else 0)
  {
  }

  lemma {:induction false} CadenceCounters(p: Panel, n: nat, engineState: int, isBuddyLeader: bool)
    requires p.statusCounter == 0 && p.deviceStatusCounter == 0
    ensures Ticks(p, n, engineState, isBuddyLeader).statusCounter == n % STREAM_POLL_PERIOD
    ensures Ticks(p, n, engineState, isBuddyLeader).deviceStatusCounter == n % DEVICE_POLL_PERIOD
  {
    if n > 0 {
      CadenceCounters(p, n - 1, engineState, isBuddyLeader);
      var q0 := Ticks(p, n - 1, engineState, isBuddyLeader);
      assert Ticks(p, n, engineState, isBuddyLeader) == UpdateStatus(q0, engineState, isBuddyLeader);
      OneTickCounters(q0, engineState, isBuddyLeader);
      ModSucc(n - 1);
    }
  }

  lemma {:induction false} CadenceOnlyPolls(p: Panel, n: nat, engineState: int, isBuddyLeader: bool)
    ensures var q := Ticks(p, n, engineState, isBuddyLeader);
      |p.sent| <= |q.sent| && q.sent[..|p.sent|] == p.sent
      && (forall k :: |p.sent| <= k < |q.sent| ==> IsPoll(q.sent[k]))
  {
    if n > 0 {
      CadenceOnlyPolls(p, n - 1, engineState, isBuddyLeader);
      var q0 := Ticks(p, n - 1, engineState, isBuddyLeader);
      TickOnlyPolls(q0, engineState, isBuddyLeader);
      var q := Ticks(p, n, engineState, isBuddyLeader);
      assert q.sent[..|p.sent|] == q.sent[..|q0.sent|][..|p.sent|];
      forall k | |p.sent| <= k < |q.sent|
        ensures IsPoll(q.sent[k])
      {
        if k < |q0.sent| {
          assert q.sent[k] == q.sent[..|q0.sent|][k];
        }
      }
    }
  }

  lemma {:induction false} CadenceCounts(p: Panel, n: nat, engineState: int, isBuddyLeader: bool)
    requires p.statusCounter == 0 && p.deviceStatusCounter == 0
    ensures Count(Ticks(p, n, engineState, isBuddyLeader).sent, GetStreamInfo)
         == Count(p.sent, GetStreamInfo) + n / STREAM_POLL_PERIOD
    ensures Count(Ticks(p, n, engineState, isBuddyLeader).sent, GetDeviceInfo)
         == Count(p.sent, GetDeviceInfo) + (if isBuddyLeader then n / DEVICE_POLL_PERIOD else 0)
  {
    if n > 0 {
      CadenceCounts(p, n - 1, engineState, isBuddyLeader);
      CadenceCounters(p, n - 1, engineState, isBuddyLeader);
      OneTick(Ticks(p, n - 1, engineState, isBuddyLeader), engineState, isBuddyLeader);
      DivSucc(n - 1);
    }
  }

  /**
   * Polling cadence: starting from fresh counters, `n` ticks send exactly
   * `n / 2` stream-info requests and, for the buddy leader only, `n / 11`
   * device-info requests, nothing else, and leave the counters at `n` modulo
   * the two periods.
   */
  lemma PollingCadence(p: Panel, n: nat, engineState: int, isBuddyLeader: bool)
    requires p.statusCounter == 0 && p.deviceStatusCounter == 0
    ensures var q := Ticks(p, n, engineState, isBuddyLeader);
      && q.statusCounter == n % STREAM_POLL_PERIOD
      && q.deviceStatusCounter == n % DEVICE_POLL_PERIOD
      && |p.sent| <= |q.sent| && q.sent[..|p.sent|] == p.sent
      && (forall k :: |p.sent| <= k < |q.sent| ==> IsPoll(q.sent[k]))
      && Count(q.sent, GetStreamInfo) == Count(p.sent, GetStreamInfo) + n / STREAM_POLL_PERIOD
      && Count(q.sent, GetDeviceInfo)
         == Count(p.sent, GetDeviceInfo) + (if isBuddyLeader then n / DEVICE_POLL_PERIOD else 0)
  {
    CadenceCounters(p, n, engineState, isBuddyLeader);
    CadenceOnlyPolls(p, n, engineState, isBuddyLeader);
    CadenceCounts(p, n, engineState, isBuddyLeader);
  }

  // ---------------------------------------------------------------------------
  // Messages from the device and from the buddy

  /** The message kinds `handleMessage` consumes; the others stay with the caller. */
  predicate Handles(m: Msg)
  {
    m.ReportBuddyChange? || m.ReportClockSourceChange? || m.ReportStreamInfo?
    || m.ReportDeviceInfo? || m.StartStop?
  }

  /** The handled kinds whose handlers close and reopen the apply gate around the display update. */
  predicate ReopensGate(m: Msg)
  {
    m.ReportBuddyChange? || m.ReportClockSourceChange? || m.StartStop?
  }

  /**
   * `handleMessage`: a buddy change copies the sample rate and the hardware
   * decimation, and the centre frequency only when the receive side sent it;
   * a clock-source change copies the external clock. No handler sends a
   * message, raises the force flag or starts the timer, and the three that
   * block the gate leave it open, whatever it was before.
   */
  function AfterMessage(p: Panel, m: Msg): (r: Panel)
    ensures r.sent == p.sent && r.forceSettings == p.forceSettings
    ensures r.updateTimerActive == p.updateTimerActive && SameCounters(p, r)
    ensures r.doApplySettings == (p.doApplySettings || ReopensGate(m))
    ensures m.ReportBuddyChange? ==>
      var s := p.settings.(devSampleRate := m.devSampleRate, log2HardDecim := m.log2HardDecimInterp);
      r.settings == if m.rxElseTx then s.(centerFrequency := m.centerFrequency) else s
    ensures m.ReportClockSourceChange? ==>
      r.settings == p.settings.(extClock := m.extClock, extClockFreq := m.extClockFreq)
    ensures !m.ReportBuddyChange? && !m.ReportClockSourceChange? ==> r.settings == p.settings
  {
    match m
    case ReportBuddyChange(rate, log2, centre, rxElseTx) =>
      var s := p.settings.(devSampleRate := rate, log2HardDecim := log2);
      p.(settings := if rxElseTx then s.(centerFrequency := centre) else s, doApplySettings := true)
    case ReportClockSourceChange(extClock, freq) =>
      p.(settings := p.settings.(extClockFreq := freq, extClock := extClock), doApplySettings := true)
    case StartStop(_) =>
      p.(doApplySettings := true)
    case _ =>
      p
  }

  /**
   * A message from the input queue: a DSP notification updates the displayed
   * rate and frequency only; a device message is handled by `AfterMessage`.
   * Neither sends, raises the force flag, starts the timer or moves a counter.
   */
  function AfterInbound(p: Panel, i: Inbound): (r: Panel)
    ensures r.sent == p.sent && r.forceSettings == p.forceSettings
    ensures r.updateTimerActive == p.updateTimerActive
    ensures r.statusCounter == p.statusCounter && r.deviceStatusCounter == p.deviceStatusCounter
    ensures r.lastEngineState == p.lastEngineState
    ensures r.doApplySettings == (p.doApplySettings || (i.Device? && ReopensGate(i.msg)))
    ensures i.DspSignal? ==>
      r.settings == p.settings && r.sampleRate == i.sampleRate && r.deviceCenterFrequency == i.centerFrequency
  {
    match i
    case DspSignal(rate, centre) => p.(sampleRate := rate, deviceCenterFrequency := centre)
    case Device(m) => AfterMessage(p, m)
  }

  /**
   * `handleInputMessages`: the queue is handled front to back. Draining it
   * never sends a message and leaves the force flag, the timer and the poll
   * counters as they were.
   */
  function AfterInbox(p: Panel, q: seq<Inbound>): (r: Panel)
    ensures r.sent == p.sent && r.forceSettings == p.forceSettings
    ensures r.updateTimerActive == p.updateTimerActive
    ensures r.statusCounter == p.statusCounter && r.deviceStatusCounter == p.deviceStatusCounter
    decreases |q|
  {
    if q == [] then p else AfterInbox(AfterInbound(p, q[0]), q[1..])
  }

  /** After draining the queue the gate is open iff it was open or some gate-reopening report was in it. */
  lemma {:induction false} InboxGate(p: Panel, q: seq<Inbound>)
    ensures AfterInbox(p, q).doApplySettings
        == (p.doApplySettings || exists k :: 0 <= k < |q| && q[k].Device? && ReopensGate(q[k].msg))
    decreases |q|
  {
    if q != [] {
      var p' := AfterInbound(p, q[0]);
      InboxGate(p', q[1..]);
      assert p'.doApplySettings == (p.doApplySettings || (q[0].Device? && ReopensGate(q[0].msg)));
      if exists k :: 0 <= k < |q| && q[k].Device? && ReopensGate(q[k].msg) {
        var k :| 0 <= k < |q| && q[k].Device? && ReopensGate(q[k].msg);
        if k > 0 {
          assert q[1..][k - 1] == q[k];
        }
      }
      if exists k :: 0 <= k < |q[1..]| && q[1..][k].Device? && ReopensGate(q[1..][k].msg) {
        var k :| 0 <= k < |q[1..]| && q[1..][k].Device? && ReopensGate(q[1..][k].msg);
        assert q[k + 1] == q[1..][k];
      }
    }
  }

  /** A buddy change reported while the timer runs reaches the device on the next timer tick. */
  lemma BuddyChangeReachesNextConfigure(p: Panel, m: Msg)
    requires m.ReportBuddyChange?
    ensures var r := AfterMessage(p, m);
      UpdateHardware(r).sent == p.sent + [ConfigureXtrx(r.settings, p.forceSettings)]
      && UpdateHardware(r).settings.devSampleRate == m.devSampleRate
      && UpdateHardware(r).settings.log2HardDecim == m.log2HardDecimInterp
  {
  }

  // ---------------------------------------------------------------------------
  // Loading settings

  /** `resetToDefaults`: replace the mirror by the defaults and send them. */
  function ResetToDefaults(p: Panel, defaults: Settings): (r: Panel)
    ensures r.settings == defaults && r.updateTimerActive
    ensures r.sent == p.sent && r.forceSettings == p.forceSettings && r.doApplySettings == p.doApplySettings
  {
    SendSettings(p.(settings := defaults))
  }

  /**
   * `deserialize`, with the decoding of the blob given as `decoded`: on
   * success the decoded settings are sent with the force flag raised; on
   * failure the defaults are sent and the force flag is left as it was.
   */
  function Deserialize(p: Panel, decoded: Option<Settings>, defaults: Settings): (r: (bool, Panel))
    ensures r.0 <==> decoded.Some?
    ensures decoded.Some? ==> r.1.settings == decoded.value && r.1.forceSettings
    ensures decoded.None? ==> r.1.settings == defaults && r.1.forceSettings == p.forceSettings
    ensures r.1.updateTimerActive && r.1.sent == p.sent && r.1.doApplySettings == p.doApplySettings
    ensures SameCounters(p, r.1)
  {
    match decoded
    case Some(s) => (true, SendSettings(p.(settings := s, forceSettings := true)))
    case None => (false, ResetToDefaults(p, defaults))
  }

  /** `setCenterFrequency`: the signed frequency is stored in the unsigned 64-bit field and sent. */
  function SetCenterFrequency(p: Panel, centerFrequency: int64): (r: Panel)
    ensures r.settings == p.settings.(centerFrequency := ToUint64(centerFrequency))
    ensures r.updateTimerActive && r.sent == p.sent && r.forceSettings == p.forceSettings
  {
    SendSettings(p.(settings := p.settings.(centerFrequency := ToUint64(centerFrequency))))
  }

  /** `getCenterFrequency` returns the stored frequency as a signed 64-bit value. */
  function GetCenterFrequency(p: Panel): (c: int64)
    ensures p.settings.centerFrequency < TWO_63 ==> c == p.settings.centerFrequency
    ensures p.settings.centerFrequency >= TWO_63 ==> c == p.settings.centerFrequency - TWO_64
  {
    ToInt64(p.settings.centerFrequency)
  }

  /** Reading the centre frequency back returns the value set, negative ones included. */
  lemma CenterFrequencyRoundTrip(p: Panel, c: int64)
    ensures GetCenterFrequency(SetCenterFrequency(p, c)) == c
  {
    if c < 0 {
      assert ToUint64(c) == c + TWO_64;
    }
  }

  // ---------------------------------------------------------------------------
  // Widget edits

  /** Whether an edit starts the debounce timer. */
  predicate Sends(s: Settings, e: UserEdit)
  {
    match e
    case StartStopToggled(_) => false
    case RecordToggled(_) => false
    case HwDecimIndexChanged(index) => 0 <= index <= MAX_LOG2_HARD_DECIM
    case SwDecimIndexChanged(index) => 0 <= index <= MAX_LOG2_SOFT_DECIM
    case LpFirChanged(_) => s.lpfFIREnable
    case _ => true
  }

  /**
   * The settings mirror after an edit. The two buttons leave it alone; each
   * other edit changes its own setting only, so the centre, the NCO offset,
   * the rate and the decimations move only under their own widgets, and the
   * guarded decimation indices never leave their widgets' ranges.
   */
  function EditedSettings(s: Settings, e: UserEdit): (r: Settings)
    ensures e.StartStopToggled? || e.RecordToggled? ==> r == s
    ensures !e.CenterFrequencyChanged? ==> r.centerFrequency == s.centerFrequency
    ensures !(e.NcoFrequencyChanged? || e.NcoResetClicked?) ==> r.ncoFrequency == s.ncoFrequency
    ensures !e.SampleRateChanged? ==> r.devSampleRate == s.devSampleRate
    ensures !e.HwDecimIndexChanged? ==> r.log2HardDecim == s.log2HardDecim
    ensures !e.SwDecimIndexChanged? ==> r.log2SoftDecim == s.log2SoftDecim
    ensures s.log2HardDecim <= MAX_LOG2_HARD_DECIM ==> r.log2HardDecim <= MAX_LOG2_HARD_DECIM
    ensures s.log2SoftDecim <= MAX_LOG2_SOFT_DECIM ==> r.log2SoftDecim <= MAX_LOG2_SOFT_DECIM
  {
    match e
    case StartStopToggled(_) => s
    case RecordToggled(_) => s
    case CenterFrequencyChanged(kHz) => s.(centerFrequency := ToUint64(kHz * 1000))
    case NcoFrequencyChanged(kHz) => s.(ncoFrequency := NcoFromDial(s, kHz))
    case NcoEnableToggled(checked) => s.(ncoEnable := checked)
    case NcoResetClicked => s.(ncoFrequency := 0)
    case DcOffsetToggled(checked) => s.(dcBlock := checked)
    case IqImbalanceToggled(checked) => s.(iqCorrection := checked)
    case SampleRateChanged(rate) => s.(devSampleRate := rate)
    case HwDecimIndexChanged(index) =>
      if 0 <= index <= MAX_LOG2_HARD_DECIM then s.(log2HardDecim := index) else s
    case SwDecimIndexChanged(index) =>
      if 0 <= index <= MAX_LOG2_SOFT_DECIM then s.(log2SoftDecim := index) else s
    case LpfChanged(kHz) => s.(lpfBW := ToUint64(kHz * 1000) as real)
    case LpFirEnableToggled(checked) => s.(lpfFIREnable := checked)
    case LpFirChanged(kHz) => s.(lpfFIRBW := ToUint64(kHz * 1000) as real)
    case GainModeIndexChanged(index) => s.(gainMode := index)
    case GainChanged(value) => s.(gain := ToUint32(value))
    case LnaGainChanged(value) => s.(lnaGain := ToUint32(value))
    case TiaGainIndexChanged(index) => s.(tiaGain := ToUint32(index + 1))
    case PgaGainChanged(value) => s.(pgaGain := ToUint32(value))
    case AntennaIndexChanged(index) => s.(antennaPath := index)
    case ExtClockClicked(active, frequency) => s.(extClock := active, extClockFreq := frequency)
    case PwrModeIndexChanged(index) => s.(pwrmode := ToUint32(index))
  }

  /**
   * An `on_*` slot. The start/stop button sends its request only through an
   * open gate; the record button always sends its request; every other edit
   * updates the mirror and, when `Sends` says so, starts the timer. No edit
   * touches the gate or the force flag.
   */
  function OnEdit(p: Panel, e: UserEdit): (r: Panel)
    ensures r.settings == EditedSettings(p.settings, e)
    ensures r.doApplySettings == p.doApplySettings && r.forceSettings == p.forceSettings
    ensures r.updateTimerActive == (p.updateTimerActive || Sends(p.settings, e))
    ensures SameCounters(p, r)
    ensures e.StartStopToggled? ==>
      r.sent == p.sent + (if p.doApplySettings then [StartStop(e.checked)] else [])
    ensures e.RecordToggled? ==> r.sent == p.sent + [FileRecord(e.checked)]
    ensures !e.StartStopToggled? && !e.RecordToggled? ==> r.sent == p.sent
  {
    match e
    case StartStopToggled(checked) =>
      if p.doApplySettings then p.(sent := p.sent + [StartStop(checked)]) else p
    case RecordToggled(checked) =>
      p.(sent := p.sent + [FileRecord(checked)])
    case _ =>
      var q := p.(settings := EditedSettings(p.settings, e));
      if Sends(p.settings, e) then SendSettings(q) else q
  }

  /** The decimation slots ignore out-of-range indices and otherwise store the index and send. */
  lemma DecimIndexGuards(p: Panel, index: int32)
    ensures index < 0 || index > MAX_LOG2_HARD_DECIM ==> OnEdit(p, HwDecimIndexChanged(index)) == p
    ensures 0 <= index <= MAX_LOG2_HARD_DECIM ==>
      && OnEdit(p, HwDecimIndexChanged(index)).settings == p.settings.(log2HardDecim := index)
      && OnEdit(p, HwDecimIndexChanged(index)).updateTimerActive
    ensures index < 0 || index > MAX_LOG2_SOFT_DECIM ==> OnEdit(p, SwDecimIndexChanged(index)) == p
    ensures 0 <= index <= MAX_LOG2_SOFT_DECIM ==>
      && OnEdit(p, SwDecimIndexChanged(index)).settings == p.settings.(log2SoftDecim := index)
      && OnEdit(p, SwDecimIndexChanged(index)).updateTimerActive
  {
  }

  /** The FIR bandwidth is always stored and sent only while the FIR is enabled. */
  lemma LpFirSentOnlyWhenEnabled(p: Panel, kHz: uint64)
    ensures OnEdit(p, LpFirChanged(kHz)).settings.lpfFIRBW == ToUint64(kHz * 1000) as real
    ensures OnEdit(p, LpFirChanged(kHz)).updateTimerActive == (p.updateTimerActive || p.settings.lpfFIREnable)
    ensures !p.settings.lpfFIREnable ==> OnEdit(p, LpFirChanged(kHz)) == p.(settings := p.settings.(lpfFIRBW := ToUint64(kHz * 1000) as real))
  {
  }

  // ---------------------------------------------------------------------------
  // NCO dial and ADC rate arithmetic

  /** `updateADCRate`: the ADC rate is the device rate times the hardware decimation. */
  function AdcRate(s: Settings): (r: int)
    ensures s.devSampleRate >= 0 ==> r >= s.devSampleRate
    ensures s.devSampleRate <= 0 ==> r <= s.devSampleRate
  {
    s.devSampleRate * Pow2(s.log2HardDecim)
  }

  /** Half the ADC rate, truncated toward zero: how far the NCO may move from the centre. */
  function NcoHalfRange(s: Settings): (half: int)
    ensures s.devSampleRate >= 0 ==> 0 <= 2 * half <= AdcRate(s) <= 2 * half + 1
  {
    HalveTowardZero(AdcRate(s))
  }

  /**
   * The lower end of the NCO dial (Hz) as `setNCODisplay` intends it: the
   * centre minus the half range, but never below zero. This is the corrected
   * definition; the code as written is `NcoLowBoundaryAsWritten`, which
   * agrees with it for centres below 2^31 Hz (`NcoLowBoundaryAsWrittenAgrees`).
   */
  function NcoLowBoundary(s: Settings): (low: int)
    ensures low >= 0 && low >= s.centerFrequency - NcoHalfRange(s)
    ensures low == 0 || low == s.centerFrequency - NcoHalfRange(s)
  {
    var d := s.centerFrequency - NcoHalfRange(s);
    if d > 0 then d else 0
  }

  /** The NCO dial of `setNCODisplay`, in kHz. */
  datatype DialRange = DialRange(low: int, high: int, value: int)

  /**
   * The range and value `setNCODisplay` gives the dial, built on the
   * corrected lower end: all in kHz, non-negative, and within the unsigned
   * 64-bit range once scaled back to Hz.
   */
  function NcoDial(s: Settings): (d: DialRange)
    ensures 0 <= d.low && 0 <= d.high && 0 <= d.value
    ensures d.high * 1000 < TWO_64 && d.value * 1000 < TWO_64
  {
    DialRange(NcoLowBoundary(s) / 1000,
              ToUint64(s.centerFrequency + NcoHalfRange(s)) / 1000,
              ToUint64(s.centerFrequency + s.ncoFrequency) / 1000)
  }

  /**
   * `on_ncoFrequency_changed`: the dial value v (kHz) and the centre are both
   * cast to signed 64-bit before the centre is divided by 1000 (truncating),
   * and the offset is `(v - centre / 1000) * 1000`: a whole number of kHz
   * that places the signed centre plus the offset at v kHz plus the
   * truncated sub-kHz remainder of the signed centre. For centres and dial
   * values below 2^63 this is v kHz plus the sub-kHz part of the centre.
   */
  function NcoFromDial(s: Settings, dialKHz: uint64): (nco: int)
    ensures nco % 1000 == 0
    ensures ToInt64(s.centerFrequency) >= 0 ==>
      0 <= ToInt64(s.centerFrequency) + nco - ToInt64(dialKHz) * 1000 < 1000
    ensures ToInt64(s.centerFrequency) < 0 ==>
      -1000 < ToInt64(s.centerFrequency) + nco - ToInt64(dialKHz) * 1000 <= 0
    ensures s.centerFrequency < TWO_63 && dialKHz < TWO_63 ==>
      s.centerFrequency + nco == dialKHz * 1000 + s.centerFrequency % 1000
  {
    (ToInt64(dialKHz) - TruncDiv(ToInt64(s.centerFrequency), 1000)) * 1000
  }

  /**
   * A negative centre set through `setCenterFrequency` is read back signed by
   * the dial handler: at -1 kHz, turning the dial to 0 kHz is an offset of +1 kHz.
   */
  lemma NcoFromDialAfterNegativeCentre(p: Panel)
    ensures NcoFromDial(SetCenterFrequency(p, -1000).settings, 0) == 1000
  {
    assert SetCenterFrequency(p, -1000).settings.centerFrequency == TWO_64 - 1000;
    assert ToInt64(TWO_64 - 1000) == -1000;
  }

  /** With a non-negative rate and no wrap-around, the dial's lower end is not above its upper end. */
  lemma NcoDialOrdered(s: Settings)
    requires s.devSampleRate >= 0 && s.centerFrequency + NcoHalfRange(s) < TWO_64
    ensures 0 <= NcoLowBoundary(s) <= s.centerFrequency + NcoHalfRange(s)
    ensures NcoDial(s).low <= NcoDial(s).high
  {
    DivMonotone(NcoLowBoundary(s), s.centerFrequency + NcoHalfRange(s));
  }

  /** An offset within the half range is shown inside the dial's range. */
  lemma NcoValueWithinDial(s: Settings)
    requires s.devSampleRate >= 0 && s.centerFrequency + NcoHalfRange(s) < TWO_64
    requires -NcoHalfRange(s) <= s.ncoFrequency <= NcoHalfRange(s)
    requires 0 <= s.centerFrequency + s.ncoFrequency
    ensures NcoDial(s).low <= NcoDial(s).value <= NcoDial(s).high
  {
    DivMonotone(NcoLowBoundary(s), s.centerFrequency + s.ncoFrequency);
    DivMonotone(s.centerFrequency + s.ncoFrequency, s.centerFrequency + NcoHalfRange(s));
  }

  /**
   * Turning the dial to v and redisplaying shows v, whatever the sub-kHz part
   * of the centre: the handler drops it when it divides the centre by 1000,
   * and the display drops it again.
   */
  lemma NcoDialRoundTrip(s: Settings, dialKHz: uint64)
    requires s.centerFrequency < TWO_63 && dialKHz * 1000 + 1000 <= TWO_64
    ensures NcoDial(s.(ncoFrequency := NcoFromDial(s, dialKHz))).value == dialKHz
  {
  }

  /** Reading the displayed value back through the dial handler leaves a whole-kHz offset unchanged. */
  lemma NcoDialReadBack(s: Settings)
    requires s.centerFrequency < TWO_63 && s.ncoFrequency % 1000 == 0
    requires 0 <= s.centerFrequency + s.ncoFrequency < TWO_64
    ensures NcoFromDial(s, NcoDial(s).value) == s.ncoFrequency
  {
    var c := s.centerFrequency;
    var n := s.ncoFrequency;
    assert (c + n) / 1000 == c / 1000 + n / 1000 by {
      assert n == (n / 1000) * 1000;
    }
  }

  lemma DivMonotone(a: int, b: int)
    requires 0 <= a <= b
    ensures a / 1000 <= b / 1000
  {
  }

  /**
   * `setNCODisplay` as written: the unsigned 64-bit centre is narrowed to a
   * 32-bit `int` before the half range is subtracted (in 32-bit arithmetic).
   */
  function NcoLowBoundaryAsWritten(s: Settings): (low: int)
    ensures low >= 0
  {
    var d := ToInt32(ToInt32(s.centerFrequency) - NcoHalfRange(s));
    if d > 0 then d else 0
  }

  /**
   * For a centre at or above 2^31 Hz (2.147 GHz, within the tuning range of
   * the device) the as-written lower end collapses to zero, while the
   * intended one is the centre minus the half range.
   */
  lemma NcoLowBoundaryAsWrittenCollapses(s: Settings)
    requires s.devSampleRate >= 0 && s.log2HardDecim <= MAX_LOG2_HARD_DECIM
    requires TWO_31 + NcoHalfRange(s) <= s.centerFrequency < TWO_32
    ensures NcoLowBoundaryAsWritten(s) == 0
    ensures NcoLowBoundary(s) == s.centerFrequency - NcoHalfRange(s) > 0
  {
    var c := s.centerFrequency;
    assert ToInt32(c) == c - TWO_32;
    assert -TWO_31 <= ToInt32(c) - NcoHalfRange(s) < 0;
  }

  /** Below 2^31 Hz, with a half range that fits an `int`, the code as written computes the intended lower end. */
  lemma NcoLowBoundaryAsWrittenAgrees(s: Settings)
    requires s.centerFrequency < TWO_31 && 0 <= NcoHalfRange(s) <= TWO_31
    ensures NcoLowBoundaryAsWritten(s) == NcoLowBoundary(s)
  {
    assert ToInt32(s.centerFrequency) == s.centerFrequency;
    assert ToInt32(s.centerFrequency - NcoHalfRange(s)) == s.centerFrequency - NcoHalfRange(s);
  }

  /** The concrete input: 2.5 GHz centre at 5 MS/s without hardware decimation. */
  lemma NcoLowBoundaryAt2500MHz(s: Settings)
    requires s.centerFrequency == 2_500_000_000 && s.devSampleRate == 5_000_000 && s.log2HardDecim == 0
    ensures NcoLowBoundaryAsWritten(s) == 0
    ensures NcoLowBoundary(s) == 2_497_500_000
  {
    assert NcoHalfRange(s) == 2_500_000;
    NcoLowBoundaryAsWrittenCollapses(s);
  }
}
