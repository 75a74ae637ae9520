# XTRX input plugin: a Dafny model

This project models the controller side of the XTRX sample-source plugin of
SDRangel. The model covers:

- **The settings panel** (`XTRXInputGUI`). The panel keeps a mirror of the
  channel settings and an apply gate (`m_doApplySettings`). It also keeps a
  force flag, a debounce timer that fires `updateHardware`, and two
  status-poll counters. It talks to the input device only by pushing
  messages onto the device's queue.
  - The panel's logic is a pure state machine in module `XtrxPanel`: a
    `Panel` value plus one function per handler. The properties are proved
    as lemmas about those functions.
  - Module `XtrxInputGui` is the panel as a class with the same fields. Each
    method updates the fields in place and is proved to produce exactly the
    state the matching `XtrxPanel` function computes.
  - `handleInputMessages` is a loop that drains the panel's own input queue.
- **The plugin object** (`XTRXInputPlugin`):
  - `findSerial`, a leftmost search for `serial=` followed by a greedy run
    of the class `[0-9,A-F]`, specified directly over character sequences;
  - `enumSampleSources`, nested loops that list every channel of every
    discovered device, device-major and channel-minor;
  - the two factories, which accept only the plugin's own device type.
- **The messages** of the shared device state (`DeviceXTRXShared`) and of
  the input device (`XTRXInput`). They form one datatype with one
  constructor per message class. The model also covers the shared-state
  constructor and the `ThreadInterface` operations.

Files:

- `base.dfy`: `Option`, the C integer widths, and the conversions the C++
  code performs implicitly. These are wrap-around, two's-complement
  narrowing and truncation toward zero.
- `settings.dfy`: the settings record.
- `messages.dfy`: the messages.
- `shared.dfy`: the shared state.
- `panel.dfy`: the panel as functions, with its lemmas.
- `gui.dfy`: the panel as a class.
- `plugin.dfy`: the plugin.

Widgets are abstracted away:

- A slot receives the value its widget reported.
- Whatever a handler reads back from a widget is a parameter of that handler.
- The engine state and buddy leadership are parameters of `UpdateStatus`.
- `XTRXInputSettings::deserialize` is given as its outcome: the decoded
  settings, or none.
- `resetToDefaults` is given the default settings.
- The discovery call of the XTRX SDK is given as the device buffer and the
  count it returned.
- The device type identifier (the macro `XTRX_DEVICE_TYPE_ID`) and the
  channel count of `DeviceXTRXParams` are parameters. The headers that
  define them are not part of this model.

The plugin's design also includes an apply engine, channel acquisition and
buddy suspend/resume. The files modelled here only declare those operations
(`plugins/samplesource/xtrx/xtrxinput.h:250-258`). The model follows the
code that is present and leaves them out.

## Model

| member | source | states |
|---|---|---|
| Base.ToUint64 | plugins/samplesource/xtrx/xtrxinputgui.cpp:440 | conversion into `uint64_t`: congruent modulo 2^64, identity in range |
| Base.ToUint32 | plugins/samplesource/xtrx/xtrxinputgui.cpp:547 | conversion of an `int` into a `uint32_t` field: congruent modulo 2^32, identity in range |
| Base.ToInt32 | plugins/samplesource/xtrx/xtrxinputgui.cpp:332 | the `(int)` cast of the 64-bit centre: congruent modulo 2^32, identity on 32-bit values |
| Base.ToInt64 | plugins/samplesource/xtrx/xtrxinputgui.cpp:109-112 | the `qint64` return of an unsigned 64-bit field: congruent modulo 2^64, identity on signed 64-bit values |
| Base.Pow2 | plugins/samplesource/xtrx/xtrxinputgui.cpp:262 | `1 << n` without the width limit of the shift: at least 1 |
| Base.TruncDiv | plugins/samplesource/xtrx/xtrxinputgui.cpp:447 | C's integer division, as in `(int64_t) m_centerFrequency/1000`: the remainder lies in [0, d) for a non-negative dividend and in (-d, 0] for a negative one |
| Base.HalveTowardZero | plugins/samplesource/xtrx/xtrxinputgui.cpp:331 | the floating-point half converted to `int`: truncated toward zero on both signs |
| XtrxMessages.BuddyChangeGetters | devices/xtrx/devicextrxshared.h:30-69 | each getter of a buddy-change report returns the argument given to `create` |
| XtrxMessages.ClockSourceChangeGetters | devices/xtrx/devicextrxshared.h:71-98 | both getters of a clock-source report return the arguments given to `create` |
| XtrxMessages.ConfigureGetters | plugins/samplesource/xtrx/xtrxinput.h:36-57 | the configure message returns its settings and force flag |
| XtrxMessages.RequestsCarryNoPayload | plugins/samplesource/xtrx/xtrxinput.h:59-87 | the stream-info and device-info requests have exactly one value each |
| XtrxMessages.StreamInfoGetters | plugins/samplesource/xtrx/xtrxinput.h:89-168 | every non-float field of a stream-info report reads back as given |
| XtrxMessages.StartStopAndRecordGetters | plugins/samplesource/xtrx/xtrxinput.h:170-206 | start/stop and record messages round-trip their boolean and are distinct messages |
| XtrxMessages.MakeApplyCall | plugins/samplesource/xtrx/xtrxinput.h:258 | an `applySettings` call carries the settings and both force flags it was given |
| XtrxMessages.ApplyDefaultsAreUnforced | plugins/samplesource/xtrx/xtrxinput.h:258 | `applySettings` without the optional arguments is neither forced nor NCO-forced |
| DeviceXtrxShared.SharedState.constructor | devices/xtrx/devicextrxshared.h:144-155 | a fresh shared state has no device parameters, channel AB, no thread, a cleared resume flag and every rate and offset zero |
| DeviceXtrxShared.ThreadInterface.StartWork | devices/xtrx/devicextrxshared.h:123 | the thread runs afterwards, with its sample rate untouched |
| DeviceXtrxShared.ThreadInterface.StopWork | devices/xtrx/devicextrxshared.h:124 | the thread is stopped afterwards, with its sample rate untouched |
| DeviceXtrxShared.ThreadInterface.SetDeviceSampleRate | devices/xtrx/devicextrxshared.h:125 | the rate is the one given and the running state is unchanged |
| DeviceXtrxShared.ThreadInterface.IsRunning | devices/xtrx/devicextrxshared.h:126 | reports the running state |
| XtrxPanel.SendSettings | plugins/samplesource/xtrx/xtrxinputgui.cpp:339-343 | the timer is active afterwards, nothing else changes, and an already active timer is left alone |
| XtrxPanel.SendSettingsIdempotent | plugins/samplesource/xtrx/xtrxinputgui.cpp:339-343 | sending twice is sending once |
| XtrxPanel.UpdateHardware | plugins/samplesource/xtrx/xtrxinputgui.cpp:345-355 | with the gate open, exactly one configure message with the mirror and the force flag is appended, then force is cleared and the timer stopped; with the gate closed nothing changes |
| XtrxPanel.SecondConfigureIsUnforced | plugins/samplesource/xtrx/xtrxinputgui.cpp:350-352 | of two back-to-back configure messages the second is unforced |
| XtrxPanel.UpdateStatus | plugins/samplesource/xtrx/xtrxinputgui.cpp:357-410 | the counters end in [0,1] and [0,10], the engine state is remembered, a stream-info request is appended from counter 1 and a device-info request from counter 10 only for the buddy leader, and nothing else changes |
| XtrxPanel.TickOnlyPolls | plugins/samplesource/xtrx/xtrxinputgui.cpp:385-409 | one tick only appends poll requests and keeps what was sent before |
| XtrxPanel.OneTickCounters | plugins/samplesource/xtrx/xtrxinputgui.cpp:385-409 | from in-range counters, one tick advances the stream counter modulo 2 and the device counter modulo 11 |
| XtrxPanel.OneTick | plugins/samplesource/xtrx/xtrxinputgui.cpp:385-409 | from in-range counters, one tick advances each counter modulo its period and sends each request exactly when its counter wraps |
| XtrxPanel.CadenceCounters | plugins/samplesource/xtrx/xtrxinputgui.cpp:385-409 | from fresh counters, after n ticks the counters are n mod 2 and n mod 11 |
| XtrxPanel.CadenceOnlyPolls | plugins/samplesource/xtrx/xtrxinputgui.cpp:385-409 | n ticks append nothing but poll requests |
| XtrxPanel.CadenceCounts | plugins/samplesource/xtrx/xtrxinputgui.cpp:385-409 | n ticks send n/2 stream-info requests, plus n/11 device-info requests for the buddy leader and none otherwise |
| XtrxPanel.PollingCadence | plugins/samplesource/xtrx/xtrxinputgui.cpp:385-409 | the three cadence facts together |
| XtrxPanel.AfterMessage | plugins/samplesource/xtrx/xtrxinputgui.cpp:142-233 | a buddy change copies rate and decimation, and the centre only when the receive side sent it; a clock-source report copies the clock; no handler sends, forces or starts the timer; the gate is open afterwards iff it was open or the message is one of the three that reopen it |
| XtrxPanel.AfterInbound | plugins/samplesource/xtrx/xtrxinputgui.cpp:235-258 | one queued item sends nothing and leaves force, timer, counters and engine state alone; a DSP notification sets only the displayed rate and frequency; the gate is open afterwards iff it was open or the item is a gate-reopening report |
| XtrxPanel.AfterInbox | plugins/samplesource/xtrx/xtrxinputgui.cpp:235-258 | draining the input queue front to back sends nothing and leaves force, timer and counters alone |
| XtrxPanel.InboxGate | plugins/samplesource/xtrx/xtrxinputgui.cpp:235-258 | after draining, the gate is open iff it was open or the queue held a gate-reopening report |
| XtrxPanel.BuddyChangeReachesNextConfigure | plugins/samplesource/xtrx/xtrxinputgui.cpp:145-160 | the next configure message after a buddy change carries the reported rate and decimation |
| XtrxPanel.ResetToDefaults | plugins/samplesource/xtrx/xtrxinputgui.cpp:102-107 | the mirror becomes the defaults, the timer is active, and gate, force and sent messages are unchanged |
| XtrxPanel.Deserialize | plugins/samplesource/xtrx/xtrxinputgui.cpp:126-140 | it succeeds iff decoding does; on success the decoded settings are sent forced, on failure the defaults are sent with force unchanged |
| XtrxPanel.SetCenterFrequency | plugins/samplesource/xtrx/xtrxinputgui.cpp:114-119 | the signed value is stored wrapped into 64 unsigned bits and sent |
| XtrxPanel.GetCenterFrequency | plugins/samplesource/xtrx/xtrxinputgui.cpp:109-112 | frequencies below 2^63 are returned as is, larger ones less 2^64 |
| XtrxPanel.CenterFrequencyRoundTrip | plugins/samplesource/xtrx/xtrxinputgui.cpp:109-119 | reading the centre back returns exactly the value set, negative values included |
| XtrxPanel.EditedSettings | plugins/samplesource/xtrx/xtrxinputgui.cpp:417-590 | the two buttons leave the mirror alone; the centre, NCO offset, rate and both decimations change only under their own widgets; in-range decimation indices stay in range |
| XtrxPanel.OnEdit | plugins/samplesource/xtrx/xtrxinputgui.cpp:417-590 | a slot stores its edit in the mirror, starts the timer exactly when the edit sends, never touches gate or force, sends start/stop only through an open gate, always sends a record request, and sends nothing else |
| XtrxPanel.DecimIndexGuards | plugins/samplesource/xtrx/xtrxinputgui.cpp:484-500 | hardware indices outside 0..5 and software indices outside 0..6 change nothing; others are stored and sent |
| XtrxPanel.LpFirSentOnlyWhenEnabled | plugins/samplesource/xtrx/xtrxinputgui.cpp:514-521 | the FIR bandwidth is always stored and the timer started only while the FIR is enabled |
| XtrxPanel.AdcRate | plugins/samplesource/xtrx/xtrxinputgui.cpp:262 | the ADC rate is at least the device rate for a non-negative rate (at most for a non-positive one) |
| XtrxPanel.NcoHalfRange | plugins/samplesource/xtrx/xtrxinputgui.cpp:331 | twice the half range is the ADC rate or one less |
| XtrxPanel.NcoLowBoundary | plugins/samplesource/xtrx/xtrxinputgui.cpp:332 | the corrected lower end of the dial (see Findings): max(0, centre minus half range) |
| XtrxPanel.NcoDial | plugins/samplesource/xtrx/xtrxinputgui.cpp:329-337 | the dial range and value in kHz, on the corrected lower end: all non-negative, upper end and value within 64 unsigned bits once scaled to Hz |
| XtrxPanel.NcoFromDial | plugins/samplesource/xtrx/xtrxinputgui.cpp:445-450 | the offset is a whole number of kHz; with both operands cast to signed 64 bits, centre plus offset is the dial value in Hz plus the centre's truncated sub-kHz remainder, which for centres and dial values below 2^63 is the ordinary sub-kHz part |
| XtrxPanel.NcoFromDialAfterNegativeCentre | plugins/samplesource/xtrx/xtrxinputgui.cpp:114-119 | after `setCenterFrequency(-1000)`, turning the dial to 0 kHz gives an offset of +1000 Hz, because the centre is read back signed |
| XtrxPanel.NcoDialOrdered | plugins/samplesource/xtrx/xtrxinputgui.cpp:331-335 | on the corrected dial, 0 <= low <= centre + half range, so the range is never inverted |
| XtrxPanel.NcoValueWithinDial | plugins/samplesource/xtrx/xtrxinputgui.cpp:331-336 | on the corrected dial, an offset within the half range is shown inside the range |
| XtrxPanel.NcoDialRoundTrip | plugins/samplesource/xtrx/xtrxinputgui.cpp:329-448 | turning the dial to v and redisplaying shows v, for any centre below 2^63 Hz (its sub-kHz part included) while v kHz plus one kHz fits 64 unsigned bits |
| XtrxPanel.NcoDialReadBack | plugins/samplesource/xtrx/xtrxinputgui.cpp:329-448 | feeding the displayed value back through the dial handler keeps a whole-kHz offset, for any centre below 2^63 Hz (its sub-kHz part included) |
| XtrxPanel.NcoLowBoundaryAsWritten | plugins/samplesource/xtrx/xtrxinputgui.cpp:332 | the lower end as written, with the centre narrowed to 32 bits first, is never negative |
| XtrxPanel.NcoLowBoundaryAsWrittenCollapses | plugins/samplesource/xtrx/xtrxinputgui.cpp:332 | for 2^31 + half range <= centre < 2^32 the lower end as written is 0 while the intended one is positive |
| XtrxPanel.NcoLowBoundaryAsWrittenAgrees | plugins/samplesource/xtrx/xtrxinputgui.cpp:332 | for centres below 2^31 Hz and a half range that fits an `int`, the lower end as written equals the corrected one |
| XtrxPanel.NcoLowBoundaryAt2500MHz | plugins/samplesource/xtrx/xtrxinputgui.cpp:332 | at 2.5 GHz and 5 MS/s the lower end as written is 0 instead of 2_497_500_000 |
| XtrxInputGui.InputGui.constructor | plugins/samplesource/xtrx/xtrxinputgui.cpp:33-80 | a new panel has its gate open, force raised, timer stopped, counters zero, engine state unknown and nothing sent |
| XtrxInputGui.InputGui.GetCenterFrequency | plugins/samplesource/xtrx/xtrxinputgui.cpp:109-112 | returns `GetCenterFrequency` of the state |
| XtrxInputGui.InputGui.SendSettings | plugins/samplesource/xtrx/xtrxinputgui.cpp:339-343 | the new state is `SendSettings` of the old one |
| XtrxInputGui.InputGui.BlockApplySettings | plugins/samplesource/xtrx/xtrxinputgui.cpp:412-415 | the gate is set to the negation of `block`, nothing else changes |
| XtrxInputGui.InputGui.UpdateHardware | plugins/samplesource/xtrx/xtrxinputgui.cpp:345-355 | the new state is `UpdateHardware` of the old one |
| XtrxInputGui.InputGui.UpdateStatus | plugins/samplesource/xtrx/xtrxinputgui.cpp:357-410 | the new state is `UpdateStatus` of the old one, and so the counters stay in range |
| XtrxInputGui.InputGui.ResetToDefaults | plugins/samplesource/xtrx/xtrxinputgui.cpp:102-107 | the new state is `ResetToDefaults` of the old one |
| XtrxInputGui.InputGui.SetCenterFrequency | plugins/samplesource/xtrx/xtrxinputgui.cpp:114-119 | the new state is `SetCenterFrequency` of the old one |
| XtrxInputGui.InputGui.Deserialize | plugins/samplesource/xtrx/xtrxinputgui.cpp:126-140 | result and new state are `Deserialize` of the old state |
| XtrxInputGui.InputGui.HandleMessage | plugins/samplesource/xtrx/xtrxinputgui.cpp:142-233 | returns true exactly for the five handled kinds, and the new state is `AfterMessage` of the old one |
| XtrxInputGui.InputGui.HandleInputMessages | plugins/samplesource/xtrx/xtrxinputgui.cpp:235-258 | the queue ends empty and the state is the old one with every queued message applied front to back |
| XtrxInputGui.InputGui.Deliver | plugins/samplesource/xtrx/xtrxinputgui.cpp:235-258 | the queue the loop drains is first-in first-out: an arriving message goes to its back and nothing else changes |
| XtrxInputGui.InputGui.OnStartStopToggled | plugins/samplesource/xtrx/xtrxinputgui.cpp:417-424 | the new state is `OnEdit` of the old one for this edit |
| XtrxInputGui.InputGui.OnRecordToggled | plugins/samplesource/xtrx/xtrxinputgui.cpp:426-436 | the new state is `OnEdit` of the old one for this edit |
| XtrxInputGui.InputGui.OnCenterFrequencyChanged | plugins/samplesource/xtrx/xtrxinputgui.cpp:438-443 | the new state is `OnEdit` of the old one for this edit |
| XtrxInputGui.InputGui.OnNcoFrequencyChanged | plugins/samplesource/xtrx/xtrxinputgui.cpp:445-450 | the new state is `OnEdit` of the old one for this edit |
| XtrxInputGui.InputGui.OnNcoEnableToggled | plugins/samplesource/xtrx/xtrxinputgui.cpp:452-456 | the new state is `OnEdit` of the old one for this edit |
| XtrxInputGui.InputGui.OnNcoResetClicked | plugins/samplesource/xtrx/xtrxinputgui.cpp:458-463 | the new state is `OnEdit` of the old one for this edit |
| XtrxInputGui.InputGui.OnDcOffsetToggled | plugins/samplesource/xtrx/xtrxinputgui.cpp:465-469 | the new state is `OnEdit` of the old one for this edit |
| XtrxInputGui.InputGui.OnIqImbalanceToggled | plugins/samplesource/xtrx/xtrxinputgui.cpp:471-475 | the new state is `OnEdit` of the old one for this edit |
| XtrxInputGui.InputGui.OnSampleRateChanged | plugins/samplesource/xtrx/xtrxinputgui.cpp:477-482 | the new state is `OnEdit` of the old one for this edit |
| XtrxInputGui.InputGui.OnHwDecimIndexChanged | plugins/samplesource/xtrx/xtrxinputgui.cpp:484-492 | the new state is `OnEdit` of the old one for this edit |
| XtrxInputGui.InputGui.OnSwDecimIndexChanged | plugins/samplesource/xtrx/xtrxinputgui.cpp:494-500 | the new state is `OnEdit` of the old one for this edit |
| XtrxInputGui.InputGui.OnLpfChanged | plugins/samplesource/xtrx/xtrxinputgui.cpp:502-506 | the new state is `OnEdit` of the old one for this edit |
| XtrxInputGui.InputGui.OnLpFirEnableToggled | plugins/samplesource/xtrx/xtrxinputgui.cpp:508-512 | the new state is `OnEdit` of the old one for this edit |
| XtrxInputGui.InputGui.OnLpFirChanged | plugins/samplesource/xtrx/xtrxinputgui.cpp:514-521 | the new state is `OnEdit` of the old one for this edit |
| XtrxInputGui.InputGui.OnGainModeIndexChanged | plugins/samplesource/xtrx/xtrxinputgui.cpp:523-543 | the new state is `OnEdit` of the old one for this edit |
| XtrxInputGui.InputGui.OnGainChanged | plugins/samplesource/xtrx/xtrxinputgui.cpp:545-550 | the new state is `OnEdit` of the old one for this edit |
| XtrxInputGui.InputGui.OnLnaGainChanged | plugins/samplesource/xtrx/xtrxinputgui.cpp:552-557 | the new state is `OnEdit` of the old one for this edit |
| XtrxInputGui.InputGui.OnTiaGainIndexChanged | plugins/samplesource/xtrx/xtrxinputgui.cpp:559-563 | the new state is `OnEdit` of the old one for this edit |
| XtrxInputGui.InputGui.OnPgaGainChanged | plugins/samplesource/xtrx/xtrxinputgui.cpp:565-570 | the new state is `OnEdit` of the old one for this edit |
| XtrxInputGui.InputGui.OnAntennaIndexChanged | plugins/samplesource/xtrx/xtrxinputgui.cpp:572-576 | the new state is `OnEdit` of the old one for this edit |
| XtrxInputGui.InputGui.OnExtClockClicked | plugins/samplesource/xtrx/xtrxinputgui.cpp:578-584 | the new state is `OnEdit` of the old one for this edit |
| XtrxInputGui.InputGui.OnPwrModeIndexChanged | plugins/samplesource/xtrx/xtrxinputgui.cpp:586-590 | the new state is `OnEdit` of the old one for this edit |
| XtrxInputPlugin.CString | plugins/samplesource/xtrx/xtrxinputplugin.cpp:106 | the string a `const char *` denotes is the longest NUL-free prefix |
| XtrxInputPlugin.CStringPrefix | plugins/samplesource/xtrx/xtrxinputplugin.cpp:106 | a NUL-free prefix is kept whole, and the string goes on with what follows it |
| XtrxInputPlugin.RunEnd | plugins/samplesource/xtrx/xtrxinputplugin.cpp:105 | the greedy `+` ends at the first character outside the class, or at the end of the string |
| XtrxInputPlugin.LeftmostMatch | plugins/samplesource/xtrx/xtrxinputplugin.cpp:108 | the search finds the first position where the pattern matches, or reports that none does |
| XtrxInputPlugin.FindSerial | plugins/samplesource/xtrx/xtrxinputplugin.cpp:103-119 | true iff some `serial=` is followed by a class character; the serial is then the non-empty, maximal class run after the leftmost such key; on failure `serial` is unchanged |
| XtrxInputPlugin.FindSerialAtFront | plugins/samplesource/xtrx/xtrxinputplugin.cpp:103-119 | the key and a class run at the front yield exactly that run, whatever follows |
| XtrxInputPlugin.FindSerialNeedsOneClassChar | plugins/samplesource/xtrx/xtrxinputplugin.cpp:110-118 | for every text in which each `serial=` is followed by a character outside the class or by the end, nothing matches and `serial` is kept |
| XtrxInputPlugin.Decimal | plugins/samplesource/xtrx/xtrxinputplugin.cpp:71 | an integer argument is written as a non-empty digit string |
| XtrxInputPlugin.DecimalRoundTrip | plugins/samplesource/xtrx/xtrxinputplugin.cpp:71 | the digit string's value is the integer written |
| XtrxInputPlugin.DisplayedNameShape | plugins/samplesource/xtrx/xtrxinputplugin.cpp:71 | a displayed name starts with `XTRX[` and ends with the device's unique name |
| XtrxInputPlugin.DisplayedNameInjective | plugins/samplesource/xtrx/xtrxinputplugin.cpp:71 | two entries have the same displayed name only for the same device, channel and unique name |
| XtrxInputPlugin.EnumSampleSources | plugins/samplesource/xtrx/xtrxinputplugin.cpp:60-84 | the result is the device-major, channel-minor listing of the first `res` devices; it has res × channels entries and is empty when the discovery count is 0 or negative |
| XtrxInputPlugin.Row | plugins/samplesource/xtrx/xtrxinputplugin.cpp:68-81 | the inner loop's m iterations give m entries |
| XtrxInputPlugin.ListingLength | plugins/samplesource/xtrx/xtrxinputplugin.cpp:66-81 | `Listing`, the outer loop over n devices, gives n × channels entries |
| XtrxInputPlugin.ListingPrefix | plugins/samplesource/xtrx/xtrxinputplugin.cpp:66-81 | the listing of fewer devices is a prefix of the listing of more: the outer loop only appends |
| XtrxInputPlugin.ListingAt | plugins/samplesource/xtrx/xtrxinputplugin.cpp:66-81 | entry i × channels + j exists and is `Entry` for channel j of device i |
| XtrxInputPlugin.ListingEntryFields | plugins/samplesource/xtrx/xtrxinputplugin.cpp:71-80 | that entry has sequence i, channel j, the channel count, the device's unique name as serial and in the displayed name, the hardware and device type ids, and is a physical receive device |
| XtrxInputPlugin.ListingEntries | plugins/samplesource/xtrx/xtrxinputplugin.cpp:71 | the entries for two different (device, channel) pairs have different displayed names |
| XtrxInputPlugin.ListingNamesDistinct | plugins/samplesource/xtrx/xtrxinputplugin.cpp:66-81 | no two positions of a listing carry the same displayed name |
| XtrxInputPlugin.CreateSampleSourcePluginInstanceInput | plugins/samplesource/xtrx/xtrxinputplugin.cpp:121-132 | an input instance is created iff the source id is the device type id, bound to the given device API |
| XtrxInputPlugin.CreateSampleSourcePluginInstanceGui | plugins/samplesource/xtrx/xtrxinputplugin.cpp:86-101 | a fresh panel in its initial state is created iff the source id is the device type id, and stored in `widget`; otherwise `widget` is unchanged |

## Left out

- The apply engine, device open/close, channel acquire/release and buddy suspend/resume: the files modelled here only declare them.
- `XTRXInputSettings::resetToDefaults`, `serialize` and `deserialize`: their bodies are not part of this model. Deserializing is an input (decoded settings or failure) and the defaults are a parameter.
- Widget painting, style sheets, the message box, and the ADC-rate label of `updateADCRate` (its kHz/MS/s choice and floating-point formatting): only the rate itself is modelled, as `AdcRate`.
- Widget echo: `displaySettings` and `setValue` calls that fire further slots in Qt. The model treats each slot as one step.
- The Qt timers: the debounce timer is a boolean and the status timer's tick is the caller of `UpdateStatus`.
- Message ownership: who deletes a message, and the loss of unhandled messages that `handleInputMessages` drops without deleting.
- The XTRX SDK calls behind the discovery call and the shared state's rate and temperature helpers.
- Locking and concurrency between buddies.
- Plugin registration and the plugin descriptor.
- Floating-point values: temperature, stream sample and link rates, the shared state's doubles, and the low-pass bandwidths are exact reals.
- `DeviceXtrxShared.ThreadInterface`: the abstract thread is a class with the two fields its operations name. No real thread is started.
- `XtrxInputSettings.Settings`: `m_devSampleRate` is a `double` in the code. The model keeps it an integer, because the panel only stores integers into it. It may be negative, because a buddy report carries a C `int`.
- `XtrxPanel.NcoFromDial`: stores the offset as an unbounded integer. The field is a 32-bit `int`, so the model does not capture the narrowing of large offsets, nor a signed 64-bit overflow of the subtraction or the product.
- `XtrxPanel.AdcRate`: computes the product exactly. It does not capture the width of `1 << log2HardDecim`, or the conversion of the product to `uint32_t` in `updateADCRate`.
- `XtrxPanel.NcoHalfRange`: is exact, and does not capture an `int` overflow of the converted half range.
- `XtrxPanel.NcoDial`: is built on the corrected lower end `NcoLowBoundary`, so `NcoDialOrdered` and `NcoValueWithinDial` are about the intended dial. The dial the code sets has a lower end of 0 for centres from 2^31 Hz plus the half range up to 2^32 Hz (see Findings). The upper end and the value are wrapped into 64 unsigned bits, as the code does; their relation for centres near 2^64 is not stated.
- `XtrxPanel.NcoDialRoundTrip` and `XtrxPanel.NcoDialReadBack`: stated for centres below 2^63 Hz. Above that the dial handler reads the centre as a negative signed value, whose truncated division by 1000 rounds the other way, so the displayed value can land 1 kHz off.
- `XtrxInputPlugin.EnumSampleSources`: requires a discovery count of at most 32, which is the buffer size passed to the SDK. The channel count is a parameter.
- `XtrxInputPlugin.CreateSampleSourcePluginInstanceInput`: the input device is a value bound to its device API. The device's own behaviour is not part of this model.
- `XtrxInputPlugin.FindSerial`: the regular expression is specified for this one pattern, not through a general regex engine.

## Findings

| source | as written | input that shows it | evidently intended | confidence | as-written member | corrected member |
|---|---|---|---|---|---|---|
| plugins/samplesource/xtrx/xtrxinputgui.cpp:332 | `std::max(0, (int) m_centerFrequency - ncoHalfRange)` narrows the 64-bit centre to a 32-bit `int` before subtracting, so any centre from 2^31 Hz + half range up to 2^32 Hz gives a lower dial end of 0 | centre 2_500_000_000 Hz, device rate 5_000_000 S/s, log2 hardware decimation 0: lower end 0 kHz | lower end max(0, centre − half range) = 2_497_500_000 Hz (2_497_500 kHz) | not executed | XtrxPanel.NcoLowBoundaryAsWritten, XtrxPanel.NcoLowBoundaryAsWrittenCollapses | XtrxPanel.NcoLowBoundary |
