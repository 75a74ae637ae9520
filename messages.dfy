/**
 * The messages exchanged by the XTRX input plugin: the buddy notifications of
 * the shared device state and the requests and reports of the input device.
 * Each message class of the C++ code is one constructor; its `create`
 * arguments are the constructor's fields and its getters the destructors.
 */
module XtrxMessages {
  import opened Base
  import opened XtrxInputSettings

  datatype Msg =
    // buddy notifications (DeviceXTRXShared)
    | ReportBuddyChange(devSampleRate: int32, log2HardDecimInterp: uint32,
                        centerFrequency: uint64, rxElseTx: bool)
    | ReportClockSourceChange(extClock: bool, extClockFreq: uint32)
    | ReportDeviceInfo(temperature: real)
    // input device requests and reports (XTRXInput)
    | ConfigureXtrx(settings: Settings, force: bool)
    | GetStreamInfo
    | GetDeviceInfo
    | ReportStreamInfo(success: bool, active: bool, fifoFilledCount: uint32, fifoSize: uint32,
                       underrun: uint32, overrun: uint32, droppedPackets: uint32,
                       sampleRate: real, linkRate: real, timestamp: uint64)
    | StartStop(startStop: bool)
    | FileRecord(startStop: bool)

  /** The arguments of one call of `XTRXInput::applySettings`. */
  datatype ApplyCall = ApplyCall(settings: Settings, force: bool, forceNcoFrequency: bool)

  /** Builds a call the way C++ default arguments do: both force flags default to false. */
  function MakeApplyCall(settings: Settings, force: bool := false, forceNcoFrequency: bool := false): (c: ApplyCall)
    ensures c.settings == settings && c.force == force && c.forceNcoFrequency == forceNcoFrequency
  {
    ApplyCall(settings, force, forceNcoFrequency)
  }

  lemma ApplyDefaultsAreUnforced(settings: Settings)
    ensures !MakeApplyCall(settings).force && !MakeApplyCall(settings).forceNcoFrequency
    ensures MakeApplyCall(settings, true) == ApplyCall(settings, true, false)
  {
  }

  lemma BuddyChangeGetters(devSampleRate: int32, log2HardDecimInterp: uint32, centerFrequency: uint64, rxElseTx: bool)
    ensures var m := ReportBuddyChange(devSampleRate, log2HardDecimInterp, centerFrequency, rxElseTx);
      m.ReportBuddyChange? && m.devSampleRate == devSampleRate && m.log2HardDecimInterp == log2HardDecimInterp
      && m.centerFrequency == centerFrequency && m.rxElseTx == rxElseTx
  {
  }

  lemma ClockSourceChangeGetters(extClock: bool, extClockFreq: uint32)
    ensures var m := ReportClockSourceChange(extClock, extClockFreq);
      m.ReportClockSourceChange? && m.extClock == extClock && m.extClockFreq == extClockFreq
  {
  }

  lemma ConfigureGetters(settings: Settings, force: bool)
    ensures var m := ConfigureXtrx(settings, force);
      m.ConfigureXtrx? && m.settings == settings && m.force == force
  {
  }

  lemma StartStopAndRecordGetters(startStop: bool)
    ensures StartStop(startStop).startStop == startStop
    ensures FileRecord(startStop).startStop == startStop
    ensures StartStop(startStop) != FileRecord(startStop)
  {
  }

  lemma StreamInfoGetters(success: bool, active: bool, fifoFilledCount: uint32, fifoSize: uint32,
                          underrun: uint32, overrun: uint32, droppedPackets: uint32,
                          sampleRate: real, linkRate: real, timestamp: uint64)
    ensures var m := ReportStreamInfo(success, active, fifoFilledCount, fifoSize, underrun, overrun,
                                      droppedPackets, sampleRate, linkRate, timestamp);
      m.success == success && m.active == active && m.fifoFilledCount == fifoFilledCount
      && m.fifoSize == fifoSize && m.underrun == underrun && m.overrun == overrun
      && m.droppedPackets == droppedPackets && m.timestamp == timestamp
  {
  }

  /** The two information requests have no payload: each has exactly one value. */
  lemma RequestsCarryNoPayload(m: Msg)
    ensures m.GetStreamInfo? ==> m == GetStreamInfo
    ensures m.GetDeviceInfo? ==> m == GetDeviceInfo
  {
  }
}
