/**
 * The XTRX input settings panel (`XTRXInputGUI`) as an object whose slots
 * update its fields in place. Widgets are abstracted away: a slot receives
 * the value its widget reported, and what the panel would read back from a
 * widget is a parameter. Each method is proved to take the panel from one
 * state to the next exactly as the matching function of XtrxPanel does.
 */
module XtrxInputGui {
  import opened Base
  import opened XtrxInputSettings
  import opened XtrxMessages
  import opened XtrxPanel

  class InputGui {
    var settings: Settings
    var doApplySettings: bool
    var forceSettings: bool
    var updateTimerActive: bool
    var statusCounter: nat
    var deviceStatusCounter: nat
    var lastEngineState: int
    var sampleRate: int
    var deviceCenterFrequency: uint64
    /** Messages pushed to the input device's queue, oldest first. */
    var sent: seq<Msg>
    /** The panel's own input queue, not yet handled. */
    var inbox: seq<Inbound>

    /** The panel's state as a value. */
    function Snapshot(): Panel
      reads this
    {
      Panel(settings, doApplySettings, forceSettings, updateTimerActive, statusCounter,
            deviceStatusCounter, lastEngineState, sampleRate, deviceCenterFrequency, sent)
    }

    /**
     * A new panel: the mirror holds the record's initial settings, the gate
     * is open and the first configure message will be forced; nothing has
     * been sent or received. The displayed device centre frequency is left
     * unset, as in the source.
     */
    constructor (initialSettings: Settings)
      ensures settings == initialSettings && doApplySettings && forceSettings
      ensures !updateTimerActive && statusCounter == 0 && deviceStatusCounter == 0
      ensures lastEngineState == UNKNOWN_ENGINE_STATE && sampleRate == 0
      ensures sent == [] && inbox == []
    {
      settings := initialSettings;
      sampleRate := 0;
      lastEngineState := UNKNOWN_ENGINE_STATE;
      doApplySettings := true;
      forceSettings := true;
      statusCounter := 0;
      deviceStatusCounter := 0;
      updateTimerActive := false;
      sent := [];
      inbox := [];
    }

    method GetCenterFrequency() returns (centerFrequency: int64)
      ensures centerFrequency == XtrxPanel.GetCenterFrequency(Snapshot())
    {
      centerFrequency := ToInt64(settings.centerFrequency);
    }

    method SendSettings()
      modifies this
      ensures Snapshot() == XtrxPanel.SendSettings(old(Snapshot())) && inbox == old(inbox)
    {
      if !updateTimerActive {
        updateTimerActive := true;
      }
    }

    method BlockApplySettings(block: bool)
      modifies this
      ensures Snapshot() == old(Snapshot()).(doApplySettings := !block) && inbox == old(inbox)
    {
      doApplySettings := !block;
    }

    method UpdateHardware()
      modifies this
      ensures Snapshot() == XtrxPanel.UpdateHardware(old(Snapshot())) && inbox == old(inbox)
    {
      if doApplySettings {
        sent := sent + [ConfigureXtrx(settings, forceSettings)];
        forceSettings := false;
        updateTimerActive := false;
      }
    }

    method UpdateStatus(engineState: int, isBuddyLeader: bool)
      modifies this
      ensures Snapshot() == XtrxPanel.UpdateStatus(old(Snapshot()), engineState, isBuddyLeader)
      ensures inbox == old(inbox)
    {
      if lastEngineState != engineState {
        lastEngineState := engineState;
      }
      if statusCounter < 1 {
        statusCounter := statusCounter + 1;
      } else {
        sent := sent + [GetStreamInfo];
        statusCounter := 0;
      }
      if deviceStatusCounter < 10 {
        deviceStatusCounter := deviceStatusCounter + 1;
      } else {
        if isBuddyLeader {
          sent := sent + [GetDeviceInfo];
        }
        deviceStatusCounter := 0;
      }
    }

    method ResetToDefaults(defaults: Settings)
      modifies this
      ensures Snapshot() == XtrxPanel.ResetToDefaults(old(Snapshot()), defaults) && inbox == old(inbox)
    {
      settings := defaults;
      SendSettings();
    }

    method SetCenterFrequency(centerFrequency: int64)
      modifies this
      ensures Snapshot() == XtrxPanel.SetCenterFrequency(old(Snapshot()), centerFrequency)
      ensures inbox == old(inbox)
    {
      settings := settings.(centerFrequency := ToUint64(centerFrequency));
      SendSettings();
    }

    /** `deserialize`, with the result of decoding the blob given as `decoded`. */
    method Deserialize(decoded: Option<Settings>, defaults: Settings) returns (ok: bool)
      modifies this
      ensures (ok, Snapshot()) == XtrxPanel.Deserialize(old(Snapshot()), decoded, defaults)
      ensures inbox == old(inbox)
    {
      if decoded.Some? {
        settings := decoded.value;
        forceSettings := true;
        SendSettings();
        ok := true;
      } else {
        ResetToDefaults(defaults);
        ok := false;
      }
    }

    method HandleMessage(m: Msg) returns (handled: bool)
      modifies this
      ensures handled == Handles(m)
      ensures Snapshot() == AfterMessage(old(Snapshot()), m) && inbox == old(inbox)
    {
      match m
      case ReportBuddyChange(rate, log2, centre, rxElseTx) =>
        settings := settings.(devSampleRate := rate, log2HardDecim := log2);
        if rxElseTx {
          settings := settings.(centerFrequency := centre);
        }
        BlockApplySettings(true);
        BlockApplySettings(false);
        handled := true;
      case ReportClockSourceChange(extClock, freq) =>
        settings := settings.(extClockFreq := freq, extClock := extClock);
        BlockApplySettings(true);
        BlockApplySettings(false);
        handled := true;
      case ReportStreamInfo(_, _, _, _, _, _, _, _, _, _) =>
        handled := true;
      case ReportDeviceInfo(_) =>
        handled := true;
      case StartStop(_) =>
        BlockApplySettings(true);
        BlockApplySettings(false);
        handled := true;
      case _ =>
        handled := false;
    }

    /** A message arrives on the panel's input queue. */
    method Deliver(i: Inbound)
      modifies this
      ensures inbox == old(inbox) + [i] && Snapshot() == old(Snapshot())
    {
      inbox := inbox + [i];
    }

    /** `handleInputMessages`: pop and handle messages until the queue is empty. */
    method HandleInputMessages()
      modifies this
      ensures inbox == []
      ensures Snapshot() == AfterInbox(old(Snapshot()), old(inbox))
    {
      while inbox != []
        invariant AfterInbox(Snapshot(), inbox) == AfterInbox(old(Snapshot()), old(inbox))
        decreases |inbox|
      {
        var i := inbox[0];
        inbox := inbox[1..];
        match i
        case DspSignal(rate, centre) =>
          sampleRate := rate;
          deviceCenterFrequency := centre;
        case Device(m) =>
          var _ := HandleMessage(m);
      }
    }

    // The `on_*` slots.

    method OnStartStopToggled(checked: bool)
      modifies this
      ensures Snapshot() == OnEdit(old(Snapshot()), StartStopToggled(checked)) && inbox == old(inbox)
    {
      if doApplySettings {
        sent := sent + [StartStop(checked)];
      }
    }

    method OnRecordToggled(checked: bool)
      modifies this
      ensures Snapshot() == OnEdit(old(Snapshot()), RecordToggled(checked)) && inbox == old(inbox)
    {
      sent := sent + [FileRecord(checked)];
    }

    method OnCenterFrequencyChanged(centerKHz: uint64)
      modifies this
      ensures Snapshot() == OnEdit(old(Snapshot()), CenterFrequencyChanged(centerKHz)) && inbox == old(inbox)
    {
      settings := settings.(centerFrequency := ToUint64(centerKHz * 1000));
      SendSettings();
    }

    method OnNcoFrequencyChanged(dialKHz: uint64)
      modifies this
      ensures Snapshot() == OnEdit(old(Snapshot()), NcoFrequencyChanged(dialKHz)) && inbox == old(inbox)
    {
      var nco := ToInt64(dialKHz) - TruncDiv(ToInt64(settings.centerFrequency), 1000);
      nco := nco * 1000;
      settings := settings.(ncoFrequency := nco);
      SendSettings();
    }

    method OnNcoEnableToggled(checked: bool)
      modifies this
      ensures Snapshot() == OnEdit(old(Snapshot()), NcoEnableToggled(checked)) && inbox == old(inbox)
    {
      settings := settings.(ncoEnable := checked);
      SendSettings();
    }

    method OnNcoResetClicked()
      modifies this
      ensures Snapshot() == OnEdit(old(Snapshot()), NcoResetClicked) && inbox == old(inbox)
    {
      settings := settings.(ncoFrequency := 0);
      SendSettings();
    }

    method OnDcOffsetToggled(checked: bool)
      modifies this
      ensures Snapshot() == OnEdit(old(Snapshot()), DcOffsetToggled(checked)) && inbox == old(inbox)
    {
      settings := settings.(dcBlock := checked);
      SendSettings();
    }

    method OnIqImbalanceToggled(checked: bool)
      modifies this
      ensures Snapshot() == OnEdit(old(Snapshot()), IqImbalanceToggled(checked)) && inbox == old(inbox)
    {
      settings := settings.(iqCorrection := checked);
      SendSettings();
    }

    method OnSampleRateChanged(rate: uint64)
      modifies this
      ensures Snapshot() == OnEdit(old(Snapshot()), SampleRateChanged(rate)) && inbox == old(inbox)
    {
      settings := settings.(devSampleRate := rate);
      SendSettings();
    }

    method OnHwDecimIndexChanged(index: int32)
      modifies this
      ensures Snapshot() == OnEdit(old(Snapshot()), HwDecimIndexChanged(index)) && inbox == old(inbox)
    {
      if index < 0 || index > MAX_LOG2_HARD_DECIM {
        return;
      }
      settings := settings.(log2HardDecim := index);
      SendSettings();
    }

    method OnSwDecimIndexChanged(index: int32)
      modifies this
      ensures Snapshot() == OnEdit(old(Snapshot()), SwDecimIndexChanged(index)) && inbox == old(inbox)
    {
      if index < 0 || index > MAX_LOG2_SOFT_DECIM {
        return;
      }
      settings := settings.(log2SoftDecim := index);
      SendSettings();
    }

    method OnLpfChanged(bandwidthKHz: uint64)
      modifies this
      ensures Snapshot() == OnEdit(old(Snapshot()), LpfChanged(bandwidthKHz)) && inbox == old(inbox)
    {
      settings := settings.(lpfBW := ToUint64(bandwidthKHz * 1000) as real);
      SendSettings();
    }

    method OnLpFirEnableToggled(checked: bool)
      modifies this
      ensures Snapshot() == OnEdit(old(Snapshot()), LpFirEnableToggled(checked)) && inbox == old(inbox)
    {
      settings := settings.(lpfFIREnable := checked);
      SendSettings();
    }

    method OnLpFirChanged(bandwidthKHz: uint64)
      modifies this
      ensures Snapshot() == OnEdit(old(Snapshot()), LpFirChanged(bandwidthKHz)) && inbox == old(inbox)
    {
      settings := settings.(lpfFIRBW := ToUint64(bandwidthKHz * 1000) as real);
      if settings.lpfFIREnable {
        SendSettings();
      }
    }

    method OnGainModeIndexChanged(index: int32)
      modifies this
      ensures Snapshot() == OnEdit(old(Snapshot()), GainModeIndexChanged(index)) && inbox == old(inbox)
    {
      settings := settings.(gainMode := index);
      SendSettings();
    }

    method OnGainChanged(value: int32)
      modifies this
      ensures Snapshot() == OnEdit(old(Snapshot()), GainChanged(value)) && inbox == old(inbox)
    {
      settings := settings.(gain := ToUint32(value));
      SendSettings();
    }

    method OnLnaGainChanged(value: int32)
      modifies this
      ensures Snapshot() == OnEdit(old(Snapshot()), LnaGainChanged(value)) && inbox == old(inbox)
    {
      settings := settings.(lnaGain := ToUint32(value));
      SendSettings();
    }

    method OnTiaGainIndexChanged(index: int32)
      modifies this
      ensures Snapshot() == OnEdit(old(Snapshot()), TiaGainIndexChanged(index)) && inbox == old(inbox)
    {
      settings := settings.(tiaGain := ToUint32(index + 1));
      SendSettings();
    }

    method OnPgaGainChanged(value: int32)
      modifies this
      ensures Snapshot() == OnEdit(old(Snapshot()), PgaGainChanged(value)) && inbox == old(inbox)
    {
      settings := settings.(pgaGain := ToUint32(value));
      SendSettings();
    }

    method OnAntennaIndexChanged(index: int32)
      modifies this
      ensures Snapshot() == OnEdit(old(Snapshot()), AntennaIndexChanged(index)) && inbox == old(inbox)
    {
      settings := settings.(antennaPath := index);
      SendSettings();
    }

    /** `on_extClock_clicked`, with the clock widget's state given as parameters. */
    method OnExtClockClicked(active: bool, frequency: uint32)
      modifies this
      ensures Snapshot() == OnEdit(old(Snapshot()), ExtClockClicked(active, frequency)) && inbox == old(inbox)
    {
      settings := settings.(extClock := active, extClockFreq := frequency);
      SendSettings();
    }

    method OnPwrModeIndexChanged(index: int32)
      modifies this
      ensures Snapshot() == OnEdit(old(Snapshot()), PwrModeIndexChanged(index)) && inbox == old(inbox)
    {
      settings := settings.(pwrmode := ToUint32(index));
      SendSettings();
    }
  }
}
