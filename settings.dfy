/**
 * The per-channel settings record of the XTRX input plugin, used here as the
 * value the settings panel mirrors and sends in configure messages.
 * Floating-point bandwidths are exact reals; enumerations that the panel sets
 * by casting a combo-box index keep the raw index.
 */
module XtrxInputSettings {
  import opened Base

  datatype Settings = Settings(
    centerFrequency: uint64,   // Hz
    devSampleRate: int,        // device-to-host sample rate (S/s), integral in this model
    log2HardDecim: uint32,     // log2 of the hardware decimation
    dcBlock: bool,
    iqCorrection: bool,
    log2SoftDecim: uint32,     // log2 of the host-side decimation
    lpfBW: real,               // analog low-pass bandwidth (Hz)
    lpfFIREnable: bool,        // digital low-pass FIR enabled
    lpfFIRBW: real,            // digital low-pass FIR bandwidth (Hz)
    gain: uint32,              // automatically distributed gain (dB)
    ncoEnable: bool,
    ncoFrequency: int,         // NCO offset relative to the centre frequency (Hz)
    antennaPath: int,          // `xtrx_antenna_t` value
    gainMode: int,             // `GainMode` as the raw combo-box index: 0 automatic, 1 manual
    lnaGain: uint32,
    tiaGain: uint32,
    pgaGain: uint32,
    extClock: bool,            // external clock source in use
    extClockFreq: uint32,      // external clock frequency (Hz)
    pwrmode: uint32)
}
