/**
 * The object that the two buddy instances of one physical XTRX device share,
 * and the capability set through which the shared state reaches whichever
 * streaming thread is running. Only the declarations and the constructor
 * defaults are modelled: the code that later mutates these fields (device
 * open/close, channel acquisition, suspend/resume, applying settings) is not
 * part of this model.
 */
module DeviceXtrxShared {
  import opened Base

  /** `xtrx_channel_t`: the logical channel(s) of the device in use. */
  datatype Channel = ChannelA | ChannelB | ChannelAB

  /** Opaque hardware device parameters (`DeviceXTRXParams`). */
  class DeviceParams {
  }

  /**
   * The four operations of `ThreadInterface`, the abstract streaming thread.
   * The state is what the operations themselves name: whether the thread is
   * running, and the device sample rate last pushed to it.
   */
  class ThreadInterface {
    var running: bool
    var deviceSampleRate: int32

    method StartWork()
      modifies this
      ensures running && deviceSampleRate == old(deviceSampleRate)
    {
      running := true;
    }

    method StopWork()
      modifies this
      ensures !running && deviceSampleRate == old(deviceSampleRate)
    {
      running := false;
    }

    method SetDeviceSampleRate(sampleRate: int32)
      modifies this
      ensures deviceSampleRate == sampleRate && running == old(running)
    {
      deviceSampleRate := sampleRate;
    }

    method IsRunning() returns (r: bool)
      ensures r == running
    {
      r := running;
    }
  }

  /** `DeviceXTRXShared`: the state one buddy shares with the other. */
  class SharedState {
    var deviceParams: DeviceParams?   // unique hardware device parameters
    var channel: Channel              // logical device channel
    var thread: ThreadInterface?      // the running thread, null when none is started
    var ncoFrequency: int32
    var centerFrequency: real
    var log2Soft: uint32
    var threadWasRunning: bool        // whether the thread must be resumed after a suspend
    var inputRate: real
    var outputRate: real
    var masterRate: real

    /** A fresh shared state: no device, both channels, no thread, every rate and offset zero. */
    constructor ()
      ensures deviceParams == null && channel == ChannelAB
      ensures thread == null && !threadWasRunning
      ensures ncoFrequency == 0 && centerFrequency == 0.0 && log2Soft == 0
      ensures inputRate == 0.0 && outputRate == 0.0 && masterRate == 0.0
    {
      deviceParams := null;
      channel := ChannelAB;
      thread := null;
      ncoFrequency := 0;
      centerFrequency := 0.0;
      log2Soft := 0;
      threadWasRunning := false;
      inputRate := 0.0;
      outputRate := 0.0;
      masterRate := 0.0;
    }
  }
}
