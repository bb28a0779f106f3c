/**
 * The doctor's call screen (`app/video-call-doctor.jsx`): the same call
 * timer and duration text as the patient's screen, a mute toggle and a
 * camera toggle. Its state is the class `DoctorCallScreen`.
 */
module VideoCallDoctor {
  import opened Js
  import opened Duration
  import DurationFacts

  class DoctorCallScreen {
    var callDuration: nat
    var isMuted: bool
    var isVideoOff: bool

    /** The initial state of the three `useState` hooks. */
    constructor ()
      ensures callDuration == 0 && !isMuted && !isVideoOff
    {
      callDuration, isMuted, isVideoOff := 0, false, false;
    }

    /** One firing of the one-second interval: `prev => prev + 1`. */
    method Tick()
      modifies this
      ensures callDuration == old(callDuration) + 1
      ensures isMuted == old(isMuted) && isVideoOff == old(isVideoOff)
    {
      callDuration := callDuration + 1;
    }

    /** `handleMute`: flips the microphone and leaves the camera alone. */
    method HandleMute()
      modifies this
      ensures isMuted == !old(isMuted)
      ensures callDuration == old(callDuration) && isVideoOff == old(isVideoOff)
    {
      isMuted := !isMuted;
    }

    /** `handleVideoToggle`: flips the camera and leaves the microphone
        alone. */
    method HandleVideoToggle()
      modifies this
      ensures isVideoOff == !old(isVideoOff)
      ensures callDuration == old(callDuration) && isMuted == old(isMuted)
    {
      isVideoOff := !isVideoOff;
    }

    /** The timer text, `formatDuration(callDuration)`, below 100 minutes the
        five characters `MM:SS`; it always reads back as the elapsed
        seconds. */
    function DurationText(): (t: string)
      reads this
      ensures ParseDuration(t) == Some(callDuration)
      ensures callDuration < 6000 ==> |t| == 5 && t[2] == ':'
    {
      DurationFacts.FormatParseRoundTrip(callDuration);
      if callDuration < 6000 then DurationFacts.FormatUnderHundredMinutes(callDuration); FormatDuration(callDuration)
      else FormatDuration(callDuration)
    }
  }

  /** The toggles are involutions that do not interfere: pressing mute and
      the camera button twice each, interleaved, restores the screen. */
  method TogglesTwice(screen: DoctorCallScreen)
    modifies screen
    ensures screen.isMuted == old(screen.isMuted) && screen.isVideoOff == old(screen.isVideoOff)
    ensures screen.callDuration == old(screen.callDuration)
  {
    screen.HandleMute();
    screen.HandleVideoToggle();
    assert screen.isMuted != old(screen.isMuted) && screen.isVideoOff != old(screen.isVideoOff);
    screen.HandleMute();
    screen.HandleVideoToggle();
  }
}
