/**
 * The patient's call screen (`app/video-call.jsx`): a call timer, a mute
 * toggle, and the rating dialog that ending the call opens, with five stars
 * to submit a rating and a button to skip it.
 *
 * The screen's React state is the class `PatientCallScreen`; each handler is
 * a method that makes the state update the handler requests. The one-second
 * interval is the method `Tick`, called once per elapsed second.
 */
module VideoCall {
  import opened Js
  import opened Duration
  import DurationFacts

  /** Which of the five star icons are drawn filled: star `k` (for `k` from
      1 to 5) is filled when `selectedRating >= k`. */
  function StarIcons(selectedRating: int): (r: seq<bool>)
    ensures |r| == 5
    ensures forall i, j :: 0 <= i <= j < 5 && r[j] ==> r[i]
    ensures selectedRating >= 5 ==> forall k :: 0 <= k < 5 ==> r[k]
    ensures selectedRating <= 0 ==> forall k :: 0 <= k < 5 ==> !r[k]
  {
    seq(5, k => selectedRating >= k + 1)
  }

  /** Number of filled stars. */
  function FilledCount(stars: seq<bool>): nat
  {
    if stars == [] then 0 else (if stars[0] then 1 else 0) + FilledCount(stars[1..])
  }

  /** `n` limited to the range 0 to `hi`. */
  function Clamp(n: int, hi: nat): (r: nat)
    ensures r <= hi
  {
    if n < 0 then 0 else if n > hi then hi else n
  }

  /** A row of stars filled exactly up to position `n` holds `n` filled
      stars, limited to the row's length. */
  lemma {:induction false} PrefixCount(stars: seq<bool>, n: int)
    requires forall k :: 0 <= k < |stars| ==> (stars[k] <==> k < n)
    ensures FilledCount(stars) == Clamp(n, |stars|)
    decreases stars
  {
    if stars != [] {
      PrefixCount(stars[1..], n - 1);
    }
  }

  /** The star rule: the star at index `k`, which the source numbers `k + 1`,
      is filled exactly when the selected rating is at least `k + 1`; so the
      filled stars come first and there are as many as the rating, limited
      to 0..5. */
  lemma StarsFilled(selectedRating: int)
    ensures var stars := StarIcons(selectedRating);
      |stars| == 5
      && (forall k :: 0 <= k < 5 ==> (stars[k] <==> selectedRating >= k + 1))
      && (forall i, j :: 0 <= i <= j < 5 && stars[j] ==> stars[i])
      && FilledCount(stars) == Clamp(selectedRating, 5)
  {
    PrefixCount(StarIcons(selectedRating), selectedRating);
  }

  /** Each of the five star buttons submits its own position, after which
      exactly that many stars are drawn filled. */
  lemma SubmittedStars(star: int)
    requires 1 <= star <= 5
    ensures FilledCount(StarIcons(star)) == star
    ensures forall k :: 0 <= k < 5 ==> (StarIcons(star)[k] <==> k < star)
  {
    StarsFilled(star);
  }

  class PatientCallScreen {
    var callDuration: nat
    var isMuted: bool
    var showRatingModal: bool
    var selectedRating: int

    /** The initial state of the four `useState` hooks. */
    constructor ()
      ensures callDuration == 0 && !isMuted && !showRatingModal && selectedRating == 0
    {
      callDuration, isMuted, showRatingModal, selectedRating := 0, false, false, 0;
    }

    /** One firing of the one-second interval: `prev => prev + 1`. */
    method Tick()
      modifies this
      ensures callDuration == old(callDuration) + 1
      ensures isMuted == old(isMuted) && showRatingModal == old(showRatingModal) && selectedRating == old(selectedRating)
    {
      callDuration := callDuration + 1;
    }

    /** `handleMute`: flips the microphone state and nothing else, so two
        presses restore it. */
    method HandleMute()
      modifies this
      ensures isMuted == !old(isMuted)
      ensures callDuration == old(callDuration) && showRatingModal == old(showRatingModal) && selectedRating == old(selectedRating)
    {
      isMuted := !isMuted;
    }

    /** `handleEndCall`: opens the rating dialog; the call is not otherwise
        ended and the timer keeps running. */
    method HandleEndCall()
      modifies this
      ensures showRatingModal
      ensures callDuration == old(callDuration) && isMuted == old(isMuted) && selectedRating == old(selectedRating)
    {
      showRatingModal := true;
    }

    /** `handleRatingSubmit(rating)`: records the rating and closes the
        dialog. */
    method HandleRatingSubmit(rating: int)
      modifies this
      ensures selectedRating == rating && !showRatingModal
      ensures callDuration == old(callDuration) && isMuted == old(isMuted)
    {
      selectedRating := rating;
      showRatingModal := false;
    }

    /** `handleSkipRating`: closes the dialog and keeps whatever rating was
        selected before. */
    method HandleSkipRating()
      modifies this
      ensures !showRatingModal
      ensures callDuration == old(callDuration) && isMuted == old(isMuted) && selectedRating == old(selectedRating)
    {
      showRatingModal := false;
    }

    /** The dialog's `onRequestClose` (the system back action): the same state
        change as skipping, without leaving the screen. */
    method HandleRequestClose()
      modifies this
      ensures !showRatingModal
      ensures callDuration == old(callDuration) && isMuted == old(isMuted) && selectedRating == old(selectedRating)
    {
      showRatingModal := false;
    }

    /** The timer text, `formatDuration(callDuration)`: it always reads back as
        the elapsed seconds. */
    function DurationText(): (t: string)
      reads this
      ensures ParseDuration(t) == Some(callDuration)
    {
      DurationFacts.FormatParseRoundTrip(callDuration);
      FormatDuration(callDuration)
    }

    /** The star row of the rating dialog: as many filled stars as the
        selected rating, limited to 0..5. */
    function Stars(): (stars: seq<bool>)
      reads this
      ensures |stars| == 5 && FilledCount(stars) == Clamp(selectedRating, 5)
    {
      StarsFilled(selectedRating);
      StarIcons(selectedRating)
    }
  }

  /** Ending the call and pressing star `star`: the dialog opens, then
      closes with exactly `star` stars filled; the timer and the microphone
      are untouched. */
  method EndCallAndRate(screen: PatientCallScreen, star: int)
    requires 1 <= star <= 5
    modifies screen
    ensures !screen.showRatingModal && screen.selectedRating == star
    ensures FilledCount(screen.Stars()) == star
    ensures screen.callDuration == old(screen.callDuration) && screen.isMuted == old(screen.isMuted)
  {
    screen.HandleEndCall();
    assert screen.showRatingModal;
    screen.HandleRatingSubmit(star);
    SubmittedStars(star);
  }

  /** Ending the call and skipping: the dialog opens and closes again, and
      the screen is back in the state it was in. */
  method EndCallAndSkip(screen: PatientCallScreen)
    requires !screen.showRatingModal
    modifies screen
    ensures screen.showRatingModal == old(screen.showRatingModal) && screen.selectedRating == old(screen.selectedRating)
    ensures screen.callDuration == old(screen.callDuration) && screen.isMuted == old(screen.isMuted)
  {
    screen.HandleEndCall();
    screen.HandleSkipRating();
  }

  /** Muting twice restores the microphone and touches nothing else. */
  method MuteTwice(screen: PatientCallScreen)
    modifies screen
    ensures screen.isMuted == old(screen.isMuted) && screen.showRatingModal == old(screen.showRatingModal)
    ensures screen.callDuration == old(screen.callDuration) && screen.selectedRating == old(screen.selectedRating)
  {
    screen.HandleMute();
    screen.HandleMute();
  }
}
