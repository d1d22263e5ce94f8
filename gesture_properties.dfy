/**
 * What the gesture engine promises, stated about the per-frame function
 * `Step` (which `GestureProcessor.ProcessGestures` implements) and about
 * runs of frames.
 */
module GestureProperties {
  import opened GestureEngine

  // ---------------------------------------------------------------------
  // Pinch
  // ---------------------------------------------------------------------

  /** Comparing squared distances is the same as comparing the Euclidean length with 40 px. */
  lemma PinchIffLengthBelowThreshold(hand: Hand, length: real)
    requires WellFormed(hand)
    requires length >= 0.0
    requires length * length == SquaredDistance(hand[THUMB_TIP], hand[INDEX_TIP]) as real
    ensures GestureProcessor.IsPinching(hand) <==> length < PINCH_DISTANCE as real
  {
    var d := SquaredDistance(hand[THUMB_TIP], hand[INDEX_TIP]);
    assert GestureProcessor.IsPinching(hand) <==> d < 1600;
    if length < 40.0 {
      assert length * length < 1600.0 by { assert length * length <= length * 40.0; }
      assert d < 1600;
    } else {
      assert length * length >= 1600.0 by { assert length * length >= length * 40.0; }
      assert d >= 1600;
    }
  }

  // ---------------------------------------------------------------------
  // The volume level stays a fraction
  // ---------------------------------------------------------------------

  /** One camera frame as the caller hands it over: the hands, the frame width and the clock reading. */
  datatype Frame = Frame(hands: seq<Hand>, width: int, now: real)

  predicate ValidFrames(frames: seq<Frame>)
  {
    forall i :: 0 <= i < |frames| ==> AllWellFormed(frames[i].hands) && frames[i].width > 0
  }

  /** The session after processing `frames` in order. */
  function Run(cfg: Config, s: Session, frames: seq<Frame>): Session
    requires ValidFrames(frames)
    decreases |frames|
  {
    if |frames| == 0 then s
    else Run(cfg, Step(cfg, s, frames[0].hands, frames[0].width, frames[0].now).after, frames[1..])
  }

  lemma {:induction false} RunKeepsVolumeInRange(cfg: Config, s: Session, frames: seq<Frame>)
    requires ValidFrames(frames)
    requires 0.0 <= s.volumeLevel <= 1.0
    ensures 0.0 <= Run(cfg, s, frames).volumeLevel <= 1.0
    decreases |frames|
  {
    if |frames| > 0 {
      var f := frames[0];
      RunKeepsVolumeInRange(cfg, Step(cfg, s, f.hands, f.width, f.now).after, frames[1..]);
    }
  }

  /** Every session reachable from a new processor has its volume level in [0, 1]. */
  lemma ReachableVolumeInRange(cfg: Config, frames: seq<Frame>)
    requires ValidFrames(frames)
    ensures 0.0 <= Run(cfg, InitialSession(), frames).volumeLevel <= 1.0
  {
    RunKeepsVolumeInRange(cfg, InitialSession(), frames);
  }

  // ---------------------------------------------------------------------
  // The mode machine
  // ---------------------------------------------------------------------

  /**
   * In SCROLL, a trigger pattern on any hand switches to VOLUME and restarts
   * the gesture clock, whatever the cooldown and the baseline; nothing else changes.
   */
  lemma TriggerSwitchesToVolume(cfg: Config, s: Session, hands: seq<Hand>, width: int, now: real, k: int)
    requires AllWellFormed(hands) && width > 0
    requires s.state == Scroll
    requires 0 <= k < |hands| && IsVolumeTrigger(hands[k])
    ensures Step(cfg, s, hands, width, now) ==
      StepResult(Session(Volume, s.prevY, now, s.volumeLevel), ModeVol, VolumeActivated)
  {
  }

  /** SCROLL becomes VOLUME, with action MODE_VOL, exactly when some hand shows the trigger pattern. */
  lemma EnterVolumeIffTrigger(cfg: Config, s: Session, hands: seq<Hand>, width: int, now: real)
    requires AllWellFormed(hands) && width > 0
    requires s.state == Scroll
    ensures var r := Step(cfg, s, hands, width, now);
      (r.after.state == Volume <==> exists k :: 0 <= k < |hands| && IsVolumeTrigger(hands[k])) &&
      (r.action == ModeVol <==> r.after.state == Volume)
  {
  }

  /**
   * VOLUME falls back to SCROLL, with action MODE_SCROLL, exactly when the
   * frame has no hands and more than the idle timeout has passed since the
   * last gesture; the fallback changes nothing but the mode.
   */
  lemma LeaveVolumeIffIdle(cfg: Config, s: Session, hands: seq<Hand>, width: int, now: real)
    requires AllWellFormed(hands) && width > 0
    requires s.state == Volume
    ensures var r := Step(cfg, s, hands, width, now);
      (r.after.state == Scroll <==> |hands| == 0 && now - s.lastGestureTime > IDLE_TIMEOUT) &&
      (r.action == ModeScroll <==> r.after.state == Scroll) &&
      (r.after.state == Scroll ==> r.after == s.(state := Scroll) && r.status == ScrollRevert)
  {
  }

  /** Each mode emits only its own actions. */
  lemma ActionsBelongToMode(cfg: Config, s: Session, hands: seq<Hand>, width: int, now: real)
    requires AllWellFormed(hands) && width > 0
    ensures var r := Step(cfg, s, hands, width, now);
      (s.state == Scroll ==> r.action in {NoAction, ModeVol, Next, Previous}) &&
      (s.state == Volume ==> r.action == NoAction || r.action == ModeScroll || r.action.SetVolume?)
  {
  }

  // ---------------------------------------------------------------------
  // The scroll detector
  // ---------------------------------------------------------------------

  predicate NoTrigger(hands: seq<Hand>)
    requires AllWellFormed(hands)
  {
    forall k :: 0 <= k < |hands| ==> !IsVolumeTrigger(hands[k])
  }

  /** In SCROLL, a frame without hands forgets the baseline and changes nothing else. */
  lemma NoHandForgetsBaseline(cfg: Config, s: Session, width: int, now: real)
    requires width > 0
    requires s.state == Scroll
    ensures Step(cfg, s, [], width, now) ==
      StepResult(Session(Scroll, None, s.lastGestureTime, s.volumeLevel), NoAction, NoHand)
  {
  }

  /** Within the cooldown nothing fires and the whole session, baseline included, is left as it was. */
  lemma CooldownFreezesScroll(cfg: Config, s: Session, hands: seq<Hand>, width: int, now: real)
    requires AllWellFormed(hands) && width > 0
    requires s.state == Scroll && |hands| > 0 && NoTrigger(hands)
    requires now - s.lastGestureTime <= cfg.cooldown
    ensures Step(cfg, s, hands, width, now) == StepResult(s, NoAction, CoolingDown)
  {
  }

  /**
   * Outside the cooldown, with a baseline `py`, the primary hand's vertical
   * move `dy` fires NEXT when it goes up by more than the threshold and
   * PREVIOUS when it goes down by more; a move within the threshold fires
   * nothing. The baseline always moves to the new height; only a firing
   * restarts the gesture clock.
   */
  lemma ScrollFiresOnLargeMove(cfg: Config, s: Session, hands: seq<Hand>, width: int, now: real, py: int)
    requires AllWellFormed(hands) && width > 0
    requires s.state == Scroll && |hands| > 0 && NoTrigger(hands)
    requires now - s.lastGestureTime > cfg.cooldown
    requires s.prevY == Some(py)
    ensures var r := Step(cfg, s, hands, width, now);
      var cy := hands[0][HAND_CENTER].y;
      var dy := cy - py;
      (r.action == Next <==> dy < -cfg.threshold) &&
      (r.action == Previous <==> -cfg.threshold <= dy && dy > cfg.threshold) &&
      (r.action == NoAction <==> -cfg.threshold <= dy <= cfg.threshold) &&
      (r.action == Next ==> r.status == ScrollDown) &&
      (r.action == Previous ==> r.status == ScrollUp) &&
      (r.action == NoAction ==> r.status == ModeName(Scroll)) &&
      r.after.prevY == Some(cy) &&
      r.after.lastGestureTime == (if r.action == NoAction then s.lastGestureTime else now) &&
      r.after.state == Scroll && r.after.volumeLevel == s.volumeLevel
  {
  }

  /** Outside the cooldown and without a baseline, the frame only records one. */
  lemma FirstSightRecordsBaseline(cfg: Config, s: Session, hands: seq<Hand>, width: int, now: real)
    requires AllWellFormed(hands) && width > 0
    requires s.state == Scroll && |hands| > 0 && NoTrigger(hands)
    requires now - s.lastGestureTime > cfg.cooldown
    requires s.prevY == None
    ensures Step(cfg, s, hands, width, now) ==
      StepResult(s.(prevY := Some(hands[0][HAND_CENTER].y)), NoAction, ModeName(Scroll))
  {
  }

  /**
   * After a frame without hands in SCROLL, the next frame with a hand fires
   * no scroll, however far the hand is from where it was before the gap.
   */
  lemma GapThenNoScroll(cfg: Config, s: Session, hands: seq<Hand>, width: int, t1: real, t2: real)
    requires AllWellFormed(hands) && width > 0
    requires s.state == Scroll && |hands| > 0 && NoTrigger(hands)
    ensures var r1 := Step(cfg, s, [], width, t1);
      var r2 := Step(cfg, r1.after, hands, width, t2);
      r2.action == NoAction && r2.after.lastGestureTime == s.lastGestureTime
  {
  }

  // ---------------------------------------------------------------------
  // The volume controller
  // ---------------------------------------------------------------------

  /**
   * In VOLUME, SET_VOLUME is emitted exactly for two hands that both pinch.
   * It then carries the new level: the old level smoothed toward the slider
   * position of the hands' midpoint. Only the level changes; in particular
   * the gesture clock is not refreshed by such a frame.
   */
  lemma SetVolumeIffTwoPinches(cfg: Config, s: Session, hands: seq<Hand>, width: int, now: real)
    requires AllWellFormed(hands) && width > 0
    requires s.state == Volume
    ensures var r := Step(cfg, s, hands, width, now);
      (r.action.SetVolume? <==>
        |hands| == 2 && GestureProcessor.IsPinching(hands[0]) && GestureProcessor.IsPinching(hands[1])) &&
      (r.action.SetVolume? ==>
        r.action.level == Smoothed(s.volumeLevel, SliderPosition(hands[0][HAND_CENTER].x, hands[1][HAND_CENTER].x, width)) &&
        r.after == s.(volumeLevel := r.action.level) &&
        r.status == VolumePercent(Percent(r.action.level)))
  {
  }

  /** Hands present in VOLUME without a volume change keep the mode alive by restarting the clock. */
  lemma HandsKeepVolumeAlive(cfg: Config, s: Session, hands: seq<Hand>, width: int, now: real)
    requires AllWellFormed(hands) && width > 0
    requires s.state == Volume && |hands| > 0
    requires !(|hands| == 2 && GestureProcessor.IsPinching(hands[0]) && GestureProcessor.IsPinching(hands[1]))
    ensures Step(cfg, s, hands, width, now) == StepResult(s.(lastGestureTime := now), NoAction, PinchTwoHands)
  {
  }

  /** The new volume level lies between the old level and the slider position. */
  lemma SetVolumeMovesTowardHands(cfg: Config, s: Session, hands: seq<Hand>, width: int, now: real)
    requires AllWellFormed(hands) && width > 0
    requires s.state == Volume
    requires |hands| == 2 && GestureProcessor.IsPinching(hands[0]) && GestureProcessor.IsPinching(hands[1])
    ensures var raw := SliderPosition(hands[0][HAND_CENTER].x, hands[1][HAND_CENTER].x, width);
      var level := Step(cfg, s, hands, width, now).after.volumeLevel;
      (s.volumeLevel <= raw ==> s.volumeLevel <= level <= raw) &&
      (raw <= s.volumeLevel ==> raw <= level <= s.volumeLevel)
  {
  }

  // ---------------------------------------------------------------------
  // Scenarios
  // ---------------------------------------------------------------------

  /** A hand whose 21 landmarks all sit at one point: every finger is down and it pinches. */
  function FlatHand(x: int, y: int): (hand: Hand)
    ensures WellFormed(hand) && !IsVolumeTrigger(hand) && GestureProcessor.IsPinching(hand)
    ensures hand[HAND_CENTER] == Landmark(HAND_CENTER, x, y)
  {
    seq(21, i => Landmark(i, x, y))
  }

  /** A hand at height `y` whose index, middle and ring tips are raised 50 px above their joints. */
  function TriggerHand(x: int, y: int): (hand: Hand)
    ensures WellFormed(hand) && IsVolumeTrigger(hand)
    ensures hand[HAND_CENTER] == Landmark(HAND_CENTER, x, y)
  {
    seq(21, i => if i == 8 || i == 12 || i == 16 then Landmark(i, x, y - 50) else Landmark(i, x, y))
  }

  const DEFAULTS: Config := Config(30, 1.0)

  /** Primary-hand heights 300, 300, 260: the third frame scrolls to the next page. */
  lemma ScrollScenario()
    ensures var r1 := Step(DEFAULTS, InitialSession(), [FlatHand(320, 300)], 640, 10.0);
      var r2 := Step(DEFAULTS, r1.after, [FlatHand(320, 300)], 640, 10.5);
      var r3 := Step(DEFAULTS, r2.after, [FlatHand(320, 260)], 640, 12.0);
      r1.action == NoAction && r2.action == NoAction && r3.action == Next &&
      r3.after == Session(Scroll, Some(260), 12.0, 0.5)
  {
  }

  /** Repeating the move within the cooldown fires nothing and keeps the baseline. */
  lemma CooldownScenario()
    ensures var s := Session(Scroll, Some(260), 12.0, 0.5);
      Step(DEFAULTS, s, [FlatHand(320, 220)], 640, 12.5) == StepResult(s, NoAction, CoolingDown)
  {
  }

  /** Hands at x = 200 and 600 in an 800 px frame sit mid-slider, so a level of 0.5 stays 0.5. */
  lemma VolumeScenario()
    ensures SliderPosition(200, 600, 800) == 0.5
    ensures var s := Session(Volume, None, 0.0, 0.5);
      Step(DEFAULTS, s, [FlatHand(200, 100), FlatHand(600, 100)], 800, 1.0) ==
        StepResult(s, SetVolume(0.5), VolumePercent(50))
  {
  }

  /** More than 2 s without hands reverts to SCROLL; a hand seen in between prevents it. */
  lemma IdleScenario()
    ensures var s := Session(Volume, None, 10.0, 0.5);
      Step(DEFAULTS, s, [], 640, 12.5).action == ModeScroll
    ensures var s := Session(Volume, None, 10.0, 0.5);
      var r1 := Step(DEFAULTS, s, [FlatHand(320, 300)], 640, 11.0);
      var r2 := Step(DEFAULTS, r1.after, [], 640, 12.5);
      r2.action == NoAction && r2.after.state == Volume
  {
  }

  /**
   * Frames that set the volume do not refresh the gesture clock, so after
   * pinching for more than 2 s the first frame without hands reverts at once.
   */
  lemma LongPinchThenRevert()
    ensures var s := Session(Volume, None, 0.0, 0.5);
      var r1 := Step(DEFAULTS, s, [FlatHand(200, 100), FlatHand(600, 100)], 800, 3.0);
      var r2 := Step(DEFAULTS, r1.after, [], 800, 3.1);
      r1.action.SetVolume? && r1.after.lastGestureTime == 0.0 && r2.action == ModeScroll
  {
  }

  /**
   * The fallback to SCROLL keeps the baseline recorded before VOLUME mode,
   * although the fallback frame had no hand: the next frame with a hand is
   * measured against that old height and scrolls at once. The frames run
   * from a new processor with an increasing clock.
   */
  lemma BaselineSurvivesVolumeMode()
    ensures var r1 := Step(DEFAULTS, InitialSession(), [FlatHand(320, 300)], 640, 2.0);
      var r2 := Step(DEFAULTS, r1.after, [TriggerHand(320, 300)], 640, 3.0);
      var r3 := Step(DEFAULTS, r2.after, [], 640, 5.5);
      var r4 := Step(DEFAULTS, r3.after, [FlatHand(320, 200)], 640, 5.6);
      r1.after.prevY == Some(300) && r2.action == ModeVol &&
      r3.action == ModeScroll && r3.after.prevY == Some(300) && r4.action == Next
  {
  }
}
