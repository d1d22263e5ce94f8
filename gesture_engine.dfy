/**
 * The gesture recognition state machine of the hand-gesture scroller.
 *
 * A `GestureProcessor` is fed one camera frame at a time: the hands the
 * landmark detector found (each a list of `[id, x, y]` pixel landmarks) and
 * the frame's width. It answers with at most one action and a status, and
 * keeps between frames its mode (SCROLL or VOLUME), the baseline height of
 * the primary hand, the time of the last gesture and a smoothed volume level.
 *
 * The clock is an input (`now`), reals stand for the program's floats, and
 * the per-frame behaviour is specified by the pure function `Step`, which
 * `GestureProcessor.ProcessGestures` is proved to implement.
 */
module GestureEngine {

  datatype Option<T> = None | Some(value: T)

  /** One landmark `[id, x, y]`: pixel coordinates, origin top-left, y grows downward. */
  datatype Landmark = Landmark(id: int, x: int, y: int)

  /** The landmarks of one hand, read by their position in the list (not by `id`). */
  type Hand = seq<Landmark>

  /** The detector delivers all 21 landmarks of a hand; the engine reads positions up to 20. */
  predicate WellFormed(hand: Hand)
  {
    |hand| >= 21
  }

  predicate AllWellFormed(hands: seq<Hand>)
  {
    forall k :: 0 <= k < |hands| ==> WellFormed(hands[k])
  }

  datatype Mode = Scroll | Volume

  /** The action of one frame; `NoAction` is the program's `None`. */
  datatype Action = NoAction | ModeVol | ModeScroll | Next | Previous | SetVolume(level: real)

  /** The status text of one frame, one case per message the engine can show. */
  datatype Status =
    | ModeName(mode: Mode)        // "MODE: <state>"
    | VolumeActivated             // "MODE: VOLUME ACTIVE"
    | ScrollDown                  // "SCROLL DOWN (NEXT)"
    | ScrollUp                    // "SCROLL UP (PREV)"
    | CoolingDown                 // "COOLDOWN..."
    | NoHand                      // "NO HAND"
    | PinchTwoHands               // "MODE: VOLUME (PINCH 2 HANDS)"
    | VolumePercent(percent: int) // "VOL: <percent>%"
    | ScrollRevert                // "MODE: SCROLL REVERT"

  /** Tip and proximal joint positions of the index, middle, ring and pinky fingers. */
  const TIPS: seq<nat> := [8, 12, 16, 20]
  const JOINTS: seq<nat> := [6, 10, 14, 18]

  const THUMB_TIP: nat := 4
  const INDEX_TIP: nat := 8
  /** Landmark 9, the middle finger's base, stands for the position of the whole hand. */
  const HAND_CENTER: nat := 9

  /** A pinch is a thumb-to-index distance below this many pixels. */
  const PINCH_DISTANCE: int := 40
  /** Seconds without hands after which VOLUME mode falls back to SCROLL. */
  const IDLE_TIMEOUT: real := 2.0
  /** Fraction of the frame width left out of the volume slider on each side. */
  const MARGIN_FRACTION: real := 0.2
  /** Weight of the previous level in the exponential smoothing of the volume. */
  const KEEP_WEIGHT: real := 0.8

  // ---------------------------------------------------------------------
  // Finger states and the mode trigger
  // ---------------------------------------------------------------------

  /** Finger `finger` (0 index, 1 middle, 2 ring, 3 pinky) is up: its tip is higher on screen than its joint. */
  predicate FingerIsUp(hand: Hand, finger: nat)
    requires WellFormed(hand) && finger < 4
  {
    hand[TIPS[finger]].y < hand[JOINTS[finger]].y
  }

  /** The pattern that switches to VOLUME mode: index, middle and ring up, pinky down. */
  predicate IsVolumeTrigger(hand: Hand)
    requires WellFormed(hand)
  {
    FingerIsUp(hand, 0) && FingerIsUp(hand, 1) && FingerIsUp(hand, 2) && !FingerIsUp(hand, 3)
  }

  /** Whether the scan over the frame's hands finds a trigger pattern on some hand. */
  function AnyTrigger(hands: seq<Hand>): (found: bool)
    requires AllWellFormed(hands)
    ensures found <==> exists k :: 0 <= k < |hands| && IsVolumeTrigger(hands[k])
  {
    if |hands| == 0 then false
    else if IsVolumeTrigger(hands[0]) then true
    else
      var rest := AnyTrigger(hands[1..]);
      assert forall k :: 1 <= k < |hands| ==> hands[k] == hands[1..][k - 1];
      rest
  }

  // ---------------------------------------------------------------------
  // Pinch
  // ---------------------------------------------------------------------

  function SquaredDistance(a: Landmark, b: Landmark): int
  {
    (b.x - a.x) * (b.x - a.x) + (b.y - a.y) * (b.y - a.y)
  }

  /** For `b >= 0`: `a * a` is non-negative, and below `b * b` exactly when `a` lies strictly between `-b` and `b`. */
  lemma SquareBounds(a: int, b: int)
    requires b >= 0
    ensures a * a >= 0
    ensures a * a < b * b <==> -b < a < b
  {
  }

  // ---------------------------------------------------------------------
  // Volume slider
  // ---------------------------------------------------------------------

  function Margin(width: int): real
  {
    width as real * MARGIN_FRACTION
  }

  function ActiveWidth(width: int): real
  {
    width as real - 2.0 * Margin(width)
  }

  /** The horizontal midpoint of two hand centres (true division). */
  function Midpoint(x1: int, x2: int): real
  {
    (x1 + x2) as real / 2.0
  }

  /**
   * Position of a midpoint inside the active zone of a frame, as a fraction:
   * 0 at or left of the zone, 1 at or right of it, linear in between.
   */
  function SliderPosition(x1: int, x2: int, width: int): (raw: real)
    requires width > 0
    ensures 0.0 <= raw <= 1.0
    ensures Midpoint(x1, x2) <= Margin(width) ==> raw == 0.0
    ensures Midpoint(x1, x2) >= width as real - Margin(width) ==> raw == 1.0
    ensures Margin(width) < Midpoint(x1, x2) < width as real - Margin(width) ==>
      raw * ActiveWidth(width) == Midpoint(x1, x2) - Margin(width)
  {
    var rel := Midpoint(x1, x2) - Margin(width);
    var q := rel / ActiveWidth(width);
    QuotientBounds(rel, ActiveWidth(width));
    if q < 0.0 then 0.0 else if q > 1.0 then 1.0 else q
  }

  /** Where `rel / aw` lies, for a positive divisor, in terms of `rel`. */
  lemma QuotientBounds(rel: real, aw: real)
    requires aw > 0.0
    ensures (rel / aw) * aw == rel
    ensures rel <= 0.0 ==> rel / aw <= 0.0
    ensures rel >= aw ==> rel / aw >= 1.0
    ensures 0.0 < rel < aw ==> 0.0 < rel / aw < 1.0
  {
    var q := rel / aw;
    if rel <= 0.0 && q > 0.0 { PositiveProduct(q, aw); }
    if rel >= aw && q < 1.0 { PositiveProduct(1.0 - q, aw); }
    if 0.0 < rel && q <= 0.0 { NonPositiveProduct(q, aw); }
    if rel < aw && q >= 1.0 { NonPositiveProduct(1.0 - q, aw); }
  }

  lemma PositiveProduct(a: real, b: real)
    requires a > 0.0 && b > 0.0
    ensures a * b > 0.0
  {
  }

  lemma NonPositiveProduct(a: real, b: real)
    requires a <= 0.0 && b > 0.0
    ensures a * b <= 0.0
  {
  }

  /** One step of exponential smoothing of the volume toward `target`. */
  function Smoothed(level: real, target: real): (next: real)
    ensures next - target == KEEP_WEIGHT * (level - target)
    ensures level <= target ==> level <= next <= target
    ensures target <= level ==> target <= next <= level
  {
    level * KEEP_WEIGHT + target * (1.0 - KEEP_WEIGHT)
  }

  /** `int(level * 100)`: the percentage, truncated toward zero. */
  function Percent(level: real): (p: int)
    ensures 0.0 <= level ==> p as real <= level * 100.0 < p as real + 1.0
    ensures 0.0 <= level <= 1.0 ==> 0 <= p <= 100
  {
    var scaled := level * 100.0;
    if scaled >= 0.0 then scaled.Floor else -((-scaled).Floor)
  }

  // ---------------------------------------------------------------------
  // The per-frame specification
  // ---------------------------------------------------------------------

  /** The constructor's settings: movement threshold in pixels and scroll cooldown in seconds. */
  datatype Config = Config(threshold: int, cooldown: real)

  /** The state a processor carries from one frame to the next. */
  datatype Session = Session(state: Mode, prevY: Option<int>, lastGestureTime: real, volumeLevel: real)

  /** What one frame does: the new session, the action and the status. */
  datatype StepResult = StepResult(after: Session, action: Action, status: Status)

  /** The session of a freshly constructed processor. */
  function InitialSession(): Session
  {
    Session(Scroll, None, 0.0, 0.5)
  }

  /**
   * Scroll detection on the primary hand, whose centre is at height `cy`.
   * It scrolls at most one page and never changes the mode or the volume;
   * outside the cooldown the baseline moves to `cy`, within it nothing moves,
   * and only a scroll restarts the gesture clock.
   */
  function ScrollStep(cfg: Config, s: Session, cy: int, now: real): (r: StepResult)
    ensures r.after.state == s.state && r.after.volumeLevel == s.volumeLevel
    ensures r.action in {NoAction, Next, Previous}
    ensures r.after.prevY == if now - s.lastGestureTime > cfg.cooldown then Some(cy) else s.prevY
    ensures r.action == NoAction ==> r.after.lastGestureTime == s.lastGestureTime
    ensures r.action != NoAction ==> now - s.lastGestureTime > cfg.cooldown && r.after.lastGestureTime == now
  {
    if now - s.lastGestureTime > cfg.cooldown then
      match s.prevY
      case Some(py) =>
        if cy - py < -cfg.threshold then
          StepResult(s.(lastGestureTime := now, prevY := Some(cy)), Next, ScrollDown)
        else if cy - py > cfg.threshold then
          StepResult(s.(lastGestureTime := now, prevY := Some(cy)), Previous, ScrollUp)
        else
          StepResult(s.(prevY := Some(cy)), NoAction, ModeName(s.state))
      case None =>
        StepResult(s.(prevY := Some(cy)), NoAction, ModeName(s.state))
    else
      StepResult(s, NoAction, CoolingDown)
  }

  /**
   * The volume controller. It never touches the baseline; it leaves VOLUME
   * only with `MODE_SCROLL`; it changes the level only with `SET_VOLUME`,
   * which carries the new level and leaves the gesture clock alone.
   */
  function VolumeStep(s: Session, hands: seq<Hand>, width: int, now: real): (r: StepResult)
    requires AllWellFormed(hands) && width > 0
    ensures r.after.prevY == s.prevY
    ensures r.action == NoAction || r.action == ModeScroll || r.action.SetVolume?
    ensures r.after.state == if r.action == ModeScroll then Scroll else s.state
    ensures r.action.SetVolume? ==> r.action.level == r.after.volumeLevel && r.after.lastGestureTime == s.lastGestureTime
    ensures !r.action.SetVolume? ==> r.after.volumeLevel == s.volumeLevel
    ensures 0.0 <= s.volumeLevel <= 1.0 ==> 0.0 <= r.after.volumeLevel <= 1.0
  {
    if |hands| == 2 && GestureProcessor.IsPinching(hands[0]) && GestureProcessor.IsPinching(hands[1]) then
      var raw := SliderPosition(hands[0][HAND_CENTER].x, hands[1][HAND_CENTER].x, width);
      var level := Smoothed(s.volumeLevel, raw);
      StepResult(s.(volumeLevel := level), SetVolume(level), VolumePercent(Percent(level)))
    else if |hands| == 0 then
      if now - s.lastGestureTime > IDLE_TIMEOUT then
        StepResult(s.(state := Scroll), ModeScroll, ScrollRevert)
      else
        StepResult(s, NoAction, PinchTwoHands)
    else
      StepResult(s.(lastGestureTime := now), NoAction, PinchTwoHands)
  }

  /**
   * One frame: the mode trigger first, then the detector of the current mode.
   * The mode changes exactly when a mode action is emitted, the level changes
   * only with `SET_VOLUME`, and a level in [0, 1] stays in [0, 1].
   */
  function Step(cfg: Config, s: Session, hands: seq<Hand>, width: int, now: real): (r: StepResult)
    requires AllWellFormed(hands) && width > 0
    ensures r.after.state != s.state <==> r.action == ModeVol || r.action == ModeScroll
    ensures r.action == ModeVol ==> s.state == Scroll && r.after.state == Volume
    ensures r.action == ModeScroll ==> s.state == Volume && r.after.state == Scroll
    ensures r.after.volumeLevel != s.volumeLevel ==> r.action.SetVolume?
    ensures r.action.SetVolume? ==> r.action.level == r.after.volumeLevel
    ensures 0.0 <= s.volumeLevel <= 1.0 ==> 0.0 <= r.after.volumeLevel <= 1.0
  {
    match s.state
    case Scroll =>
      if AnyTrigger(hands) then
        StepResult(s.(state := Volume, lastGestureTime := now), ModeVol, VolumeActivated)
      else if |hands| == 0 then
        StepResult(s.(prevY := None), NoAction, NoHand)
      else
        ScrollStep(cfg, s, hands[0][HAND_CENTER].y, now)
    case Volume =>
      VolumeStep(s, hands, width, now)
  }

  // ---------------------------------------------------------------------
  // The processor object
  // ---------------------------------------------------------------------

  class GestureProcessor {
    const threshold: int
    const cooldown: real
    var lastGestureTime: real
    var prevY: Option<int>
    var state: Mode
    var volumeLevel: real
    /** Set at construction and never read. */
    var lastVolChangeTime: real

    /** The volume level is a fraction. */
    ghost predicate Valid()
      reads this
    {
      0.0 <= volumeLevel <= 1.0
    }

    function Settings(): Config
    {
      Config(threshold, cooldown)
    }

    function Snapshot(): Session
      reads this
    {
      Session(state, prevY, lastGestureTime, volumeLevel)
    }

    constructor (threshold: int := 30, cooldown: real := 1.0)
      ensures Valid()
      ensures Settings() == Config(threshold, cooldown)
      ensures Snapshot() == InitialSession()
      ensures lastVolChangeTime == 0.0
    {
      this.threshold := threshold;
      this.cooldown := cooldown;
      lastGestureTime := 0.0;
      prevY := None;
      state := Scroll;
      volumeLevel := 0.5;
      lastVolChangeTime := 0.0;
    }

    /** The up/down flags `[index, middle, ring, pinky]` of one hand, 1 for up. */
    static method FingersUp(hand: Hand) returns (fingers: seq<int>)
      requires WellFormed(hand)
      ensures |fingers| == 4
      ensures forall i :: 0 <= i < 4 ==> fingers[i] in {0, 1} && (fingers[i] == 1 <==> FingerIsUp(hand, i))
      ensures fingers == [1, 1, 1, 0] <==> IsVolumeTrigger(hand)
    {
      fingers := [];
      if hand[8].y < hand[6].y { fingers := fingers + [1]; } else { fingers := fingers + [0]; }
      if hand[12].y < hand[10].y { fingers := fingers + [1]; } else { fingers := fingers + [0]; }
      if hand[16].y < hand[14].y { fingers := fingers + [1]; } else { fingers := fingers + [0]; }
      if hand[20].y < hand[18].y { fingers := fingers + [1]; } else { fingers := fingers + [0]; }
    }

    /**
     * Thumb tip and index tip closer than the pinch distance (compared squared).
     * A pinch keeps both offsets under 40 px; tips within 28 px in both
     * directions always pinch.
     */
    static function IsPinching(hand: Hand): (pinching: bool)
      requires WellFormed(hand)
      ensures var dx, dy := hand[INDEX_TIP].x - hand[THUMB_TIP].x, hand[INDEX_TIP].y - hand[THUMB_TIP].y;
        (pinching ==> -40 < dx < 40 && -40 < dy < 40) &&
        (-28 <= dx <= 28 && -28 <= dy <= 28 ==> pinching)
    {
      var dx, dy := hand[INDEX_TIP].x - hand[THUMB_TIP].x, hand[INDEX_TIP].y - hand[THUMB_TIP].y;
      SquareBounds(dx, PINCH_DISTANCE);
      SquareBounds(dy, PINCH_DISTANCE);
      SquareBounds(dx, 28);
      SquareBounds(dy, 28);
      SquaredDistance(hand[THUMB_TIP], hand[INDEX_TIP]) < PINCH_DISTANCE * PINCH_DISTANCE
    }

    /** Process one frame taken at time `now`. */
    method ProcessGestures(hands: seq<Hand>, imgWidth: int, now: real) returns (action: Action, status: Status)
      requires Valid()
      requires AllWellFormed(hands)
      requires imgWidth > 0
      modifies this
      ensures Valid()
      ensures StepResult(Snapshot(), action, status) == Step(Settings(), old(Snapshot()), hands, imgWidth, now)
      ensures lastVolChangeTime == old(lastVolChangeTime)
    {
      var currentTime := now;
      status := ModeName(state);
      action := NoAction;

      if state == Scroll {
        for i := 0 to |hands|
          invariant Snapshot() == old(Snapshot()) && lastVolChangeTime == old(lastVolChangeTime)
          invariant forall k :: 0 <= k < i ==> !IsVolumeTrigger(hands[k])
        {
          var fingers := FingersUp(hands[i]);
          if fingers == [1, 1, 1, 0] {
            state := Volume;
            lastGestureTime := currentTime;
            return ModeVol, VolumeActivated;
          }
        }

        if |hands| > 0 {
          var cy := hands[0][HAND_CENTER].y;
          if currentTime - lastGestureTime > cooldown {
            if prevY.Some? {
              var dy := cy - prevY.value;
              if dy < -threshold {
                lastGestureTime := currentTime;
                prevY := Some(cy);
                return Next, ScrollDown;
              } else if dy > threshold {
                lastGestureTime := currentTime;
                prevY := Some(cy);
                return Previous, ScrollUp;
              }
            }
            prevY := Some(cy);
          } else {
            status := CoolingDown;
          }
        } else {
          prevY := None;
          status := NoHand;
        }

      } else if state == Volume {
        status := PinchTwoHands;

        if |hands| == 2 {
          var h1 := hands[0];
          var h2 := hands[1];
          if IsPinching(h1) && IsPinching(h2) {
            var target := SliderPosition(h1[HAND_CENTER].x, h2[HAND_CENTER].x, imgWidth);
            volumeLevel := Smoothed(volumeLevel, target);
            return SetVolume(volumeLevel), VolumePercent(Percent(volumeLevel));
          }
        }

        if |hands| == 0 {
          if currentTime - lastGestureTime > IDLE_TIMEOUT {
            state := Scroll;
            return ModeScroll, ScrollRevert;
          }
        } else {
          lastGestureTime := currentTime;
        }
      }
    }
  }
}
