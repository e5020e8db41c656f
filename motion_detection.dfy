/**
 * The gesture classifier and the per-frame translator driver
 * (static/js/motion-detection.js).
 *
 * Landmark coordinates are reals. A frame is a map from landmark index to
 * point, so that a landmark the frame lacks is simply absent. Sensitivity is
 * an integer count of tenths: `s` stands for the sensitivity `s / 10`.
 */
module MotionDetection {
  import opened Keys

  datatype Point = Point(x: real, y: real)

  /** One frame of face landmarks, indexed as the face mesh numbers them. */
  type Landmarks = map<int, Point>

  const NoseTip := 1
  const LeftCheek := 234
  const RightCheek := 454
  const UpperLip := 13
  const LowerLip := 14
  const LeftMouth := 61
  const RightMouth := 291
  /** The inner-mouth landmarks scanned for the tongue tip, inclusive. */
  const InnerMouthFirst := 61
  const InnerMouthLast := 68

  /** The sensitivity starts at medium, 0.5. */
  const InitialSensitivity := 5
  const MinSensitivity := 1
  const MaxSensitivity := 10

  function Abs(x: real): real
  {
    if x < 0.0 then -x else x
  }

  function Sensitivity(tenths: int): real
  {
    tenths as real / 10.0
  }

  function TiltThreshold(s: int): real { Sensitivity(s) * 0.02 }
  function MouthOpenThreshold(s: int): real { Sensitivity(s) * 0.3 }
  function HorizontalThreshold(s: int): real { Sensitivity(s) * 0.02 }
  function VerticalThreshold(s: int): real { Sensitivity(s) * 0.03 }

  // ---------------------------------------------------------------------
  // Head pose

  predicate HasHeadLandmarks(lm: Landmarks)
  {
    NoseTip in lm && LeftCheek in lm && RightCheek in lm
  }

  /** Horizontal distance from the nose tip to the left cheek. */
  function LeftDistance(lm: Landmarks): real
    requires HasHeadLandmarks(lm)
  {
    Abs(lm[NoseTip].x - lm[LeftCheek].x)
  }

  /** Horizontal distance from the nose tip to the right cheek. */
  function RightDistance(lm: Landmarks): real
    requires HasHeadLandmarks(lm)
  {
    Abs(lm[NoseTip].x - lm[RightCheek].x)
  }

  /**
   * `detectHeadPose`: `left` exactly when the left distance exceeds the
   * right one by more than the tilt threshold, `right` exactly when the
   * reverse holds, `neutral` otherwise; both inequalities are strict.
   */
  function DetectHeadPose(lm: Landmarks, s: int): (r: HeadDirection)
    requires HasHeadLandmarks(lm)
    ensures r == HeadLeft <==> LeftDistance(lm) - RightDistance(lm) > TiltThreshold(s)
    ensures 0 <= s ==> (r == HeadRight <==> RightDistance(lm) - LeftDistance(lm) > TiltThreshold(s))
    ensures 0 <= s ==> (r == HeadNeutral <==> Abs(LeftDistance(lm) - RightDistance(lm)) <= TiltThreshold(s))
  {
    var leftDistance := LeftDistance(lm);
    var rightDistance := RightDistance(lm);
    var tiltThreshold := TiltThreshold(s);
    if leftDistance - rightDistance > tiltThreshold then HeadLeft
    else if rightDistance - leftDistance > tiltThreshold then HeadRight
    else HeadNeutral
  }

  /** The two tilt conditions can never hold together. */
  lemma HeadTiltConditionsExclusive(lm: Landmarks, s: int)
    requires HasHeadLandmarks(lm) && 0 <= s
    ensures !(LeftDistance(lm) - RightDistance(lm) > TiltThreshold(s) &&
              RightDistance(lm) - LeftDistance(lm) > TiltThreshold(s))
  {
  }

  /** Equal cheek distances, or a difference of exactly the threshold, classify as neutral. */
  lemma HeadPoseBoundaryIsNeutral(lm: Landmarks, s: int)
    requires HasHeadLandmarks(lm) && 0 <= s
    requires LeftDistance(lm) == RightDistance(lm) ||
             LeftDistance(lm) - RightDistance(lm) == TiltThreshold(s) ||
             RightDistance(lm) - LeftDistance(lm) == TiltThreshold(s)
    ensures DetectHeadPose(lm, s) == HeadNeutral
  {
  }

  /** The frame with the two cheek landmarks exchanged. */
  function SwapCheeks(lm: Landmarks): Landmarks
    requires HasHeadLandmarks(lm)
  {
    lm[LeftCheek := lm[RightCheek]][RightCheek := lm[LeftCheek]]
  }

  /** The classifier is symmetric: exchanging the cheeks exchanges left and right. */
  lemma HeadPoseMirror(lm: Landmarks, s: int)
    requires HasHeadLandmarks(lm) && 0 <= s
    ensures HasHeadLandmarks(SwapCheeks(lm))
    ensures DetectHeadPose(SwapCheeks(lm), s) ==
      match DetectHeadPose(lm, s)
      case HeadLeft => HeadRight
      case HeadRight => HeadLeft
      case HeadNeutral => HeadNeutral
  {
  }

  /** Left distance 0.10, right distance 0.05 at sensitivity 0.5 gives `left`. */
  lemma HeadPoseLeftScenario()
    ensures var lm := map[NoseTip := Point(0.5, 0.5), LeftCheek := Point(0.4, 0.5), RightCheek := Point(0.55, 0.5)];
      HasHeadLandmarks(lm) && LeftDistance(lm) == 0.1 && RightDistance(lm) == 0.05 &&
      TiltThreshold(5) == 0.01 && DetectHeadPose(lm, 5) == HeadLeft
  {
  }

  // ---------------------------------------------------------------------
  // Tongue direction

  predicate HasMouthLandmarks(lm: Landmarks)
  {
    UpperLip in lm && LowerLip in lm && LeftMouth in lm && RightMouth in lm
  }

  function MouthHeight(lm: Landmarks): real
    requires HasMouthLandmarks(lm)
  {
    Abs(lm[UpperLip].y - lm[LowerLip].y)
  }

  function MouthWidth(lm: Landmarks): real
    requires HasMouthLandmarks(lm)
  {
    Abs(lm[LeftMouth].x - lm[RightMouth].x)
  }

  function MouthAspectRatio(lm: Landmarks): real
    requires HasMouthLandmarks(lm) && MouthWidth(lm) > 0.0
  {
    MouthHeight(lm) / MouthWidth(lm)
  }

  /** Midpoint of the mouth corners horizontally and of the lip centres vertically. */
  function MouthCenter(lm: Landmarks): Point
    requires HasMouthLandmarks(lm)
  {
    Point((lm[LeftMouth].x + lm[RightMouth].x) / 2.0, (lm[UpperLip].y + lm[LowerLip].y) / 2.0)
  }

  /**
   * The scan for the lowest point: starting from `start`, visit the indices
   * `lo` up to `hi - 1` in order and keep each present landmark lying
   * strictly lower (greater y) than the point kept so far.
   */
  function ScanLowest(lm: Landmarks, start: Point, lo: int, hi: int): Point
    decreases hi - lo
  {
    if lo >= hi then start
    else ScanLowest(lm, if lo in lm && lm[lo].y > start.y then lm[lo] else start, lo + 1, hi)
  }

  /** The kept point lies at least as low as the start and every present scanned landmark, and is one of them. */
  lemma {:induction false} ScanLowestIsLowest(lm: Landmarks, start: Point, lo: int, hi: int)
    requires lo <= hi
    ensures ScanLowest(lm, start, lo, hi).y >= start.y
    ensures forall i :: lo <= i < hi && i in lm ==> ScanLowest(lm, start, lo, hi).y >= lm[i].y
    ensures ScanLowest(lm, start, lo, hi) == start ||
            exists i :: lo <= i < hi && i in lm && ScanLowest(lm, start, lo, hi) == lm[i]
    decreases hi - lo
  {
    if lo < hi {
      var next := if lo in lm && lm[lo].y > start.y then lm[lo] else start;
      ScanLowestIsLowest(lm, next, lo + 1, hi);
    }
  }

  /**
   * The tongue tip proxy: the lowest of the upper lip centre and the
   * present inner-mouth landmarks, the earliest one on ties.
   */
  function TongueTip(lm: Landmarks): Point
    requires UpperLip in lm
  {
    ScanLowest(lm, lm[UpperLip], InnerMouthFirst, InnerMouthLast + 1)
  }

  /** The loop of `detectTongueMovement` that finds the lowest point of the mouth region. */
  method LowestMouthPoint(lm: Landmarks) returns (lowestPoint: Point)
    requires UpperLip in lm
    ensures lowestPoint == TongueTip(lm)
    ensures lowestPoint.y >= lm[UpperLip].y
    ensures forall i :: InnerMouthFirst <= i <= InnerMouthLast && i in lm ==> lowestPoint.y >= lm[i].y
    ensures lowestPoint == lm[UpperLip] ||
            exists i :: InnerMouthFirst <= i <= InnerMouthLast && i in lm && lowestPoint == lm[i]
  {
    lowestPoint := lm[UpperLip];
    var i := InnerMouthFirst;
    while i <= InnerMouthLast
      invariant InnerMouthFirst <= i <= InnerMouthLast + 1
      invariant ScanLowest(lm, lowestPoint, i, InnerMouthLast + 1) == TongueTip(lm)
    {
      if i in lm && lm[i].y > lowestPoint.y {
        lowestPoint := lm[i];
      }
      i := i + 1;
    }
    ScanLowestIsLowest(lm, lm[UpperLip], InnerMouthFirst, InnerMouthLast + 1);
  }

  /**
   * The directional rule, first match wins: a vertical offset beyond its
   * threshold is `up`; otherwise a horizontal offset beyond the threshold is
   * `right`, beyond its negation `left`, and anything else `neutral`.
   */
  function DirectionFromOffsets(horizontalOffset: real, verticalOffset: real, s: int): (r: TongueDirection)
    ensures r == TongueUp <==> verticalOffset > VerticalThreshold(s)
    ensures r == TongueRight <==>
      verticalOffset <= VerticalThreshold(s) && horizontalOffset > HorizontalThreshold(s)
    ensures 0 <= s ==> (r == TongueLeft <==>
      verticalOffset <= VerticalThreshold(s) && horizontalOffset < -HorizontalThreshold(s))
    ensures 0 <= s ==> (r == TongueNeutral <==>
      verticalOffset <= VerticalThreshold(s) && Abs(horizontalOffset) <= HorizontalThreshold(s))
  {
    if verticalOffset > VerticalThreshold(s) then TongueUp
    else if horizontalOffset > HorizontalThreshold(s) then TongueRight
    else if horizontalOffset < -HorizontalThreshold(s) then TongueLeft
    else TongueNeutral
  }

  /**
   * The tongue direction of a frame: `neutral` while the mouth is closed
   * (aspect ratio below the gate), otherwise the direction rule applied to
   * the tongue tip's offset from the mouth centre.
   */
  function TongueDirectionOf(lm: Landmarks, s: int): (r: TongueDirection)
    requires HasMouthLandmarks(lm) && MouthWidth(lm) > 0.0
    ensures MouthAspectRatio(lm) < MouthOpenThreshold(s) ==> r == TongueNeutral
  {
    if MouthAspectRatio(lm) < MouthOpenThreshold(s) then TongueNeutral
    else
      var tip := TongueTip(lm);
      var center := MouthCenter(lm);
      DirectionFromOffsets(tip.x - center.x, tip.y - center.y, s)
  }

  /** With the mouth closed the inner-mouth landmarks do not matter at all. */
  lemma ClosedMouthIgnoresInnerLandmarks(lm: Landmarks, other: Landmarks, s: int)
    requires HasMouthLandmarks(lm) && MouthWidth(lm) > 0.0
    requires MouthAspectRatio(lm) < MouthOpenThreshold(s)
    requires forall k :: k in {UpperLip, LowerLip, LeftMouth, RightMouth} ==> k in other && other[k] == lm[k]
    ensures HasMouthLandmarks(other) && MouthWidth(other) > 0.0
    ensures TongueDirectionOf(other, s) == TongueDirectionOf(lm, s) == TongueNeutral
  {
    assert UpperLip in {UpperLip, LowerLip, LeftMouth, RightMouth};
    assert LowerLip in {UpperLip, LowerLip, LeftMouth, RightMouth};
    assert LeftMouth in {UpperLip, LowerLip, LeftMouth, RightMouth};
    assert RightMouth in {UpperLip, LowerLip, LeftMouth, RightMouth};
  }

  /** Mouth height 0.02 over width 0.10 at sensitivity 0.5 passes the gate of 0.15. */
  lemma MouthOpenScenario()
    ensures var lm := map[UpperLip := Point(0.5, 0.49), LowerLip := Point(0.5, 0.51),
                          LeftMouth := Point(0.45, 0.5), RightMouth := Point(0.55, 0.5)];
      HasMouthLandmarks(lm) && MouthWidth(lm) > 0.0 &&
      MouthAspectRatio(lm) == 0.2 && MouthOpenThreshold(5) == 0.15 &&
      !(MouthAspectRatio(lm) < MouthOpenThreshold(5))
  {
    var lm := map[UpperLip := Point(0.5, 0.49), LowerLip := Point(0.5, 0.51),
                  LeftMouth := Point(0.45, 0.5), RightMouth := Point(0.55, 0.5)];
    assert MouthHeight(lm) == 0.02;
    assert MouthWidth(lm) == 0.1;
  }

  /** `detectTongueMovement`. */
  method DetectTongueMovement(lm: Landmarks, s: int) returns (r: TongueDirection)
    requires HasMouthLandmarks(lm) && MouthWidth(lm) > 0.0
    ensures r == TongueDirectionOf(lm, s)
  {
    var upperLip, lowerLip := lm[UpperLip], lm[LowerLip];
    var leftMouth, rightMouth := lm[LeftMouth], lm[RightMouth];
    var mouthHeight := Abs(upperLip.y - lowerLip.y);
    var mouthWidth := Abs(leftMouth.x - rightMouth.x);
    var mouthAspectRatio := mouthHeight / mouthWidth;
    if mouthAspectRatio < Sensitivity(s) * 0.3 {
      return TongueNeutral;
    }
    var mouthCenter := Point((leftMouth.x + rightMouth.x) / 2.0, (upperLip.y + lowerLip.y) / 2.0);
    var lowestPoint := LowestMouthPoint(lm);
    r := DirectionFromOffsets(lowestPoint.x - mouthCenter.x, lowestPoint.y - mouthCenter.y, s);
  }

  // ---------------------------------------------------------------------
  // Status label and sensitivity

  /** `getGameAction`: tongue labels first, then head-attack labels, then `Idle`. */
  function GameAction(tongue: TongueDirection, head: HeadDirection): (action: string)
    ensures tongue == TongueLeft ==> action == "Moving Left"
    ensures tongue == TongueRight ==> action == "Moving Right"
    ensures tongue == TongueUp ==> action == "Jumping"
    ensures action == "Attack 1" <==> tongue == TongueNeutral && head == HeadLeft
    ensures action == "Attack 2" <==> tongue == TongueNeutral && head == HeadRight
    ensures action == "Idle" <==> tongue == TongueNeutral && head == HeadNeutral
  {
    match tongue
    case TongueLeft => "Moving Left"
    case TongueRight => "Moving Right"
    case TongueUp => "Jumping"
    case TongueNeutral =>
      match head
      case HeadLeft => "Attack 1"
      case HeadRight => "Attack 2"
      case HeadNeutral => "Idle"
  }

  /** `adjustSensitivity` on the tenths counter: one step, and only inside the bounds. */
  function AdjustedSensitivity(s: int, direction: string): (r: int)
    ensures MinSensitivity <= s <= MaxSensitivity ==> MinSensitivity <= r <= MaxSensitivity
    ensures r == s + 1 <==> direction == "increase" && s < MaxSensitivity
    ensures r == s - 1 <==> direction == "decrease" && s > MinSensitivity
    ensures r == s || r == s + 1 || r == s - 1
    ensures direction != "increase" && direction != "decrease" ==> r == s
  {
    if direction == "increase" && s < MaxSensitivity then s + 1
    else if direction == "decrease" && s > MinSensitivity then s - 1
    else s
  }

  // ---------------------------------------------------------------------
  // Edge-triggered translation

  /** The translator's memory and the control state it writes, as one value. */
  datatype ControlState = ControlState(
    lastTongue: TongueDirection, lastHead: HeadDirection,
    flags: MotionFlags, avatar: Avatar)

  /**
   * `updateGameControls`: the tongue handler runs only when the tongue
   * direction changed, then the head handler only when the head direction
   * changed; the memory then holds the new directions.
   */
  function Translate(c: ControlState, tongue: TongueDirection, head: HeadDirection): (r: ControlState)
    ensures r.lastTongue == tongue && r.lastHead == head
    ensures tongue == c.lastTongue && head == c.lastHead ==> r == c
    ensures tongue != c.lastTongue && head == c.lastHead ==>
      r.flags == TongueFlags(c.flags, tongue) && r.avatar == TongueAvatar(c.avatar, tongue)
    ensures tongue == c.lastTongue && head != c.lastHead ==>
      r.flags == HeadFlags(c.flags, head) && r.avatar == HeadAvatar(c.avatar, head)
    ensures tongue != c.lastTongue && head != c.lastHead ==>
      r.flags == HeadFlags(TongueFlags(c.flags, tongue), head) &&
      r.avatar == HeadAvatar(TongueAvatar(c.avatar, tongue), head)
  {
    var afterTongue :=
      if tongue != c.lastTongue
      then c.(lastTongue := tongue, flags := TongueFlags(c.flags, tongue), avatar := TongueAvatar(c.avatar, tongue))
      else c;
    if head != afterTongue.lastHead
    then afterTongue.(lastHead := head, flags := HeadFlags(afterTongue.flags, head), avatar := HeadAvatar(afterTongue.avatar, head))
    else afterTongue
  }

  /** A second frame with the same directions invokes neither handler and changes nothing. */
  lemma TranslateSecondCallIsNoOp(c: ControlState, tongue: TongueDirection, head: HeadDirection)
    ensures Translate(Translate(c, tongue, head), tongue, head) == Translate(c, tongue, head)
  {
  }

  /**
   * Edge triggering does not re-assert a held direction: once the tongue is
   * known to be `left`, a keyboard release of `a` stays in force on the next
   * `left` frame.
   */
  lemma HeldDirectionIsNotReasserted(c: ControlState, fallbackKeysEnabled: bool)
    requires c.lastTongue == TongueLeft && c.lastHead == HeadNeutral
    ensures var released := c.(avatar := KeyUpAvatar(c.avatar, "a", fallbackKeysEnabled));
      !Translate(released, TongueLeft, HeadNeutral).avatar.a
  {
  }

  /**
   * When both directions change in one frame the head handler runs last, so
   * a head tilt decides `lastKey`; a head returning to neutral leaves the
   * tongue's `lastKey` in place.
   */
  lemma LastKeyTieBreak(c: ControlState, tongue: TongueDirection, head: HeadDirection)
    requires tongue != c.lastTongue && head != c.lastHead
    ensures head != HeadNeutral ==> Translate(c, tongue, head).avatar.lastKey == " "
    ensures head == HeadNeutral ==>
      Translate(c, tongue, head).avatar.lastKey == TongueAvatar(c.avatar, tongue).lastKey
  {
  }

  /** After a tongue change the three tongue flags name exactly the new direction. */
  lemma TranslateTongueFlags(c: ControlState, tongue: TongueDirection, head: HeadDirection)
    requires tongue != c.lastTongue
    ensures var f := Translate(c, tongue, head).flags;
      AtMostOneTongueFlag(f) &&
      (f.tongueLeft <==> tongue == TongueLeft) &&
      (f.tongueRight <==> tongue == TongueRight) &&
      (f.tongueUp <==> tongue == TongueUp)
  {
  }

  /** What the status slots report for one face-mesh result. */
  datatype Status =
    | NoFace
    | Classified(head: HeadDirection, tongue: TongueDirection, action: string)

  /** A frame that holds every landmark the classifiers read, with a mouth of positive width. */
  predicate IsFaceFrame(lm: Landmarks)
  {
    HasHeadLandmarks(lm) && HasMouthLandmarks(lm) && MouthWidth(lm) > 0.0
  }

  /**
   * The module-level state of motion-detection.js: the edge-detection
   * memory and the sensitivity counter.
   */
  class MotionSession {
    var lastTongueDirection: TongueDirection
    var lastHeadDirection: HeadDirection
    var sensitivity: int

    ghost predicate Valid()
      reads this
    {
      MinSensitivity <= sensitivity <= MaxSensitivity
    }

    constructor ()
      ensures Valid()
      ensures lastTongueDirection == TongueNeutral && lastHeadDirection == HeadNeutral
      ensures sensitivity == InitialSensitivity
    {
      lastTongueDirection := TongueNeutral;
      lastHeadDirection := HeadNeutral;
      sensitivity := InitialSensitivity;
    }

    /** The memory together with the control state it drives. */
    function State(keys: KeyStates, player: Player): ControlState
      reads this, keys, player, player.keys
    {
      ControlState(lastTongueDirection, lastHeadDirection, keys.Motion(), player.View())
    }

    /** `updateGameControls`. */
    method UpdateGameControls(tongue: TongueDirection, head: HeadDirection, keys: KeyStates, player: Player)
      modifies this`lastTongueDirection, this`lastHeadDirection
      modifies keys`tongueLeft, keys`tongueRight, keys`tongueUp, keys`headTiltLeft, keys`headTiltRight
      modifies player`lastKey, player`velocityY, player`isAttacking, player.keys`a, player.keys`d
      ensures State(keys, player) == Translate(old(State(keys, player)), tongue, head)
    {
      if tongue != lastTongueDirection {
        HandleTongueMovement(tongue, keys, player);
        lastTongueDirection := tongue;
      }
      if head != lastHeadDirection {
        HandleHeadTilt(head, keys, player);
        lastHeadDirection := head;
      }
    }

    /**
     * The classify-then-translate part of `onFaceMeshResults`: with no face
     * nothing changes; otherwise both classifiers run on the first face, the
     * translator applies their result, and the status carries both
     * directions and the action label.
     */
    method OnFaceMeshResults(faces: seq<Landmarks>, keys: KeyStates, player: Player) returns (status: Status)
      requires |faces| > 0 ==> IsFaceFrame(faces[0])
      modifies this`lastTongueDirection, this`lastHeadDirection
      modifies keys`tongueLeft, keys`tongueRight, keys`tongueUp, keys`headTiltLeft, keys`headTiltRight
      modifies player`lastKey, player`velocityY, player`isAttacking, player.keys`a, player.keys`d
      ensures |faces| == 0 ==> status == NoFace && State(keys, player) == old(State(keys, player))
      ensures |faces| > 0 ==>
        var head := DetectHeadPose(faces[0], sensitivity);
        var tongue := TongueDirectionOf(faces[0], sensitivity);
        status == Classified(head, tongue, GameAction(tongue, head)) &&
        State(keys, player) == Translate(old(State(keys, player)), tongue, head)
    {
      if |faces| == 0 {
        return NoFace;
      }
      var landmarks := faces[0];
      var headDirection := DetectHeadPose(landmarks, sensitivity);
      var tongueDirection := DetectTongueMovement(landmarks, sensitivity);
      UpdateGameControls(tongueDirection, headDirection, keys, player);
      status := Classified(headDirection, tongueDirection, GameAction(tongueDirection, headDirection));
    }

    /** `adjustSensitivity`: the counter stays within its bounds. */
    method AdjustSensitivity(direction: string)
      requires Valid()
      modifies this`sensitivity
      ensures Valid()
      ensures sensitivity == AdjustedSensitivity(old(sensitivity), direction)
    {
      if direction == "increase" && sensitivity < MaxSensitivity {
        sensitivity := sensitivity + 1;
      } else if direction == "decrease" && sensitivity > MinSensitivity {
        sensitivity := sensitivity - 1;
      }
    }

    /** `calibrateMotion`: forget both previous directions; nothing else changes. */
    method CalibrateMotion()
      modifies this`lastTongueDirection, this`lastHeadDirection
      ensures lastTongueDirection == TongueNeutral && lastHeadDirection == HeadNeutral
    {
      lastTongueDirection := TongueNeutral;
      lastHeadDirection := HeadNeutral;
    }
  }

  /** After calibration a held non-neutral direction fires its handler again. */
  lemma CalibrationRefires(c: ControlState, tongue: TongueDirection, head: HeadDirection)
    requires tongue != TongueNeutral && head != HeadNeutral
    ensures var r := Translate(c.(lastTongue := TongueNeutral, lastHead := HeadNeutral), tongue, head);
      r.flags == HeadFlags(TongueFlags(c.flags, tongue), head) &&
      r.avatar == HeadAvatar(TongueAvatar(c.avatar, tongue), head)
  {
  }
}
