/** The head tracker's bookkeeping: when a face was lost, the last pose
    (already corrected by the calibration offset), the offset itself, and
    the recentring rule that falls back to the forward-facing matrix after
    the face has been gone long enough. Time is a parameter; the camera and
    the pose estimator are reduced to what they report for one frame. */
module Tracking {
  import opened Common
  import opened Rotation

  /** What the pose estimator made of one camera frame. */
  datatype Detection =
    | NoFace              // no face landmarks in the frame
    | PoseFailed          // landmarks found, but the pose solver failed
    | Pose(rotation: Mat3) // the head's rotation relative to the camera

  /** The three fields the tracker updates. */
  datatype TrackerState = TrackerState(lost: Option<real>, current: Mat3, offset: Mat3)

  /** The state after construction: no offset, no face lost, facing forward. */
  const Initial := TrackerState(None, DefaultRotation, Identity)

  /** The largest camera angle, in degrees, that counts as well placed. */
  const MaxCameraAngle := 15.0

  /** The state after one processed frame (`__calculate_rotation_matrix`). */
  function AfterDetection(s: TrackerState, d: Detection, now: real): (r: TrackerState)
    ensures r.offset == s.offset
    ensures d.Pose? ==> r.lost.None? && r.current == Mul(s.offset, d.rotation)
    ensures d.PoseFailed? ==> r == s
    ensures d.NoFace? ==> r.current == s.current && r.lost == (if s.lost.None? then Some(now) else s.lost)
  {
    match d
    case Pose(rotation) => s.(current := Mul(s.offset, rotation), lost := None)
    case PoseFailed => s
    case NoFace => if s.lost.None? then s.(lost := Some(now)) else s
  }

  /** The state after a failed camera read in `calculate_current_orientation`. */
  function AfterCameraFailure(s: TrackerState, now: real): (r: TrackerState)
    ensures r.lost == Some(now) && r.current == s.current && r.offset == s.offset
  {
    s.(lost := Some(now))
  }

  /** Python's truth value of the stored lost time: unset and 0.0 are false. */
  predicate LostTimeSet(lost: Option<real>)
  {
    lost.Some? && lost.value != 0.0
  }

  /** What `get_current_orientation` reports at time `now`. */
  function OrientationAt(s: TrackerState, now: real, recenterAfter: real): (m: Mat3)
    ensures m == DefaultRotation || m == s.current
    ensures LostTimeSet(s.lost) && now - s.lost.value >= recenterAfter ==> m == DefaultRotation
    ensures !(LostTimeSet(s.lost) && now - s.lost.value >= recenterAfter) ==> m == s.current
  {
    if LostTimeSet(s.lost) && now - s.lost.value >= recenterAfter then DefaultRotation else s.current
  }

  /** `check_camera_angle`: the camera is well placed when its angle is
      within 15 degrees either way. */
  function CheckCameraAngle(angle: real): (ok: bool)
    ensures ok <==> -MaxCameraAngle <= angle <= MaxCameraAngle
  {
    Abs(angle) <= MaxCameraAngle
  }

  /** The offset `find_offset_rotation_matrix` derives from a pose: the
      negated transpose. */
  function CalibrationOffset(m: Mat3): (offset: Mat3)
    ensures Transpose(offset) == Neg(m)
  {
    Neg(Transpose(m))
  }

  /** The state after a run of frames, each with the time it was read. */
  function AfterDetections(s: TrackerState, frames: seq<(Detection, real)>): TrackerState
    decreases |frames|
  {
    if frames == [] then s
    else AfterDetections(AfterDetection(s, frames[0].0, frames[0].1), frames[1..])
  }

  /** A frame without a face. */
  predicate Missed(frame: (Detection, real))
  {
    frame.0.NoFace?
  }

  // ---------------------------------------------------------------------
  // The tracker object

  class FaceTracker {
    var lostFaceTime: Option<real>
    var currentRotation: Mat3
    var offsetRotation: Mat3
    const secondsBeforeRecenter: real

    function State(): TrackerState
      reads this
    {
      TrackerState(lostFaceTime, currentRotation, offsetRotation)
    }

    constructor (secondsBeforeRecenter: real)
      ensures State() == Initial && this.secondsBeforeRecenter == secondsBeforeRecenter
    {
      this.secondsBeforeRecenter := secondsBeforeRecenter;
      offsetRotation := Identity;
      currentRotation := DefaultRotation;
      lostFaceTime := None;
    }

    /** `__calculate_rotation_matrix` for a frame the estimator reported as
        `d`, read at time `now`. */
    method CalculateRotationMatrix(d: Detection, now: real) returns (m: Mat3)
      modifies this
      ensures State() == AfterDetection(old(State()), d, now)
      ensures m == currentRotation
    {
      match d {
        case Pose(rotation) =>
          currentRotation := Mul(offsetRotation, rotation);
          lostFaceTime := None;
        case PoseFailed =>
        case NoFace =>
          if lostFaceTime.None? {
            lostFaceTime := Some(now);
          }
      }
      m := currentRotation;
    }

    /** `calculate_current_orientation`: a failed camera read restarts the
        lost-face timer; otherwise the frame is processed. */
    method CalculateCurrentOrientation(cameraOk: bool, d: Detection, now: real) returns (m: Mat3)
      modifies this
      ensures State() == if cameraOk then AfterDetection(old(State()), d, now) else AfterCameraFailure(old(State()), now)
      ensures m == currentRotation
    {
      if !cameraOk {
        lostFaceTime := Some(now);
        m := currentRotation;
        return;
      }
      m := CalculateRotationMatrix(d, now);
    }

    /** `find_offset_rotation_matrix`: process the last frame again and take
        the negated transpose of the resulting pose as the offset. */
    method FindOffsetRotationMatrix(d: Detection, now: real)
      modifies this
      ensures var s := AfterDetection(old(State()), d, now);
        State() == s.(offset := CalibrationOffset(s.current))
    {
      var m := CalculateRotationMatrix(d, now);
      offsetRotation := Neg(Transpose(m));
    }

    /** `reset_rotation_offset` */
    method ResetRotationOffset()
      modifies this
      ensures State() == old(State()).(offset := Identity)
    {
      offsetRotation := Identity;
    }

    /** `set_offset_rotation_matrix` */
    method SetOffsetRotationMatrix(m: Mat3)
      modifies this
      ensures State() == old(State()).(offset := m)
    {
      offsetRotation := m;
    }

    /** `get_offset_rotation_matrix` */
    method GetOffsetRotationMatrix() returns (m: Mat3)
      ensures m == State().offset
    {
      m := offsetRotation;
    }

    /** `get_current_orientation` at time `now`. */
    method GetCurrentOrientation(now: real) returns (m: Mat3)
      ensures m == OrientationAt(State(), now, secondsBeforeRecenter)
    {
      if LostTimeSet(lostFaceTime) && now - lostFaceTime.value >= secondsBeforeRecenter {
        m := DefaultRotation;
      } else {
        m := currentRotation;
      }
    }
  }

  // ---------------------------------------------------------------------
  // Properties

  /** A freshly built tracker faces forward whatever the time. */
  lemma InitialOrientation(now: real, recenterAfter: real)
    ensures OrientationAt(Initial, now, recenterAfter) == DefaultRotation
  {
  }

  /** After a successful pose the tracker reports that pose, corrected by
      the offset, at any later time. */
  lemma PoseIsReported(s: TrackerState, rotation: Mat3, now: real, later: real, recenterAfter: real)
    ensures OrientationAt(AfterDetection(s, Pose(rotation), now), later, recenterAfter) == Mul(s.offset, rotation)
  {
  }

  /** With the offset reset, a pose is reported as it is. */
  lemma ResetOffsetPose(s: TrackerState, rotation: Mat3, now: real)
    ensures AfterDetection(s.(offset := Identity), Pose(rotation), now).current == rotation
  {
    MulIdentityLeft(rotation);
  }

  /** A run of frames without a face keeps the pose and starts the timer at
      the first of them, unless it was already running. */
  lemma {:induction false} MissesKeepFirstLoss(s: TrackerState, frames: seq<(Detection, real)>)
    requires |frames| > 0
    requires forall i :: 0 <= i < |frames| ==> Missed(frames[i])
    ensures var r := AfterDetections(s, frames);
      && r.current == s.current && r.offset == s.offset
      && r.lost == (if s.lost.None? then Some(frames[0].1) else s.lost)
    decreases |frames|
  {
    var s1 := AfterDetection(s, frames[0].0, frames[0].1);
    assert s1.lost.Some?;
    if |frames| > 1 {
      forall i | 0 <= i < |frames[1..]|
        ensures Missed(frames[1..][i])
      {
        assert frames[1..][i] == frames[i + 1];
      }
      MissesKeepFirstLoss(s1, frames[1..]);
    }
  }

  /** The recentring debounce: starting from a tracked face, a run of
      frames without a face makes the tracker face forward exactly when
      `recenterAfter` seconds have passed since the first of them. */
  lemma RecenterAfterMisses(s: TrackerState, frames: seq<(Detection, real)>, now: real, recenterAfter: real)
    requires s.lost.None?
    requires |frames| > 0 && frames[0].1 != 0.0
    requires forall i :: 0 <= i < |frames| ==> Missed(frames[i])
    ensures var m := OrientationAt(AfterDetections(s, frames), now, recenterAfter);
      && (now - frames[0].1 >= recenterAfter ==> m == DefaultRotation)
      && (now - frames[0].1 < recenterAfter ==> m == s.current)
  {
    MissesKeepFirstLoss(s, frames);
  }

  /** A failed camera read restarts the timer: the tracker faces forward
      once `recenterAfter` seconds pass after it, not before. */
  lemma CameraFailureRecenters(s: TrackerState, failedAt: real, now: real, recenterAfter: real)
    requires failedAt != 0.0
    ensures var m := OrientationAt(AfterCameraFailure(s, failedAt), now, recenterAfter);
      && (now - failedAt >= recenterAfter ==> m == DefaultRotation)
      && (now - failedAt < recenterAfter ==> m == s.current)
  {
  }

  /** Calibration: for a rotation `r`, the offset derived from `r` maps
      that same pose to minus the identity. */
  lemma CalibratedPose(r: Mat3)
    requires Orthonormal(r)
    ensures Mul(CalibrationOffset(r), r) == Neg(Identity)
  {
    MulNegLeft(Transpose(r), r);
  }

  /** Calibrating from a pose with the offset reset, then seeing the same
      pose again, yields minus the identity as the current pose. */
  lemma CalibrateThenSamePose(s: TrackerState, r: Mat3, t1: real, t2: real)
    requires Orthonormal(r)
    ensures var s1 := AfterDetection(s.(offset := Identity), Pose(r), t1);
      var s2 := s1.(offset := CalibrationOffset(s1.current));
      AfterDetection(s2, Pose(r), t2).current == Neg(Identity)
  {
    ResetOffsetPose(s, r, t1);
    CalibratedPose(r);
  }
}
