/** The proportional control law of rover_controller.cpp: yaw from the
    horizontal offset of the target with a dead zone, linear speed from the
    ratio of the target's area to a reference area with a tolerance band,
    then differential mixing and clamping. Arithmetic is over `real`; the
    source computes in `float`. */
module ControlLaw {

  const FrameWidth: real := 640.0
  const FrameHeight: real := 480.0
  /** The dead zone is this fraction of the frame width around its centre. */
  const XDeadzoneRatio: real := 0.08
  /** Area ratios within this distance of 1 need no linear motion. */
  const AreaTolerance: real := 0.15
  const KpX: real := 0.003
  const KpD: real := 0.8
  const MaxLinear: real := 1.0
  const MaxAngular: real := 0.8

  /** Half-width of the dead zone in pixels (51.2). */
  const XDeadzone: real := FrameWidth * XDeadzoneRatio
  const FrameCentreX: real := FrameWidth / 2.0

  datatype BBox = BBox(x: real, y: real, w: real, h: real)
  datatype MotorCmd = MotorCmd(left: real, right: real)

  /** The box the reference area is measured from (at about 30 cm). */
  const ReferenceBox: BBox := BBox(200.0, 120.0, 120.0, 160.0)

  function Abs(a: real): real { if a < 0.0 then -a else a }

  /** `std::max(lo, std::min(v, hi))`. */
  function Clamp(v: real, lo: real, hi: real): (r: real)
    ensures lo <= hi ==> lo <= r <= hi
    ensures lo <= v <= hi ==> r == v
    ensures lo <= hi && v < lo ==> r == lo
    ensures lo <= hi && hi < v ==> r == hi
  {
    var m := if hi < v then hi else v;
    if lo < m then m else lo
  }

  /** Clamping does not reverse the order of two values. */
  lemma ClampMonotone(a: real, b: real, lo: real, hi: real)
    requires a <= b && lo <= hi
    ensures Clamp(a, lo, hi) <= Clamp(b, lo, hi)
  {
  }

  function CenterX(b: BBox): (c: real)
    ensures b.w >= 0.0 ==> b.x <= c <= b.x + b.w
  {
    b.x + b.w / 2.0
  }

  function Area(b: BBox): (a: real)
    ensures (b.w == 0.0 || b.h == 0.0) ==> a == 0.0
    ensures b.w >= 0.0 && b.h >= 0.0 ==> a >= 0.0
    ensures b.w > 0.0 && b.h > 0.0 ==> a > 0.0
  {
    b.w * b.h
  }

  /** Horizontal offset of the target's centre from the frame's centre. */
  function Offset(b: BBox): real
  {
    CenterX(b) - FrameCentreX
  }

  /** Yaw rate: zero inside the dead zone, otherwise proportional to the
      offset, with the offset's sign, and within the angular limit. */
  function YawRate(b: BBox): (omega: real)
    ensures -MaxAngular <= omega <= MaxAngular
    ensures Abs(Offset(b)) <= XDeadzone ==> omega == 0.0
    ensures Offset(b) > XDeadzone ==> omega > 0.0
    ensures Offset(b) < -XDeadzone ==> omega < 0.0
  {
    var dx := Offset(b);
    var omega := if Abs(dx) > XDeadzone then KpX * dx else 0.0;
    Clamp(omega, -MaxAngular, MaxAngular)
  }

  /** Linear speed from the area ratio: stand still inside the tolerance band,
      drive forward when the target looks too small (far), back when it looks
      too large (near), and never beyond the linear limit. */
  function LinearSpeed(areaRatio: real): (v: real)
    ensures -MaxLinear <= v <= MaxLinear
    ensures 1.0 - AreaTolerance <= areaRatio <= 1.0 + AreaTolerance ==> v == 0.0
    ensures areaRatio < 1.0 - AreaTolerance ==> v > 0.0
    ensures areaRatio > 1.0 + AreaTolerance ==> v < 0.0
  {
    var v :=
      if areaRatio < 1.0 - AreaTolerance then KpD * (1.0 - areaRatio)
      else if areaRatio > 1.0 + AreaTolerance then -KpD * (areaRatio - 1.0)
      else 0.0;
    Clamp(v, -MaxLinear, MaxLinear)
  }

  /** `compute_control`: both wheel commands lie in [-1, 1]; a centred target
      gives equal wheels; a target right of the dead zone makes the right
      wheel strictly faster than the left, and left of it the reverse. */
  function ComputeControl(b: BBox, refArea: real): (cmd: MotorCmd)
    requires refArea > 0.0
    ensures -1.0 <= cmd.left <= 1.0 && -1.0 <= cmd.right <= 1.0
    ensures Abs(Offset(b)) <= XDeadzone ==> cmd.left == cmd.right
    ensures Offset(b) > XDeadzone ==> cmd.right > cmd.left
    ensures Offset(b) < -XDeadzone ==> cmd.left > cmd.right
    ensures Abs(Offset(b)) <= XDeadzone ==> cmd.left == LinearSpeed(Area(b) / refArea)
  {
    var omega := YawRate(b);
    var v := LinearSpeed(Area(b) / refArea);
    MotorCmd(Clamp(v - omega, -1.0, 1.0), Clamp(v + omega, -1.0, 1.0))
  }

  /** A centred target at the reference distance stops the rover; a centred
      target that is too far drives both wheels forward at the same speed, and
      one that is too near drives both back. */
  lemma CentredTargetDrivesStraight(b: BBox, refArea: real)
    requires refArea > 0.0 && Abs(Offset(b)) <= XDeadzone
    ensures var ratio := Area(b) / refArea;
      var cmd := ComputeControl(b, refArea);
      (1.0 - AreaTolerance <= ratio <= 1.0 + AreaTolerance ==> cmd == MotorCmd(0.0, 0.0)) &&
      (ratio < 1.0 - AreaTolerance ==> cmd.left == cmd.right > 0.0) &&
      (ratio > 1.0 + AreaTolerance ==> cmd.left == cmd.right < 0.0)
  {
    var cmd := ComputeControl(b, refArea);
    assert cmd.left == cmd.right == LinearSpeed(Area(b) / refArea);
  }

  /** The reference area `main` passes to `compute_control`. */
  lemma ReferenceAreaValue()
    ensures Area(ReferenceBox) == 19200.0
  {
  }

  /** The per-line rule of `main`: a box of zero width or height gets the zero
      command without consulting `compute_control`; any other box gets the
      command `compute_control` computes for it. */
  function Respond(b: BBox, refArea: real): (cmd: MotorCmd)
    requires refArea > 0.0
    ensures b.w == 0.0 || b.h == 0.0 ==> cmd == MotorCmd(0.0, 0.0)
    ensures -1.0 <= cmd.left <= 1.0 && -1.0 <= cmd.right <= 1.0
    ensures b.w != 0.0 && b.h != 0.0 ==> cmd == ComputeControl(b, refArea)
    ensures b.w != 0.0 && b.h != 0.0 && Abs(Offset(b)) <= XDeadzone ==> cmd.left == cmd.right
    ensures b.w != 0.0 && b.h != 0.0 && Offset(b) > XDeadzone ==> cmd.right > cmd.left
    ensures b.w != 0.0 && b.h != 0.0 && Offset(b) < -XDeadzone ==> cmd.left > cmd.right
  {
    if b.w == 0.0 || b.h == 0.0 then MotorCmd(0.0, 0.0) else ComputeControl(b, refArea)
  }

  /** Without the zero-size rule a centred empty box would read as a target
      far away and drive the rover forward at 0.8. */
  lemma ZeroSizeRuleOverridesForward(b: BBox)
    requires b.w == 0.0 && Abs(Offset(b)) <= XDeadzone
    ensures ComputeControl(b, Area(ReferenceBox)) == MotorCmd(0.8, 0.8)
    ensures Respond(b, Area(ReferenceBox)) == MotorCmd(0.0, 0.0)
  {
    ReferenceAreaValue();
  }
}
