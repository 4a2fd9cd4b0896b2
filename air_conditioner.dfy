/**
 * The state side of renderer/components/AirConditioner.js: power, the fan's
 * target and actual rotation speed, its accumulated rotation, and the status
 * light. Meshes, colours and the cool-air particle motion are not modelled;
 * `particleFrames` counts the frames in which the particles were advanced.
 */
module Aircon {
  /** Fan speed the unit spins up to when powered on. */
  const OnFanSpeed: real := 0.2
  /** Status-light intensity while powered on. */
  const OnLightIntensity: real := 0.5
  /** Interpolation factor of each frame's fan-speed step. */
  const FanEasing: real := 0.05

  /** The abstract state of one unit. */
  datatype AcState = AcState(
    isPoweredOn: bool,
    created: bool,
    fanRotationSpeed: real,
    targetFanSpeed: real,
    fanRotation: real,
    statusLightIntensity: real,
    particleFrames: nat)

  function TargetFor(on: bool): real { if on then OnFanSpeed else 0.0 }
  function LightFor(on: bool): real { if on then OnLightIntensity else 0.0 }

  /** `THREE.MathUtils.lerp(x, y, t)`. */
  function Lerp(x: real, y: real, t: real): real { (1.0 - t) * x + t * y }

  /** One frame's fan-speed step: moves 5% of the way to the target. */
  function NextFanSpeed(s: real, target: real): (r: real)
    ensures (s <= target ==> s <= r <= target) && (target <= s ==> target <= r <= s)
    ensures r - target == (1.0 - FanEasing) * (s - target)
  {
    Lerp(s, target, FanEasing)
  }

  /** The fan speed after `n` frames with a fixed target. */
  function FanSpeedAfter(s: real, target: real, n: nat): real
  {
    if n == 0 then s else NextFanSpeed(FanSpeedAfter(s, target, n - 1), target)
  }

  /** With a fixed target the fan speed moves monotonically toward it and never overshoots. */
  lemma {:induction false} FanSpeedApproaches(s: real, target: real, n: nat)
    ensures s <= target ==> s <= FanSpeedAfter(s, target, n) <= FanSpeedAfter(s, target, n + 1) <= target
    ensures target <= s ==> target <= FanSpeedAfter(s, target, n + 1) <= FanSpeedAfter(s, target, n) <= s
  {
    if n > 0 {
      FanSpeedApproaches(s, target, n - 1);
    }
  }

  /** The invariant every unit keeps: target and light follow the power flag, speed in [0, 0.2]. */
  ghost predicate Consistent(a: AcState)
  {
    && a.targetFanSpeed == TargetFor(a.isPoweredOn)
    && a.statusLightIntensity == LightFor(a.isPoweredOn)
    && 0.0 <= a.fanRotationSpeed <= OnFanSpeed
  }

  /** A unit as its constructor leaves it. */
  function Initial(): AcState { AcState(false, false, 0.0, 0.0, 0.0, 0.0, 0) }

  /** `setPowerStatus(on)`. */
  function SetPower(a: AcState, on: bool): (r: AcState)
    ensures Consistent(a) ==> Consistent(r)
    ensures r.isPoweredOn == on
  {
    a.(isPoweredOn := on, targetFanSpeed := TargetFor(on), statusLightIntensity := LightFor(on))
  }

  /** `update()`: fan speed eases to the target; rotation and particles advance once built. */
  function Tick(a: AcState): (r: AcState)
    ensures Consistent(a) ==> Consistent(r)
    ensures r.isPoweredOn == a.isPoweredOn && r.targetFanSpeed == a.targetFanSpeed
  {
    var speed := NextFanSpeed(a.fanRotationSpeed, a.targetFanSpeed);
    a.(fanRotationSpeed := speed,
       fanRotation := if a.created then a.fanRotation + speed else a.fanRotation,
       particleFrames := if a.created && a.isPoweredOn then a.particleFrames + 1 else a.particleFrames)
  }

  /** The rotation never runs backwards, and the particles only move while powered on. */
  lemma TickMonotone(a: AcState)
    requires Consistent(a)
    ensures Tick(a).fanRotation >= a.fanRotation
    ensures Tick(a).particleFrames > a.particleFrames <==> a.created && a.isPoweredOn
  {
  }

  /** After switching off, the fan spins down toward 0 and the light is dark. */
  lemma {:induction false} SwitchOffSpinsDown(a: AcState, n: nat)
    requires Consistent(a)
    ensures var off := SetPower(a, false);
      && off.statusLightIntensity == 0.0 && off.targetFanSpeed == 0.0
      && 0.0 <= FanSpeedAfter(off.fanRotationSpeed, 0.0, n + 1) <= FanSpeedAfter(off.fanRotationSpeed, 0.0, n)
  {
    var off := SetPower(a, false);
    FanSpeedApproaches(off.fanRotationSpeed, 0.0, n);
  }

  class AirConditioner {
    var isPoweredOn: bool
    /** `create()` has built the fan, status LED and light, and the particle system. */
    var created: bool
    var fanRotationSpeed: real
    var targetFanSpeed: real
    var fanRotation: real
    var statusLightIntensity: real
    var particleFrames: nat

    function State(): AcState
      reads this
    {
      AcState(isPoweredOn, created, fanRotationSpeed, targetFanSpeed, fanRotation,
              statusLightIntensity, particleFrames)
    }

    ghost predicate Valid()
      reads this
    {
      Consistent(State())
    }

    constructor ()
      ensures Valid() && State() == Initial()
    {
      isPoweredOn := false;
      created := false;
      fanRotationSpeed := 0.0;
      targetFanSpeed := 0.0;
      fanRotation := 0.0;
      statusLightIntensity := 0.0;
      particleFrames := 0;
    }

    /** `create()`: the status light starts dark; the power state is untouched. */
    method Create()
      requires Valid()
      modifies this
      ensures Valid() && State() == old(State()).(created := true)
    {
      created := true;
    }

    /** `setPowerStatus(isOn)`; it dereferences the parts `create()` builds. */
    method SetPowerStatus(isOn: bool)
      requires Valid() && created
      modifies this
      ensures Valid() && State() == SetPower(old(State()), isOn)
    {
      isPoweredOn := isOn;
      if isOn {
        targetFanSpeed := OnFanSpeed;
        statusLightIntensity := OnLightIntensity;
      } else {
        targetFanSpeed := 0.0;
        statusLightIntensity := 0.0;
      }
    }

    method GetPowerStatus() returns (r: bool)
      ensures r == isPoweredOn
    {
      r := isPoweredOn;
    }

    /** `update()`. */
    method Update()
      requires Valid()
      modifies this
      ensures Valid() && State() == Tick(old(State()))
    {
      fanRotationSpeed := Lerp(fanRotationSpeed, targetFanSpeed, FanEasing);
      if created {
        fanRotation := fanRotation + fanRotationSpeed;
      }
      if created && isPoweredOn {
        particleFrames := particleFrames + 1;
      }
    }
  }
}
