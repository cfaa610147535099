/** The OrbitCamera component's input and zoom state: a right-button
    rotation latch that skips the first frame after locking, target angles
    driven by the mouse (pitch clamped), and a zoom distance clamped to its
    range and eased towards. The orbit itself (smoothing and placement) is
    not part of this model. */
module Orbit {
  import opened Engine
  import opened Mathf

  class OrbitCamera {
    /** Whether a target transform is assigned. */
    const hasTarget: bool
    const distance: real
    const minDistance: real
    const maxDistance: real
    const zoomSpeed: real
    const rotationSpeed: real
    const minPitch: real
    const maxPitch: real

    /** The Behaviour's `enabled` flag. */
    var enabled: bool
    /** The camera's rotation as Euler angles, as `Start` reads it. */
    var euler: Vec3
    var yaw: real
    var pitch: real
    var targetYaw: real
    var targetPitch: real
    var desiredDistance: real
    var currentDistance: real
    var isRotating: bool
    var justLocked: bool

    /** A camera as placed in the scene, before `Start`; the private
        fields hold their default values. */
    constructor (hasTarget: bool, distance: real, minDistance: real, maxDistance: real,
                 zoomSpeed: real, rotationSpeed: real, minPitch: real, maxPitch: real, euler: Vec3)
      ensures this.hasTarget == hasTarget && this.distance == distance
      ensures this.minDistance == minDistance && this.maxDistance == maxDistance
      ensures this.zoomSpeed == zoomSpeed && this.rotationSpeed == rotationSpeed
      ensures this.minPitch == minPitch && this.maxPitch == maxPitch
      ensures enabled && this.euler == euler && !isRotating && !justLocked
      ensures yaw == 0.0 && pitch == 0.0 && targetYaw == 0.0 && targetPitch == 0.0
      ensures desiredDistance == 0.0 && currentDistance == 0.0
    {
      this.hasTarget := hasTarget;
      this.distance := distance;
      this.minDistance := minDistance;
      this.maxDistance := maxDistance;
      this.zoomSpeed := zoomSpeed;
      this.rotationSpeed := rotationSpeed;
      this.minPitch := minPitch;
      this.maxPitch := maxPitch;
      this.euler := euler;
      enabled := true;
      yaw, pitch, targetYaw, targetPitch := 0.0, 0.0, 0.0, 0.0;
      desiredDistance, currentDistance := 0.0, 0.0;
      isRotating, justLocked := false, false;
    }

    /** Without a target the component switches itself off. Otherwise the
        angles start at the camera's current Euler angles (the pitch is
        copied as it is, not clamped) and both distances at `distance`. */
    method Start()
      modifies this
      ensures !hasTarget ==>
        && !enabled && yaw == old(yaw) && pitch == old(pitch)
        && targetYaw == old(targetYaw) && targetPitch == old(targetPitch)
        && desiredDistance == old(desiredDistance) && currentDistance == old(currentDistance)
      ensures hasTarget ==>
        && enabled == old(enabled)
        && yaw == targetYaw == euler.y && pitch == targetPitch == euler.x
        && desiredDistance == currentDistance == distance
      ensures euler == old(euler) && isRotating == old(isRotating) && justLocked == old(justLocked)
    {
      if !hasTarget {
        enabled := false;
        return;
      }
      yaw, targetYaw := euler.y, euler.y;
      pitch, targetPitch := euler.x, euler.x;
      desiredDistance := distance;
      currentDistance := distance;
    }

    /** What one frame of input does to the rotation state: the right
        button latches rotation (a release in the same frame wins); the
        first rotating frame after a press is skipped; after that the mouse
        turns the target yaw and the clamped target pitch. */
    twostate predicate Steered(rmbDown: bool, rmbUp: bool, mouseX: real, mouseY: real, dt: real)
      reads this
    {
      var locked := rmbDown || old(justLocked);
      && isRotating == (if rmbUp then false else if rmbDown then true else old(isRotating))
      && (!isRotating ==> targetYaw == old(targetYaw) && targetPitch == old(targetPitch) && justLocked == locked)
      && (isRotating && locked ==> targetYaw == old(targetYaw) && targetPitch == old(targetPitch) && !justLocked)
      && (isRotating && !locked ==>
            && targetYaw == old(targetYaw) + mouseX * rotationSpeed * dt
            && targetPitch == Clamp(old(targetPitch) - mouseY * rotationSpeed * dt, minPitch, maxPitch)
            && !justLocked)
    }

    /** What one frame of zoom does to the distances: a scroll beyond the
        dead zone moves the desired distance, clamped to its range; the
        current distance moves towards it by the blend factor. */
    twostate predicate Zoomed(scroll: real, blend: real)
      reads this
    {
      && desiredDistance == (if Abs(scroll) > 0.0001
        then Clamp(old(desiredDistance) - scroll * zoomSpeed, minDistance, maxDistance)
        else old(desiredDistance))
      && currentDistance == Lerp(old(currentDistance), desiredDistance, blend)
    }

    /** The right button latches rotation (a release in the same frame
        wins); the first rotating frame after a press is skipped; after
        that the mouse turns the target yaw and the clamped target pitch. */
    method HandleInput(rmbDown: bool, rmbUp: bool, mouseX: real, mouseY: real, dt: real)
      modifies this
      ensures Steered(rmbDown, rmbUp, mouseX, mouseY, dt)
      ensures minPitch <= maxPitch && minPitch <= old(targetPitch) <= maxPitch ==> minPitch <= targetPitch <= maxPitch
      ensures yaw == old(yaw) && pitch == old(pitch) && euler == old(euler) && enabled == old(enabled)
      ensures desiredDistance == old(desiredDistance) && currentDistance == old(currentDistance)
    {
      if rmbDown {
        isRotating := true;
        justLocked := true;
      }
      if rmbUp {
        isRotating := false;
      }
      if !isRotating {
        return;
      }
      if justLocked {
        justLocked := false;
        return;
      }
      targetYaw := targetYaw + mouseX * rotationSpeed * dt;
      targetPitch := targetPitch - mouseY * rotationSpeed * dt;
      targetPitch := Clamp(targetPitch, minPitch, maxPitch);
    }

    /** A scroll beyond the dead zone moves the desired distance (clamped to
        its range); the current distance then moves towards it by the blend
        factor `blend`, standing for 1 - exp(-zoomSmoothTime * dt * 60). */
    method UpdateZoom(scroll: real, blend: real)
      modifies this
      ensures Zoomed(scroll, blend)
      ensures Between(old(currentDistance), desiredDistance, currentDistance)
      ensures minDistance <= maxDistance && (Abs(scroll) > 0.0001 || minDistance <= old(desiredDistance) <= maxDistance)
        ==> minDistance <= desiredDistance <= maxDistance
      ensures yaw == old(yaw) && pitch == old(pitch) && targetYaw == old(targetYaw) && targetPitch == old(targetPitch)
      ensures isRotating == old(isRotating) && justLocked == old(justLocked)
      ensures euler == old(euler) && enabled == old(enabled)
    {
      if Abs(scroll) > 0.0001 {
        desiredDistance := desiredDistance - scroll * zoomSpeed;
        desiredDistance := Clamp(desiredDistance, minDistance, maxDistance);
      }
      currentDistance := Lerp(currentDistance, desiredDistance, blend);
    }

    /** One late update: nothing without a target; otherwise input, then
        zoom (the orbit placement that follows is not modelled). */
    method LateUpdate(rmbDown: bool, rmbUp: bool, mouseX: real, mouseY: real, dt: real,
                      scroll: real, blend: real)
      modifies this
      ensures !hasTarget ==> unchanged(this)
      ensures hasTarget ==>
        && Steered(rmbDown, rmbUp, mouseX, mouseY, dt) && Zoomed(scroll, blend)
        && Between(old(currentDistance), desiredDistance, currentDistance)
        && yaw == old(yaw) && pitch == old(pitch) && euler == old(euler) && enabled == old(enabled)
      ensures hasTarget && minPitch <= maxPitch && minPitch <= old(targetPitch) <= maxPitch
        ==> minPitch <= targetPitch <= maxPitch
      ensures hasTarget && minDistance <= maxDistance && minDistance <= old(desiredDistance) <= maxDistance
        ==> minDistance <= desiredDistance <= maxDistance
    {
      if !hasTarget {
        return;
      }
      HandleInput(rmbDown, rmbUp, mouseX, mouseY, dt);
      UpdateZoom(scroll, blend);
    }
  }
}
