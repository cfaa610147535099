/** The MouseLook component: while the right button is held the mouse's
    vertical motion tilts the camera, the pitch clamped to its bounds. */
module Looking {
  import opened Engine
  import opened Mathf

  class MouseLook {
    /** Whether a player body transform is assigned. */
    const hasPlayerBody: bool
    const sensitivity: real
    const minPitch: real
    const maxPitch: real

    var pitch: real
    var isLooking: bool
    /** The camera transform's local Euler angles. */
    var localEuler: Vec3
    /** How far the player body has been turned about its up axis, in degrees. */
    var bodyYaw: real

    constructor (hasPlayerBody: bool, sensitivity: real, minPitch: real, maxPitch: real, localEuler: Vec3)
      ensures this.hasPlayerBody == hasPlayerBody
      ensures this.sensitivity == sensitivity && this.minPitch == minPitch && this.maxPitch == maxPitch
      ensures this.localEuler == localEuler && pitch == 0.0 && !isLooking && bodyYaw == 0.0
    {
      this.hasPlayerBody := hasPlayerBody;
      this.sensitivity := sensitivity;
      this.minPitch := minPitch;
      this.maxPitch := maxPitch;
      this.localEuler := localEuler;
      pitch := 0.0;
      isLooking := false;
      bodyYaw := 0.0;
    }

    /** The pitch starts at the camera's local X angle, as it is (not clamped). */
    method Start()
      modifies this
      ensures pitch == localEuler.x
      ensures localEuler == old(localEuler) && isLooking == old(isLooking) && bodyYaw == old(bodyYaw)
    {
      pitch := localEuler.x;
    }

    /** The right button latches looking (a release in the same frame
        wins). While looking, the horizontal motion turns the player body
        and the vertical motion tilts the camera against it, clamped; the
        pitch becomes the camera's only local angle. Without a player body
        the frame stops with a null dereference before anything turns. */
    method Update(rmbDown: bool, rmbUp: bool, mouseX: real, mouseY: real, dt: real)
      modifies this
      ensures isLooking == (if rmbUp then false else if rmbDown then true else old(isLooking))
      ensures !isLooking || !hasPlayerBody ==>
        pitch == old(pitch) && localEuler == old(localEuler) && bodyYaw == old(bodyYaw)
      ensures isLooking && hasPlayerBody ==>
        && bodyYaw == old(bodyYaw) + mouseX * sensitivity * dt
        && pitch == Clamp(old(pitch) - mouseY * sensitivity * dt, minPitch, maxPitch)
        && localEuler == Vec3(pitch, 0.0, 0.0)
      ensures isLooking && hasPlayerBody && minPitch <= maxPitch ==> minPitch <= pitch <= maxPitch
      ensures minPitch <= maxPitch && minPitch <= old(pitch) <= maxPitch ==> minPitch <= pitch <= maxPitch
    {
      if rmbDown {
        isLooking := true;
      }
      if rmbUp {
        isLooking := false;
      }
      if !isLooking {
        return;
      }
      if !hasPlayerBody {
        // playerBody is null here: the script throws before turning anything
        return;
      }
      bodyYaw := bodyYaw + mouseX * sensitivity * dt;
      pitch := pitch - mouseY * sensitivity * dt;
      pitch := Clamp(pitch, minPitch, maxPitch);
      localEuler := Vec3(pitch, 0.0, 0.0);
    }
  }
}
