/** The Ball component: remembers its spawn pose on Awake and can be put
    back there, detached and simulated again. */
module Balls {
  import opened Engine

  /** Everything about a ball that the scripts read or write. The pose is
      the transform's pose relative to its parent (the world pose while
      `parent` is None). */
  datatype BallState = BallState(
    parent: Option<TransformId>,
    position: Vec3,
    rotation: Quat,
    localScale: Vec3,
    isKinematic: bool,
    linearVelocity: Vec3,
    angularVelocity: Vec3,
    spawnPosition: Vec3,
    spawnRotation: Quat)

  /** The state `ResetBall` leaves behind. Without a rigidbody the script
      stops with a null dereference right after detaching, so only the
      parent changes. */
  function Reset(s: BallState, hasRigidbody: bool): (r: BallState)
    ensures r.parent == None
    ensures r.spawnPosition == s.spawnPosition && r.spawnRotation == s.spawnRotation
    ensures r.localScale == s.localScale
    ensures hasRigidbody ==>
      && r.position == s.spawnPosition && r.rotation == s.spawnRotation
      && !r.isKinematic && r.linearVelocity == Zero && r.angularVelocity == Zero
    ensures !hasRigidbody ==> r == s.(parent := None)
  {
    if !hasRigidbody then s.(parent := None)
    else s.(parent := None, isKinematic := false, linearVelocity := Zero,
            angularVelocity := Zero, position := s.spawnPosition,
            rotation := s.spawnRotation)
  }

  /** Resetting is idempotent: a second reset changes nothing. */
  lemma ResetIdempotent(s: BallState, hasRigidbody: bool)
    ensures Reset(Reset(s, hasRigidbody), hasRigidbody) == Reset(s, hasRigidbody)
  {
  }

  class Ball {
    /** Whether the object carries a Rigidbody component. */
    const hasRigidbody: bool

    var parent: Option<TransformId>
    var position: Vec3
    var rotation: Quat
    var localScale: Vec3
    var isKinematic: bool
    var linearVelocity: Vec3
    var angularVelocity: Vec3
    var spawnPosition: Vec3
    var spawnRotation: Quat

    function State(): BallState
      reads this
    {
      BallState(parent, position, rotation, localScale, isKinematic,
                linearVelocity, angularVelocity, spawnPosition, spawnRotation)
    }

    /** A ball as placed in the scene, before its Awake has run; the spawn
        fields hold their default values. */
    constructor (hasRigidbody: bool, parent: Option<TransformId>, position: Vec3,
                 rotation: Quat, localScale: Vec3, isKinematic: bool)
      ensures this.hasRigidbody == hasRigidbody
      ensures State() == BallState(parent, position, rotation, localScale, isKinematic,
                                   Zero, Zero, Zero, Quat(0.0, 0.0, 0.0, 0.0))
    {
      this.hasRigidbody := hasRigidbody;
      this.parent := parent;
      this.position := position;
      this.rotation := rotation;
      this.localScale := localScale;
      this.isKinematic := isKinematic;
      linearVelocity := Zero;
      angularVelocity := Zero;
      spawnPosition := Zero;
      spawnRotation := Quat(0.0, 0.0, 0.0, 0.0);
    }

    /** Records the current pose as the spawn pose; nothing else changes. */
    method Awake()
      modifies this
      ensures spawnPosition == position && spawnRotation == rotation
      ensures State() == old(State()).(spawnPosition := position, spawnRotation := rotation)
    {
      spawnPosition := position;
      spawnRotation := rotation;
    }

    /** Detaches the ball, makes it simulated again with no velocity and
        puts it back at its spawn pose. */
    method ResetBall()
      modifies this
      ensures State() == Reset(old(State()), hasRigidbody)
      ensures parent == None
      ensures spawnPosition == old(spawnPosition) && spawnRotation == old(spawnRotation)
      ensures hasRigidbody ==>
        && position == spawnPosition && rotation == spawnRotation
        && !isKinematic && linearVelocity == Zero && angularVelocity == Zero
    {
      parent := None;
      if !hasRigidbody {
        // rb is null here: the next statement of the script throws
        return;
      }
      isKinematic := false;
      linearVelocity := Zero;
      angularVelocity := Zero;
      position, rotation := spawnPosition, spawnRotation;
    }
  }
}
