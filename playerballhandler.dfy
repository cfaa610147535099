/** The PlayerBallHandler component: pick up the nearest ball in reach,
    hold it (kinematic, optionally shrunk), charge a throw while the fire
    button is held, and throw or drop it; plus the charge bar readout. */
module BallHandling {
  import opened Engine
  import opened Mathf
  import opened Balls

  /** `float.MaxValue`, the scan's initial best distance. */
  const FloatMax: real := 340282346638528859811704183484516925440.0

  // ---------- Nearest-ball scan ----------

  /** A ball the scan may choose: still alive and carrying a rigidbody. */
  predicate Eligible(b: Ball?) {
    b != null && b.hasRigidbody
  }

  /** Index i is the scan's answer: an eligible ball closer than
      `float.MaxValue`, no farther than any eligible ball, and strictly
      closer than every eligible ball before it (earliest wins ties). */
  predicate IsNearest(balls: seq<Ball?>, distance: Ball -> real, i: nat) {
    && i < |balls| && Eligible(balls[i]) && distance(balls[i]) < FloatMax
    && (forall j :: 0 <= j < |balls| && Eligible(balls[j]) ==> distance(balls[i]) <= distance(balls[j]))
    && (forall j :: 0 <= j < i && Eligible(balls[j]) ==> distance(balls[i]) < distance(balls[j]))
  }

  /** The index the left-to-right scan settles on, if any. */
  function Nearest(balls: seq<Ball?>, distance: Ball -> real): (r: Option<nat>)
    ensures r.Some? ==> r.value < |balls| && Eligible(balls[r.value])
    ensures r.Some? ==> distance(balls[r.value]) < FloatMax
  {
    if |balls| == 0 then None
    else
      var k := |balls| - 1;
      var prev := Nearest(balls[..k], distance);
      var bestDist := if prev.Some? then distance(balls[prev.value]) else FloatMax;
      if Eligible(balls[k]) && distance(balls[k]) < bestDist then Some(k) else prev
  }

  /** The balls present in a scan, without the destroyed (null) entries. */
  function Present(balls: seq<Ball?>): set<Ball> {
    set b: Ball | b in balls
  }

  /** The ball `FindNearestBall` returns (null when there is none). */
  function NearestBall(balls: seq<Ball?>, distance: Ball -> real): Ball? {
    match Nearest(balls, distance)
    case None => null
    case Some(i) => balls[i]
  }

  /** The ball the scan returns is one of the scanned balls. */
  lemma NearestInScan(balls: seq<Ball?>, distance: Ball -> real)
    ensures NearestBall(balls, distance) != null ==> NearestBall(balls, distance) in balls
  {
  }

  /** What the scan settles on is the nearest eligible ball; it settles on
      nothing only when every eligible ball is at `float.MaxValue` or farther. */
  lemma {:induction false} NearestSound(balls: seq<Ball?>, distance: Ball -> real)
    ensures Nearest(balls, distance).Some? ==> IsNearest(balls, distance, Nearest(balls, distance).value)
    ensures Nearest(balls, distance).None? ==>
      forall j :: 0 <= j < |balls| && Eligible(balls[j]) ==> distance(balls[j]) >= FloatMax
  {
    if |balls| > 0 {
      var k := |balls| - 1;
      var init := balls[..k];
      NearestSound(init, distance);
      assert forall j :: 0 <= j < k ==> balls[j] == init[j];
    }
  }

  /** Two answers of the scan's characterization coincide. */
  lemma NearestUnique(balls: seq<Ball?>, distance: Ball -> real, i: nat, j: nat)
    requires IsNearest(balls, distance, i) && IsNearest(balls, distance, j)
    ensures i == j
  {
  }

  /** The scan's answer is exactly the nearest eligible ball, earliest on
      ties; there is none exactly when every eligible ball is at
      `float.MaxValue` or farther (in particular when there are no balls). */
  lemma NearestCharacterized(balls: seq<Ball?>, distance: Ball -> real, i: nat)
    ensures Nearest(balls, distance) == Some(i) <==> IsNearest(balls, distance, i)
    ensures Nearest(balls, distance).None? <==>
      forall j :: 0 <= j < |balls| && Eligible(balls[j]) ==> distance(balls[j]) >= FloatMax
  {
    NearestSound(balls, distance);
    if IsNearest(balls, distance, i) {
      NearestUnique(balls, distance, i, Nearest(balls, distance).value);
    }
  }

  // ---------- Throw force ----------

  /** Force gained per second of charging: the full range in
      `maxChargeTime` seconds (at least 0.01 seconds). */
  function ChargeRate(minForce: real, maxForce: real, maxChargeTime: real): real {
    (maxForce - minForce) / Max(0.01, maxChargeTime)
  }

  /** With ordered force bounds the force never decreases while charging. */
  lemma ChargeRateNonNegative(minForce: real, maxForce: real, maxChargeTime: real)
    requires minForce <= maxForce
    ensures ChargeRate(minForce, maxForce, maxChargeTime) >= 0.0
  {
    DivNonNegative(maxForce - minForce, Max(0.01, maxChargeTime));
  }

  /** Charging for `maxChargeTime` seconds (or 0.01, if it is shorter)
      covers exactly the range from the minimum to the maximum force. */
  lemma ChargeRateCoversRange(minForce: real, maxForce: real, maxChargeTime: real)
    ensures ChargeRate(minForce, maxForce, maxChargeTime) * Max(0.01, maxChargeTime) == maxForce - minForce
  {
  }

  /** The sum of a sequence of reals (frame durations, force gains). */
  function Total(xs: seq<real>): real {
    if |xs| == 0 then 0.0 else Total(xs[..|xs| - 1]) + xs[|xs| - 1]
  }

  lemma {:induction false} TotalNonNegative(xs: seq<real>)
    requires forall i :: 0 <= i < |xs| ==> xs[i] >= 0.0
    ensures Total(xs) >= 0.0
  {
    if |xs| > 0 {
      TotalNonNegative(xs[..|xs| - 1]);
    }
  }

  /** The force one held frame of duration dt adds at the given rate. */
  function Gain(rate: real, dt: real): real {
    rate * dt
  }

  /** `gains` are the force increments of held frames of the durations
      `frames` at the given rate, frame by frame. */
  ghost predicate GainsOf(rate: real, frames: seq<real>, gains: seq<real>) {
    |gains| == |frames| && forall i :: 0 <= i < |frames| ==> gains[i] == Gain(rate, frames[i])
  }

  /** One more held frame of duration dt contributes rate * dt. */
  lemma GainsOfSnoc(rate: real, frames: seq<real>, gains: seq<real>, dt: real)
    requires GainsOf(rate, frames, gains)
    ensures GainsOf(rate, frames + [dt], gains + [Gain(rate, dt)])
  {
    var frames', gains' := frames + [dt], gains + [Gain(rate, dt)];
    forall i | 0 <= i < |frames'|
      ensures gains'[i] == Gain(rate, frames'[i])
    {
      if i < |frames| {
        assert gains'[i] == gains[i] && frames'[i] == frames[i];
      }
    }
  }

  lemma GainsOfPrefix(rate: real, frames: seq<real>, gains: seq<real>)
    requires GainsOf(rate, frames, gains) && |frames| > 0
    ensures GainsOf(rate, frames[..|frames| - 1], gains[..|gains| - 1])
  {
  }

  /** The force after a charge started at `minForce` and then gained the
      given amounts frame by frame, clamping after every frame. */
  function ChargedForce(minForce: real, maxForce: real, gains: seq<real>): real {
    if |gains| == 0 then minForce
    else Clamp(ChargedForce(minForce, maxForce, gains[..|gains| - 1]) + gains[|gains| - 1], minForce, maxForce)
  }

  /** One more held frame adds its gain to the force and clamps again. */
  lemma ChargedForceSnoc(minForce: real, maxForce: real, gains: seq<real>, gain: real)
    ensures ChargedForce(minForce, maxForce, gains + [gain])
      == Clamp(ChargedForce(minForce, maxForce, gains) + gain, minForce, maxForce)
  {
    var gains' := gains + [gain];
    assert gains'[..|gains'| - 1] == gains;
  }

  /** With ordered bounds the charged force always lies between them. */
  lemma ChargedForceBounds(minForce: real, maxForce: real, gains: seq<real>)
    requires minForce <= maxForce
    ensures minForce <= ChargedForce(minForce, maxForce, gains) <= maxForce
  {
  }

  /** Clamping, adding a non-negative gain and clamping again is the same
      as adding the gain first, for values at or above the lower bound. */
  lemma ClampTwice(minForce: real, maxForce: real, v: real, gain: real)
    requires minForce <= maxForce && minForce <= v && gain >= 0.0
    ensures Clamp(Clamp(v, minForce, maxForce) + gain, minForce, maxForce) == Clamp(v + gain, minForce, maxForce)
  {
  }

  /** With non-negative gains, clamping every frame is the same as
      clamping once at the end. */
  lemma {:induction false} ChargedForceClampsOnce(minForce: real, maxForce: real, gains: seq<real>)
    requires minForce <= maxForce
    requires forall i :: 0 <= i < |gains| ==> gains[i] >= 0.0
    ensures ChargedForce(minForce, maxForce, gains) == Clamp(minForce + Total(gains), minForce, maxForce)
  {
    if |gains| > 0 {
      var init := gains[..|gains| - 1];
      ChargedForceClampsOnce(minForce, maxForce, init);
      TotalNonNegative(init);
      ClampTwice(minForce, maxForce, minForce + Total(init), gains[|gains| - 1]);
    }
  }

  lemma Distributes(r: real, a: real, b: real)
    ensures r * (a + b) == r * a + r * b
  {
  }

  /** The gains of the frames add up to the rate times the frames' total time. */
  lemma {:induction false} GainsTotal(rate: real, frames: seq<real>, gains: seq<real>)
    requires GainsOf(rate, frames, gains)
    ensures Total(gains) == rate * Total(frames)
  {
    if |frames| > 0 {
      var n := |frames| - 1;
      GainsOfPrefix(rate, frames, gains);
      GainsTotal(rate, frames[..n], gains[..n]);
      assert gains[n] == Gain(rate, frames[n]) == rate * frames[n];
      Distributes(rate, Total(frames[..n]), frames[n]);
    }
  }

  lemma GainsNonNegative(rate: real, frames: seq<real>, gains: seq<real>)
    requires GainsOf(rate, frames, gains) && rate >= 0.0
    requires forall i :: 0 <= i < |frames| ==> frames[i] >= 0.0
    ensures forall i :: 0 <= i < |gains| ==> gains[i] >= 0.0
  {
    forall i | 0 <= i < |gains|
      ensures gains[i] >= 0.0
    {
      MulNonNegative(rate, frames[i]);
    }
  }

  /** The clamped linear ramp from `minForce` at the given rate, after t seconds. */
  function LinearRamp(minForce: real, maxForce: real, rate: real, t: real): real {
    Clamp(minForce + rate * t, minForce, maxForce)
  }

  /** The force a charge with these settings has reached after t seconds,
      clamp(min + t * (max - min) / max(0.01, maxChargeTime), min, max). */
  function Ramp(minForce: real, maxForce: real, maxChargeTime: real, t: real): real {
    LinearRamp(minForce, maxForce, ChargeRate(minForce, maxForce, maxChargeTime), t)
  }

  /** Held at a non-negative rate, the force is the linear ramp from the
      minimum over the total time held, clamped once. */
  lemma RampClosedForm(minForce: real, maxForce: real, rate: real, frames: seq<real>, gains: seq<real>)
    requires minForce <= maxForce && rate >= 0.0
    requires forall i :: 0 <= i < |frames| ==> frames[i] >= 0.0
    requires GainsOf(rate, frames, gains)
    ensures ChargedForce(minForce, maxForce, gains) == LinearRamp(minForce, maxForce, rate, Total(frames))
  {
    GainsNonNegative(rate, frames, gains);
    ChargedForceClampsOnce(minForce, maxForce, gains);
    GainsTotal(rate, frames, gains);
  }

  /** For any held frames, with ordered force bounds the force equals the
      ramp over the total time held: clamping each frame changes nothing
      but the final clamp. */
  lemma ChargeClosedForm(minForce: real, maxForce: real, maxChargeTime: real, frames: seq<real>, gains: seq<real>)
    requires minForce <= maxForce
    requires forall i :: 0 <= i < |frames| ==> frames[i] >= 0.0
    requires GainsOf(ChargeRate(minForce, maxForce, maxChargeTime), frames, gains)
    ensures ChargedForce(minForce, maxForce, gains) == Ramp(minForce, maxForce, maxChargeTime, Total(frames))
  {
    var rate := ChargeRate(minForce, maxForce, maxChargeTime);
    ChargeRateNonNegative(minForce, maxForce, maxChargeTime);
    RampClosedForm(minForce, maxForce, rate, frames, gains);
  }

  /** The charge bar's fill: progress from the minimum to the maximum
      force, in [0, 1]. */
  function ChargeFill(force: real, minForce: real, maxForce: real): (r: real)
    ensures 0.0 <= r <= 1.0
    ensures force <= minForce ==> r == 0.0
    ensures maxForce - minForce >= 0.01 && force >= maxForce ==> r == 1.0
  {
    var denom := Max(0.01, maxForce - minForce);
    QuotientBounds(force - minForce, denom, maxForce - minForce);
    Clamp01((force - minForce) / denom)
  }

  lemma QuotientBounds(x: real, denom: real, range: real)
    requires denom > 0.0
    ensures x <= 0.0 ==> x / denom <= 0.0
    ensures range == denom && x >= range ==> x / denom >= 1.0
  {
    if x <= 0.0 {
      DivNonPositive(x, denom);
    }
    if range == denom && x >= range {
      DivAtLeastOne(x, denom);
    }
  }

  /** A ramp that has run for t of `maxChargeTime` seconds fills t / maxChargeTime of the bar. */
  lemma RampFill(minForce: real, maxForce: real, maxChargeTime: real, t: real)
    requires maxForce - minForce >= 0.01 && maxChargeTime >= 0.01
    requires 0.0 <= t <= maxChargeTime
    ensures ChargeFill(Ramp(minForce, maxForce, maxChargeTime, t), minForce, maxForce) == t / maxChargeTime
  {
    var range := maxForce - minForce;
    var frac := t / maxChargeTime;
    DivNonNegative(t, maxChargeTime);
    DivAtMostOne(t, maxChargeTime);
    MulDiv(range, t, maxChargeTime);
    assert ChargeRate(minForce, maxForce, maxChargeTime) * t == range * frac;
    MulNonNegative(range, frac);
    MulNonNegative(range, 1.0 - frac);
    MulDivCancel(range, frac);
  }

  /** With a charge time and a force range both at least the 0.01 floors,
      the bar fill is the fraction of `maxChargeTime` spent charging. */
  lemma FillTracksChargeTime(minForce: real, maxForce: real, maxChargeTime: real, frames: seq<real>, gains: seq<real>)
    requires maxForce - minForce >= 0.01 && maxChargeTime >= 0.01
    requires forall i :: 0 <= i < |frames| ==> frames[i] >= 0.0
    requires GainsOf(ChargeRate(minForce, maxForce, maxChargeTime), frames, gains)
    requires Total(frames) <= maxChargeTime
    ensures ChargeFill(ChargedForce(minForce, maxForce, gains), minForce, maxForce) == Total(frames) / maxChargeTime
  {
    ChargeClosedForm(minForce, maxForce, maxChargeTime, frames, gains);
    TotalNonNegative(frames);
    RampFill(minForce, maxForce, maxChargeTime, Total(frames));
  }

  /** With the default settings (forces 8 to 22 over 1.5 seconds), a
      charge held for 0.75 seconds has force 15 and fills half the bar. */
  lemma HalfChargeHalfFill()
    ensures Ramp(8.0, 22.0, 1.5, 0.75) == 15.0
    ensures ChargeFill(Ramp(8.0, 22.0, 1.5, 0.75), 8.0, 22.0) == 0.5
  {
  }

  // ---------- The component ----------

  class PlayerBallHandler {
    const pickupRange: real
    const minThrowForce: real
    const maxThrowForce: real
    const maxChargeTime: real
    const shrinkWhileHeld: bool
    const heldScaleFactor: real
    const uiFadeSpeed: real
    /** Whether the charge bar's CanvasGroup and fill Image are bound. */
    const hasChargeGroup: bool
    const hasFillImage: bool
    /** The hold anchor the held ball is parented to. */
    const holdPoint: TransformId

    var heldBall: Ball?
    var nearestBall: Ball?
    var savedOriginalScale: Vec3
    var isCharging: bool
    var currentThrowForce: real
    /** The charge bar's CanvasGroup alpha and Image fill amount. */
    var uiAlpha: real
    var uiFill: real
    /** Durations of the frames the fire button was held in the current
        charge, and the force each of them added. */
    ghost var chargeFrames: seq<real>
    ghost var chargeGains: seq<real>

    /** Charging only with a ball in hand; only rigidbody balls are picked
        up; while charging the force is the ramp over the held frames. */
    ghost predicate Valid()
      reads this
    {
      && (isCharging ==> heldBall != null)
      && (heldBall != null ==> heldBall.hasRigidbody)
      && (isCharging ==> currentThrowForce == ChargedForce(minThrowForce, maxThrowForce, chargeGains))
      && GainsOf(ChargeRate(minThrowForce, maxThrowForce, maxChargeTime), chargeFrames, chargeGains)
    }

    /** While charging (with ordered force bounds) the force lies in them. */
    lemma ForceInRange()
      requires Valid() && isCharging && minThrowForce <= maxThrowForce
      ensures minThrowForce <= currentThrowForce <= maxThrowForce
    {
      ChargedForceBounds(minThrowForce, maxThrowForce, chargeGains);
    }

    /** While charging, the force is the ramp over the time the button has
        been held, provided no frame time is negative. */
    lemma ForceIsRamp()
      requires Valid() && isCharging && minThrowForce <= maxThrowForce
      requires forall i :: 0 <= i < |chargeFrames| ==> chargeFrames[i] >= 0.0
      ensures currentThrowForce == Ramp(minThrowForce, maxThrowForce, maxChargeTime, Total(chargeFrames))
    {
      ChargeClosedForm(minThrowForce, maxThrowForce, maxChargeTime, chargeFrames, chargeGains);
    }

    constructor (pickupRange: real, minThrowForce: real, maxThrowForce: real, maxChargeTime: real,
                 shrinkWhileHeld: bool, heldScaleFactor: real, uiFadeSpeed: real,
                 hasChargeGroup: bool, hasFillImage: bool, holdPoint: TransformId,
                 uiAlpha: real, uiFill: real)
      ensures Valid() && heldBall == null && nearestBall == null && !isCharging
      ensures this.pickupRange == pickupRange && this.minThrowForce == minThrowForce
      ensures this.maxThrowForce == maxThrowForce && this.maxChargeTime == maxChargeTime
      ensures this.shrinkWhileHeld == shrinkWhileHeld && this.heldScaleFactor == heldScaleFactor
      ensures this.uiFadeSpeed == uiFadeSpeed && this.holdPoint == holdPoint
      ensures this.hasChargeGroup == hasChargeGroup && this.hasFillImage == hasFillImage
      ensures this.uiAlpha == uiAlpha && this.uiFill == uiFill
      ensures currentThrowForce == 0.0 && savedOriginalScale == Zero
    {
      this.pickupRange := pickupRange;
      this.minThrowForce := minThrowForce;
      this.maxThrowForce := maxThrowForce;
      this.maxChargeTime := maxChargeTime;
      this.shrinkWhileHeld := shrinkWhileHeld;
      this.heldScaleFactor := heldScaleFactor;
      this.uiFadeSpeed := uiFadeSpeed;
      this.hasChargeGroup := hasChargeGroup;
      this.hasFillImage := hasFillImage;
      this.holdPoint := holdPoint;
      this.uiAlpha := uiAlpha;
      this.uiFill := uiFill;
      heldBall := null;
      nearestBall := null;
      savedOriginalScale := Zero;
      isCharging := false;
      currentThrowForce := 0.0;
      chargeFrames := [];
      chargeGains := [];
    }

    /** Awake's effect on the charge bar: whichever parts are bound start empty. */
    method Awake()
      modifies this
      ensures uiAlpha == (if hasChargeGroup then 0.0 else old(uiAlpha))
      ensures uiFill == (if hasFillImage then 0.0 else old(uiFill))
      ensures heldBall == old(heldBall) && nearestBall == old(nearestBall) && isCharging == old(isCharging)
      ensures currentThrowForce == old(currentThrowForce) && savedOriginalScale == old(savedOriginalScale)
      ensures chargeFrames == old(chargeFrames) && chargeGains == old(chargeGains)
    {
      if hasChargeGroup {
        uiAlpha := 0.0;
      }
      if hasFillImage {
        uiFill := 0.0;
      }
    }

    /** What taking b into the hand does to it: it is held still and
        kinematic at the hold anchor's origin, its scale saved first and
        shrunk if configured. */
    twostate predicate Grabbed(b: Ball)
      reads this, b
    {
      && heldBall == b
      && savedOriginalScale == old(b.localScale)
      && b.localScale == (if shrinkWhileHeld then old(b.localScale).Scaled(heldScaleFactor) else old(b.localScale))
      && b.isKinematic && b.linearVelocity == Zero && b.angularVelocity == Zero
      && b.parent == Some(holdPoint) && b.position == Zero && b.rotation == Identity
      && b.spawnPosition == old(b.spawnPosition) && b.spawnRotation == old(b.spawnRotation)
    }

    /** What Pickup does to the ball it takes and to the handler. */
    twostate predicate PickedUp(b: Ball)
      reads this, b
    {
      && Grabbed(b)
      && isCharging == old(isCharging) && currentThrowForce == old(currentThrowForce)
      && chargeFrames == old(chargeFrames) && chargeGains == old(chargeGains)
    }

    /** What releasing the held ball b (by Drop or Throw) does to it: the
        saved scale comes back and it leaves the hold anchor. */
    twostate predicate Released(b: Ball)
      reads this, b
    {
      && b.localScale == old(savedOriginalScale)
      && b.parent == None
      && (b.hasRigidbody ==> !b.isKinematic)
      && b.spawnPosition == old(b.spawnPosition) && b.spawnRotation == old(b.spawnRotation)
      && heldBall == null
      && savedOriginalScale == old(savedOriginalScale)
    }

    /** What Drop does to the held ball b: released with its velocities as
        they were, and the charge cancelled. */
    twostate predicate Dropped(b: Ball)
      reads this, b
    {
      && Released(b) && !isCharging
      && b.linearVelocity == old(b.linearVelocity) && b.angularVelocity == old(b.angularVelocity)
      && currentThrowForce == old(currentThrowForce)
    }

    /** What Throw does to the held ball b: released, and given the launch
        direction times the force as its velocity, without spin. */
    twostate predicate Thrown(b: Ball, launchDir: Vec3, force: real)
      reads this, b
    {
      && Released(b)
      && (b.hasRigidbody ==> b.linearVelocity == launchDir.Scaled(force) && b.angularVelocity == Zero)
    }

    /** What one frame of the fire button does while b is in hand: a press
        restarts the charge at the minimum force, a held frame adds the
        charge rate times dt and clamps, and a release while charging
        throws at the force reached. */
    twostate predicate ChargeStep(b: Ball, fireDown: bool, fireHeld: bool, fireUp: bool, dt: real, launchDir: Vec3)
      reads this, b
    {
      var charging := old(isCharging) || fireDown;
      var held := charging && fireHeld;
      var frames := (if fireDown then [] else old(chargeFrames)) + (if held then [dt] else []);
      var gains := (if fireDown then [] else old(chargeGains))
                   + (if held then [Gain(ChargeRate(minThrowForce, maxThrowForce, maxChargeTime), dt)] else []);
      var force := if charging then ChargedForce(minThrowForce, maxThrowForce, gains) else old(currentThrowForce);
      && currentThrowForce == force
      && savedOriginalScale == old(savedOriginalScale)
      && (charging && fireUp ==> !isCharging && Thrown(b, launchDir, force))
      && (!(charging && fireUp) ==>
            && heldBall == b && unchanged(b)
            && isCharging == charging && (charging ==> chargeFrames == frames && chargeGains == gains))
    }

    /** What the charge bar shows after `UpdateChargeUI` with both parts
        bound: the charge progress while a ball is held and charging (empty
        otherwise), its alpha eased toward 1 while charging and toward 0
        otherwise. With a part missing nothing changes. */
    twostate predicate BarShown(dt: real)
      reads this
    {
      if hasChargeGroup && hasFillImage then
        var charging := heldBall != null && isCharging;
        && uiFill == (if charging then ChargeFill(currentThrowForce, minThrowForce, maxThrowForce) else 0.0)
        && uiAlpha == MoveTowards(old(uiAlpha), if charging then 1.0 else 0.0, uiFadeSpeed * dt)
      else
        uiAlpha == old(uiAlpha) && uiFill == old(uiFill)
    }

    /** Takes a ball with a rigidbody into the hand; anything else is ignored. */
    method Pickup(b: Ball?)
      requires Valid()
      modifies this, b
      ensures Valid()
      ensures Eligible(b) ==> PickedUp(b)
      ensures !Eligible(b) ==> unchanged(this)
      ensures b != null && !b.hasRigidbody ==> unchanged(b)
      ensures nearestBall == old(nearestBall) && uiAlpha == old(uiAlpha) && uiFill == old(uiFill)
    {
      if b == null {
        return;
      }
      if !b.hasRigidbody {
        return;
      }
      b.isKinematic := true;
      b.linearVelocity := Zero;
      b.angularVelocity := Zero;
      savedOriginalScale := b.localScale;
      if shrinkWhileHeld {
        b.localScale := savedOriginalScale.Scaled(heldScaleFactor);
      }
      b.parent := Some(holdPoint);
      b.position := Zero;
      b.rotation := Identity;
      heldBall := b;
    }

    /** Lets go of the held ball; with nothing held it changes nothing. */
    method Drop()
      requires Valid()
      modifies this, heldBall
      ensures Valid() && heldBall == null && !isCharging
      ensures old(heldBall) == null ==> unchanged(this)
      ensures old(heldBall) != null ==> Dropped(old(heldBall))
      ensures chargeFrames == old(chargeFrames) && chargeGains == old(chargeGains)
      ensures nearestBall == old(nearestBall) && uiAlpha == old(uiAlpha) && uiFill == old(uiFill)
    {
      if heldBall == null {
        return;
      }
      heldBall.localScale := savedOriginalScale;
      heldBall.parent := None;
      if heldBall.hasRigidbody {
        heldBall.isKinematic := false;
      }
      heldBall := null;
      isCharging := false;
    }

    /** Throws the held ball: released, and its velocity set to the launch
        direction times the force. `isCharging` is left to the caller. */
    method Throw(launchDir: Vec3, force: real)
      requires Valid()
      modifies this, heldBall
      ensures old(heldBall) == null ==> unchanged(this)
      ensures old(heldBall) != null ==> Thrown(old(heldBall), launchDir, force)
      ensures isCharging == old(isCharging) && currentThrowForce == old(currentThrowForce)
      ensures chargeFrames == old(chargeFrames) && chargeGains == old(chargeGains)
      ensures nearestBall == old(nearestBall) && uiAlpha == old(uiAlpha) && uiFill == old(uiFill)
    {
      if heldBall == null {
        return;
      }
      heldBall.localScale := savedOriginalScale;
      heldBall.parent := None;
      if heldBall.hasRigidbody {
        heldBall.isKinematic := false;
        // zeroed, then a velocity-change impulse of launchDir * force
        heldBall.linearVelocity := launchDir.Scaled(force);
        heldBall.angularVelocity := Zero;
      }
      heldBall := null;
    }

    /** The left-to-right scan for the nearest eligible ball. */
    method FindNearestBall(balls: seq<Ball?>, distance: Ball -> real) returns (best: Ball?)
      ensures best == NearestBall(balls, distance)
      ensures best != null ==> Eligible(best) && distance(best) < FloatMax
    {
      var bestDist := FloatMax;
      best := null;
      ghost var bestIndex: Option<nat> := None;
      var k := 0;
      while k < |balls|
        invariant 0 <= k <= |balls|
        invariant bestIndex == Nearest(balls[..k], distance)
        invariant bestIndex.None? ==> best == null && bestDist == FloatMax
        invariant bestIndex.Some? ==> bestIndex.value < k && best == balls[bestIndex.value]
                                      && best != null && bestDist == distance(best)
      {
        assert balls[..k + 1][..k] == balls[..k];
        var b := balls[k];
        if b != null && b.hasRigidbody {
          var d := distance(b);
          if d < bestDist {
            bestDist := d;
            best := b;
            bestIndex := Some(k);
          }
        }
        k := k + 1;
      }
      assert balls[..k] == balls;
    }

    /** E with empty hands: take the nearest eligible ball if it is within
        `pickupRange`; otherwise nothing happens. */
    method TryPickup(balls: seq<Ball?>, distance: Ball -> real)
      requires Valid()
      modifies this, balls
      ensures Valid()
      ensures var b := NearestBall(balls, distance);
        && (b == null || distance(b) > pickupRange ==> unchanged(this) && unchanged(Present(balls)))
        && (b != null && distance(b) <= pickupRange ==> PickedUp(b) && unchanged(Present(balls) - {b}))
      ensures nearestBall == old(nearestBall) && uiAlpha == old(uiAlpha) && uiFill == old(uiFill)
    {
      var best := FindNearestBall(balls, distance);
      if best == null {
        return;
      }
      var dist := distance(best);
      if dist > pickupRange {
        return;
      }
      Pickup(best);
    }

    /** The E key toggles: pick up when the hand is empty, drop otherwise. */
    method HandlePickupDrop(ePressed: bool, balls: seq<Ball?>, distance: Ball -> real)
      requires Valid()
      modifies this, heldBall, balls
      ensures Valid()
      ensures !ePressed ==>
        && unchanged(this) && unchanged(Present(balls))
        && (old(heldBall) != null ==> unchanged(old(heldBall)))
      ensures ePressed && old(heldBall) != null ==>
        && Dropped(old(heldBall))
        && chargeFrames == old(chargeFrames) && chargeGains == old(chargeGains)
        && unchanged(Present(balls) - {old(heldBall)})
      ensures ePressed && old(heldBall) == null ==>
        var b := NearestBall(balls, distance);
        && (b == null || distance(b) > pickupRange ==> unchanged(this) && unchanged(Present(balls)))
        && (b != null && distance(b) <= pickupRange ==> PickedUp(b) && unchanged(Present(balls) - {b}))
      ensures nearestBall == old(nearestBall) && uiAlpha == old(uiAlpha) && uiFill == old(uiFill)
    {
      if ePressed {
        if heldBall == null {
          TryPickup(balls, distance);
        } else {
          Drop();
        }
      }
    }

    /** The charging half of a frame with a ball in hand: a press starts a
        charge at the minimum force; while charging with the button held the
        force grows by the charge rate times the frame time and is clamped. */
    method ChargeFrame(fireDown: bool, fireHeld: bool, dt: real)
      requires Valid() && heldBall != null
      modifies this
      ensures Valid()
      ensures var charging := old(isCharging) || fireDown;
        var held := charging && fireHeld;
        var frames := (if fireDown then [] else old(chargeFrames)) + (if held then [dt] else []);
        var gains := (if fireDown then [] else old(chargeGains))
                     + (if held then [Gain(ChargeRate(minThrowForce, maxThrowForce, maxChargeTime), dt)] else []);
        && isCharging == charging
        && (charging ==> chargeFrames == frames && chargeGains == gains
                         && currentThrowForce == ChargedForce(minThrowForce, maxThrowForce, gains))
        && (!charging ==> currentThrowForce == old(currentThrowForce)
                          && chargeFrames == old(chargeFrames) && chargeGains == old(chargeGains))
      ensures heldBall == old(heldBall) && savedOriginalScale == old(savedOriginalScale)
      ensures nearestBall == old(nearestBall) && uiAlpha == old(uiAlpha) && uiFill == old(uiFill)
    {
      if fireDown {
        isCharging := true;
        currentThrowForce := minThrowForce;
        chargeFrames, chargeGains := [], [];
      }
      if isCharging && fireHeld {
        var chargeRate := ChargeRate(minThrowForce, maxThrowForce, maxChargeTime);
        ChargedForceSnoc(minThrowForce, maxThrowForce, chargeGains, Gain(chargeRate, dt));
        GainsOfSnoc(chargeRate, chargeFrames, chargeGains, dt);
        currentThrowForce := currentThrowForce + Gain(chargeRate, dt);
        currentThrowForce := Clamp(currentThrowForce, minThrowForce, maxThrowForce);
        chargeFrames, chargeGains := chargeFrames + [dt], chargeGains + [Gain(chargeRate, dt)];
      }
    }

    /** One frame of the fire button: press starts a charge at the minimum
        force, holding ramps it, release throws. Without a ball in hand
        the charge is cancelled and nothing else happens. */
    method HandleChargeAndThrow(fireDown: bool, fireHeld: bool, fireUp: bool, dt: real, launchDir: Vec3)
      requires Valid()
      modifies this, heldBall
      ensures Valid()
      ensures old(heldBall) == null ==>
        && heldBall == null && !isCharging
        && currentThrowForce == old(currentThrowForce) && savedOriginalScale == old(savedOriginalScale)
        && chargeFrames == old(chargeFrames) && chargeGains == old(chargeGains)
      ensures old(heldBall) != null ==> ChargeStep(old(heldBall), fireDown, fireHeld, fireUp, dt, launchDir)
      ensures heldBall == null || heldBall == old(heldBall)
      ensures nearestBall == old(nearestBall) && uiAlpha == old(uiAlpha) && uiFill == old(uiFill)
    {
      if heldBall == null {
        isCharging := false;
        return;
      }
      ChargeFrame(fireDown, fireHeld, dt);
      if isCharging && fireUp {
        Throw(launchDir, currentThrowForce);
        isCharging := false;
      }
    }

    /** The input half of a frame: the E toggle, then the fire button. */
    method ToggleAndCharge(ePressed: bool, fireDown: bool, fireHeld: bool, fireUp: bool, dt: real,
                           launchDir: Vec3, balls: seq<Ball?>, distance: Ball -> real)
      requires Valid()
      modifies this, heldBall, balls
      ensures Valid()
      ensures !ePressed && old(heldBall) == null ==>
        && heldBall == null && !isCharging && currentThrowForce == old(currentThrowForce)
        && savedOriginalScale == old(savedOriginalScale)
        && unchanged(Present(balls))
      ensures !ePressed && old(heldBall) != null ==>
        && ChargeStep(old(heldBall), fireDown, fireHeld, fireUp, dt, launchDir)
        && unchanged(Present(balls) - {old(heldBall)})
      ensures ePressed && old(heldBall) != null ==>
        && Dropped(old(heldBall))
        && unchanged(Present(balls) - {old(heldBall)})
      ensures ePressed && old(heldBall) == null ==>
        var b := NearestBall(balls, distance);
        && (b == null || distance(b) > pickupRange ==>
              && heldBall == null && !isCharging && currentThrowForce == old(currentThrowForce)
              && savedOriginalScale == old(savedOriginalScale)
              && unchanged(Present(balls)))
        && (b != null && distance(b) <= pickupRange ==>
              var gains := if fireHeld then [Gain(ChargeRate(minThrowForce, maxThrowForce, maxChargeTime), dt)] else [];
              var force := if fireDown then ChargedForce(minThrowForce, maxThrowForce, gains) else old(currentThrowForce);
              && currentThrowForce == force
              && savedOriginalScale == old(b.localScale)
              && unchanged(Present(balls) - {b})
              && (fireDown && fireUp ==>
                    && heldBall == null && !isCharging
                    && b.localScale == old(b.localScale) && b.parent == None && !b.isKinematic
                    && b.linearVelocity == launchDir.Scaled(force) && b.angularVelocity == Zero
                    && b.spawnPosition == old(b.spawnPosition) && b.spawnRotation == old(b.spawnRotation))
              && (!(fireDown && fireUp) ==> Grabbed(b) && isCharging == fireDown))
      ensures nearestBall == old(nearestBall) && uiAlpha == old(uiAlpha) && uiFill == old(uiFill)
    {
      HandlePickupDrop(ePressed, balls, distance);
      NearestInScan(balls, distance);
      HandleChargeAndThrow(fireDown, fireHeld, fireUp, dt, launchDir);
    }

    /** One frame of the component: the E toggle, the fire button, the
        nearest-ball scan for the pickup hint, then the charge bar. */
    method Update(ePressed: bool, fireDown: bool, fireHeld: bool, fireUp: bool, dt: real,
                  launchDir: Vec3, balls: seq<Ball?>, distance: Ball -> real)
      requires Valid()
      modifies this, heldBall, balls
      ensures Valid()
      ensures nearestBall == NearestBall(balls, distance)
      ensures BarShown(dt)
      ensures !ePressed && old(heldBall) == null ==>
        && heldBall == null && !isCharging && currentThrowForce == old(currentThrowForce)
        && savedOriginalScale == old(savedOriginalScale)
        && unchanged(Present(balls))
      ensures !ePressed && old(heldBall) != null ==>
        && ChargeStep(old(heldBall), fireDown, fireHeld, fireUp, dt, launchDir)
        && unchanged(Present(balls) - {old(heldBall)})
      ensures ePressed && old(heldBall) != null ==>
        && Dropped(old(heldBall))
        && unchanged(Present(balls) - {old(heldBall)})
      ensures ePressed && old(heldBall) == null ==>
        var b := NearestBall(balls, distance);
        && (b == null || distance(b) > pickupRange ==>
              && heldBall == null && !isCharging && currentThrowForce == old(currentThrowForce)
              && savedOriginalScale == old(savedOriginalScale)
              && unchanged(Present(balls)))
        && (b != null && distance(b) <= pickupRange ==>
              var gains := if fireHeld then [Gain(ChargeRate(minThrowForce, maxThrowForce, maxChargeTime), dt)] else [];
              var force := if fireDown then ChargedForce(minThrowForce, maxThrowForce, gains) else old(currentThrowForce);
              && currentThrowForce == force
              && savedOriginalScale == old(b.localScale)
              && unchanged(Present(balls) - {b})
              && (fireDown && fireUp ==>
                    && heldBall == null && !isCharging
                    && b.localScale == old(b.localScale) && b.parent == None && !b.isKinematic
                    && b.linearVelocity == launchDir.Scaled(force) && b.angularVelocity == Zero
                    && b.spawnPosition == old(b.spawnPosition) && b.spawnRotation == old(b.spawnRotation))
              && (!(fireDown && fireUp) ==> Grabbed(b) && isCharging == fireDown))
    {
      ToggleAndCharge(ePressed, fireDown, fireHeld, fireUp, dt, launchDir, balls, distance);
      nearestBall := FindNearestBall(balls, distance);
      UpdateChargeUI(dt);
    }

    /** The charge bar: filled by the charge progress while a ball is held
        and charging (empty otherwise), its alpha eased toward 1 while
        charging and toward 0 otherwise. Needs both UI parts bound. */
    method UpdateChargeUI(dt: real)
      requires Valid()
      modifies this
      ensures Valid()
      ensures BarShown(dt)
      ensures !(hasChargeGroup && hasFillImage) ==> unchanged(this)
      ensures 0.0 <= uiFill <= 1.0 || !(hasChargeGroup && hasFillImage)
      ensures heldBall == old(heldBall) && isCharging == old(isCharging)
      ensures currentThrowForce == old(currentThrowForce) && savedOriginalScale == old(savedOriginalScale)
      ensures nearestBall == old(nearestBall) && chargeFrames == old(chargeFrames) && chargeGains == old(chargeGains)
    {
      if !hasChargeGroup || !hasFillImage {
        return;
      }
      var targetAlpha := 0.0;
      var fill := 0.0;
      if heldBall != null && isCharging {
        fill := ChargeFill(currentThrowForce, minThrowForce, maxThrowForce);
        targetAlpha := 1.0;
      }
      uiFill := fill;
      uiAlpha := MoveTowards(uiAlpha, targetAlpha, uiFadeSpeed * dt);
    }
  }

  /** A ball picked up and dropped again gets its own scale back, is
      simulated again and lies still; the hand is empty and not charging. */
  method PickupThenDrop(h: PlayerBallHandler, b: Ball)
    requires h.Valid() && h.heldBall == null && Eligible(b)
    modifies h, b
    ensures h.Valid() && h.heldBall == null && !h.isCharging
    ensures b.localScale == old(b.localScale) && !b.isKinematic && b.parent == None
    ensures b.linearVelocity == Zero && b.angularVelocity == Zero
    ensures b.spawnPosition == old(b.spawnPosition) && b.spawnRotation == old(b.spawnRotation)
  {
    h.Pickup(b);
    h.Drop();
  }

  /** The saved scale survives frames of charging without a release and
      charge bar updates: dropping afterwards still restores it. */
  method PickupHoldDrop(h: PlayerBallHandler, b: Ball, fireDown: bool, fireHeld: bool, dt: real, launchDir: Vec3)
    requires h.Valid() && h.heldBall == null && Eligible(b)
    modifies h, b
    ensures h.Valid() && h.heldBall == null && !h.isCharging
    ensures b.localScale == old(b.localScale) && !b.isKinematic && b.parent == None
    ensures b.linearVelocity == Zero && b.angularVelocity == Zero
  {
    h.Pickup(b);
    h.HandleChargeAndThrow(fireDown, fireHeld, false, dt, launchDir);
    h.UpdateChargeUI(dt);
    h.HandleChargeAndThrow(false, fireHeld, false, dt, launchDir);
    h.UpdateChargeUI(dt);
    h.Drop();
  }
}
