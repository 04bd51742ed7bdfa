/** The player's movement script (`PlayerMovementFreeLook` in
    `PlayerController.cs`): the gear pick-up power-ups (speed and eye-light),
    the knockback impulse, and freezing, during which only gravity acts. The
    engine's cursor, which freezing releases, is an object shared with the
    game manager. The free-moving branch of `Update` (camera-relative input,
    jumping, knockback decay, animation) is not modelled. */
module PlayerMovement {
  import opened Common

  /** Unity's global `Cursor`: visible or not, locked or not. */
  class Cursor {
    var visible: bool
    var locked: bool

    constructor (visible: bool, locked: bool)
      ensures this.visible == visible && this.locked == locked
    {
      this.visible, this.locked := visible, locked;
    }
  }

  /** The game object of a collider the player touches: whether it is tagged
      "PickUp", and its `activeSelf` flag. */
  class SceneObject {
    const isPickUp: bool
    var active: bool

    constructor (isPickUp: bool)
      ensures this.isPickUp == isPickUp && active
    {
      this.isPickUp := isPickUp;
      active := true;
    }
  }

  /** The spotlight on the player's eye. */
  datatype Spotlight = Spotlight(intensity: real, spotAngle: real)

  /** The inspector settings of the pick-up power-ups. */
  datatype Boosts = Boosts(
    speedBoostAmt: real, maxSpeedBoost: real,
    lightIncrease: real, maxSpotlightIntensity: real,
    angleIncrease: real, maxSpotlightAngle: real)

  /** The defaults of the inspector settings. */
  const DefaultBoosts := Boosts(0.01, 3.0, 100.0, 600.0, 10.0, 90.0)

  /** What a gear changes: the count, the two speeds and the light. */
  datatype Gear = Gear(totalCollected: int, walkSpeed: real, runSpeed: real, light: Option<Spotlight>)

  /** `collectGear`. With both speed lines present, each speed rises by the
      boost, but by no more than `maxSpeedBoost` above its current value; the
      light, when there is one, brightens and widens up to its maxima. */
  function GearAfterPickUp(b: Boosts, hasSpeedLines: bool, g: Gear): (r: Gear)
    ensures r.totalCollected == g.totalCollected + 1
    ensures hasSpeedLines && b.maxSpeedBoost > 0.0 ==>
      r.walkSpeed == g.walkSpeed + Min(b.speedBoostAmt, b.maxSpeedBoost)
      && r.runSpeed == g.runSpeed + Min(b.speedBoostAmt, b.maxSpeedBoost)
    ensures !hasSpeedLines || b.maxSpeedBoost <= 0.0 ==> r.walkSpeed == g.walkSpeed && r.runSpeed == g.runSpeed
    ensures r.light.Some? == g.light.Some?
    ensures r.light.Some? ==>
      && r.light.value.intensity <= b.maxSpotlightIntensity
      && r.light.value.spotAngle <= b.maxSpotlightAngle
      && (g.light.value.intensity + b.lightIncrease <= b.maxSpotlightIntensity ==>
            r.light.value.intensity == g.light.value.intensity + b.lightIncrease)
      && (g.light.value.spotAngle + b.angleIncrease <= b.maxSpotlightAngle ==>
            r.light.value.spotAngle == g.light.value.spotAngle + b.angleIncrease)
  {
    var count := g.totalCollected + 1;
    var speeds :=
      if hasSpeedLines && g.walkSpeed < g.walkSpeed + b.maxSpeedBoost then
        (Min(g.walkSpeed + b.speedBoostAmt, g.walkSpeed + b.maxSpeedBoost),
         Min(g.runSpeed + b.speedBoostAmt, g.runSpeed + b.maxSpeedBoost))
      else (g.walkSpeed, g.runSpeed);
    var light := if g.light.Some? then Some(Brighten(b, g.light.value)) else None;
    Gear(count, speeds.0, speeds.1, light)
  }

  /** `k` gears in a row. */
  function CollectMany(b: Boosts, hasSpeedLines: bool, g: Gear, k: nat): Gear
    decreases k
  {
    if k == 0 then g else GearAfterPickUp(b, hasSpeedLines, CollectMany(b, hasSpeedLines, g, k - 1))
  }

  /** One gear's effect on the eye light. */
  function Brighten(b: Boosts, s: Spotlight): Spotlight {
    Spotlight(Min(s.intensity + b.lightIncrease, b.maxSpotlightIntensity),
              Min(s.spotAngle + b.angleIncrease, b.maxSpotlightAngle))
  }

  function BrightenMany(b: Boosts, s: Spotlight, k: nat): Spotlight
    decreases k
  {
    if k == 0 then s else Brighten(b, BrightenMany(b, s, k - 1))
  }

  /** Gears change the count by one each and the light only through the
      light settings. */
  lemma {:induction false} GearsAndLight(b: Boosts, hasSpeedLines: bool, g: Gear, k: nat)
    ensures var r := CollectMany(b, hasSpeedLines, g, k);
      && r.totalCollected == g.totalCollected + k
      && r.light == (if g.light.Some? then Some(BrightenMany(b, g.light.value, k)) else None)
    decreases k
  {
    if k > 0 {
      GearsAndLight(b, hasSpeedLines, g, k - 1);
    }
  }

  /** `k` capped increases of `x` by `d`, capped at `m` each time. */
  function RaiseCapped(x: real, d: real, m: real, k: nat): real
    decreases k
  {
    if k == 0 then x else Min(RaiseCapped(x, d, m, k - 1) + d, m)
  }

  /** The light's two components are raised independently. */
  lemma {:induction false} BrightenComponents(b: Boosts, s: Spotlight, k: nat)
    ensures BrightenMany(b, s, k).intensity == RaiseCapped(s.intensity, b.lightIncrease, b.maxSpotlightIntensity, k)
    ensures BrightenMany(b, s, k).spotAngle == RaiseCapped(s.spotAngle, b.angleIncrease, b.maxSpotlightAngle, k)
    decreases k
  {
    if k > 0 {
      BrightenComponents(b, s, k - 1);
    }
  }

  /** `k` uncapped increases of `x` by `d`. */
  function Raise(x: real, d: real, k: nat): real
    decreases k
  {
    if k == 0 then x else Raise(x, d, k - 1) + d
  }

  lemma {:induction false} RaiseIsProduct(x: real, d: real, k: nat)
    ensures Raise(x, d, k) == x + k as real * d
    decreases k
  {
    if k > 0 {
      RaiseIsProduct(x, d, k - 1);
      var j := (k - 1) as real;
      assert k as real * d == j * d + d;
    }
  }

  /** Capping after every increase is capping once, when `d >= 0`. */
  lemma {:induction false} RaiseCappedOnce(x: real, d: real, m: real, k: nat)
    requires d >= 0.0 && k >= 1
    ensures RaiseCapped(x, d, m, k) == Min(Raise(x, d, k), m)
    decreases k
  {
    if k > 1 {
      RaiseCappedOnce(x, d, m, k - 1);
    }
  }

  /** After `k` gears the count is up by `k`, and the light is `k` increases
      brighter and wider (`Raise`, which is `x + k * d`), capped at its maxima. */
  lemma ManyGears(b: Boosts, hasSpeedLines: bool, g: Gear, k: nat)
    requires b.lightIncrease >= 0.0 && b.angleIncrease >= 0.0
    ensures var r := CollectMany(b, hasSpeedLines, g, k);
      && r.totalCollected == g.totalCollected + k
      && r.light.Some? == g.light.Some?
      && (k >= 1 && g.light.Some? ==>
            r.light.value.intensity == Min(Raise(g.light.value.intensity, b.lightIncrease, k), b.maxSpotlightIntensity)
            && r.light.value.spotAngle == Min(Raise(g.light.value.spotAngle, b.angleIncrease, k), b.maxSpotlightAngle))
  {
    GearsAndLight(b, hasSpeedLines, g, k);
    if k >= 1 && g.light.Some? {
      var b0 := g.light.value;
      var lit := CollectMany(b, hasSpeedLines, g, k).light.value;
      assert lit == BrightenMany(b, b0, k);
      BrightenComponents(b, b0, k);
      RaiseCappedOnce(b0.intensity, b.lightIncrease, b.maxSpotlightIntensity, k);
      RaiseCappedOnce(b0.spotAngle, b.angleIncrease, b.maxSpotlightAngle, k);
    }
  }

  /** The speed cap is relative to the speed at the moment of the pick-up, so
      it never binds overall: with both speed lines and positive boosts the
      walking speed after `k` gears is `k` boosts above where it began, and
      enough gears exceed any bound. */
  lemma {:induction false} SpeedGrowsWithoutBound(b: Boosts, g: Gear, k: nat)
    requires b.speedBoostAmt > 0.0 && b.maxSpeedBoost > 0.0
    ensures var r := CollectMany(b, true, g, k);
      && r.walkSpeed == g.walkSpeed + k as real * Min(b.speedBoostAmt, b.maxSpeedBoost)
      && r.runSpeed == g.runSpeed + k as real * Min(b.speedBoostAmt, b.maxSpeedBoost)
    decreases k
  {
    if k > 0 {
      SpeedGrowsWithoutBound(b, g, k - 1);
    }
  }

  /** Enough gears take the walking speed past any bound. */
  lemma SpeedExceedsAnyBound(b: Boosts, g: Gear, bound: real)
    requires b.speedBoostAmt > 0.0 && b.maxSpeedBoost > 0.0
    ensures exists k: nat :: CollectMany(b, true, g, k).walkSpeed > bound
  {
    var m := Min(b.speedBoostAmt, b.maxSpeedBoost);
    var gap := bound - g.walkSpeed;
    var q := gap / m;
    var k: nat := if q < 0.0 then 0 else q.Floor + 1;
    SpeedGrowsWithoutBound(b, g, k);
    ScaledPast(k as real, q, m, gap);
    assert CollectMany(b, true, g, k).walkSpeed == g.walkSpeed + k as real * m;
  }

  lemma ScaledPast(x: real, q: real, m: real, gap: real)
    requires m > 0.0 && q == gap / m && x > q
    ensures x * m > gap
  {
    assert q * m == gap;
    assert (x - q) * m > 0.0;
  }

  /** `ApplyKnockback(direction, force)`: the impulse is the horizontal part of
      the direction, normalised (`normal`), times the force. */
  function Knockback(normal: Vec3, force: real): (k: Vec3)
    ensures k.y == normal.y * force
  {
    Scale(normal, force)
  }

  /** A normalised horizontal direction has no vertical part, so neither has
      the knockback. */
  lemma KnockbackIsHorizontal(direction: Vec3, normal: Vec3, force: real)
    requires NormalOf(normal, Horizontal(direction))
    ensures Knockback(normal, force).y == 0.0
  {
    if normal != Zero {
      var k: real :| k > 0.0 && normal == Scale(Horizontal(direction), k) && SqrMagnitude(normal) == 1.0;
    }
  }

  /** The frozen branch of `Update`: on the ground nothing moves; in the air
      gravity accelerates the body downward and it moves by one frame of its
      velocity. Returns the new velocity and the displacement, if any. */
  function FrozenTick(moveDirection: Vec3, gravity: real, deltaTime: real, grounded: bool): (r: (Vec3, Option<Vec3>))
    ensures grounded ==> r == (moveDirection, None)
    ensures !grounded ==> r.0 == moveDirection.(y := moveDirection.y - gravity * deltaTime)
                          && r.1 == Some(Scale(r.0, deltaTime))
    ensures r.0.x == moveDirection.x && r.0.z == moveDirection.z
  {
    if grounded then (moveDirection, None)
    else
      var fallen := moveDirection.(y := moveDirection.y - gravity * deltaTime);
      (fallen, Some(Scale(fallen, deltaTime)))
  }

  /** A frozen body with positive gravity and frame time only ever falls
      faster. */
  lemma FrozenFallsFaster(moveDirection: Vec3, gravity: real, deltaTime: real)
    requires gravity > 0.0 && deltaTime > 0.0
    ensures FrozenTick(moveDirection, gravity, deltaTime, false).0.y < moveDirection.y
  {
  }

  /** `PlayerMovementFreeLook`. */
  class PlayerMovementFreeLook {
    const boosts: Boosts
    const gravity: real
    /** `speedLine1 != null && speedLine2 != null` */
    const hasSpeedLines: bool
    var walkSpeed: real
    var runSpeed: real
    var totalCollected: int
    var light: Option<Spotlight>
    var canMove: bool
    var knockback: Vec3
    var moveDirection: Vec3

    function GearState(): Gear
      reads this
    {
      Gear(totalCollected, walkSpeed, runSpeed, light)
    }

    /** The field initialisers. */
    constructor (boosts: Boosts, gravity: real, hasSpeedLines: bool, walkSpeed: real, runSpeed: real,
                 light: Option<Spotlight>)
      ensures this.boosts == boosts && this.gravity == gravity && this.hasSpeedLines == hasSpeedLines
      ensures GearState() == Gear(0, walkSpeed, runSpeed, light)
      ensures canMove && knockback == Zero && moveDirection == Zero
    {
      this.boosts, this.gravity, this.hasSpeedLines := boosts, gravity, hasSpeedLines;
      this.walkSpeed, this.runSpeed, this.light := walkSpeed, runSpeed, light;
      totalCollected, canMove, knockback, moveDirection := 0, true, Zero, Zero;
    }

    /** `freezeMovement`: the player stops and the cursor is released for the
        UI. */
    method FreezeMovement(cursor: Cursor)
      modifies this`canMove, cursor
      ensures !canMove && cursor.visible && !cursor.locked
    {
      canMove := false;
      cursor.locked := false;
      cursor.visible := true;
    }

    /** `unfreezeMovement`: the player moves again and the cursor is captured. */
    method UnfreezeMovement(cursor: Cursor)
      modifies this`canMove, cursor
      ensures canMove && !cursor.visible && cursor.locked
    {
      canMove := true;
      cursor.locked := true;
      cursor.visible := false;
    }

    /** `collectGear` */
    method CollectGear()
      modifies this`totalCollected, this`walkSpeed, this`runSpeed, this`light
      ensures GearState() == GearAfterPickUp(boosts, hasSpeedLines, old(GearState()))
    {
      totalCollected := totalCollected + 1;
      if hasSpeedLines {
        if walkSpeed < walkSpeed + boosts.maxSpeedBoost {
          walkSpeed := Min(walkSpeed + boosts.speedBoostAmt, walkSpeed + boosts.maxSpeedBoost);
          runSpeed := Min(runSpeed + boosts.speedBoostAmt, runSpeed + boosts.maxSpeedBoost);
        }
      }
      if light.Some? {
        var intensity := Min(light.value.intensity + boosts.lightIncrease, boosts.maxSpotlightIntensity);
        var angle := Min(light.value.spotAngle + boosts.angleIncrease, boosts.maxSpotlightAngle);
        light := Some(Spotlight(intensity, angle));
      }
    }

    /** `OnTriggerEnter`: a collider tagged "PickUp" is a gear; it is collected
        and its game object deactivated, so it disappears from the level. */
    method OnTriggerEnter(other: SceneObject)
      modifies this`totalCollected, this`walkSpeed, this`runSpeed, this`light, other`active
      ensures other.isPickUp ==> GearState() == GearAfterPickUp(boosts, hasSpeedLines, old(GearState())) && !other.active
      ensures !other.isPickUp ==> GearState() == old(GearState()) && other.active == old(other.active)
    {
      if other.isPickUp {
        CollectGear();
        other.active := false;
      }
    }

    /** `ApplyKnockback`; `normal` is what `normalized` gives for the
        direction with its vertical part removed. */
    method ApplyKnockback(direction: Vec3, force: real, normal: Vec3)
      requires NormalOf(normal, Horizontal(direction))
      modifies this`knockback
      ensures knockback == Knockback(normal, force) && knockback.y == 0.0
    {
      knockback := Scale(normal, force);
      KnockbackIsHorizontal(direction, normal, force);
    }

    /** `Update` while frozen (`canMove` false), given the controller's ground
        test; returns the displacement passed to `Move`, if any. */
    method FrozenUpdate(deltaTime: real, grounded: bool) returns (moved: Option<Vec3>)
      requires !canMove
      modifies this`moveDirection
      ensures (moveDirection, moved) == FrozenTick(old(moveDirection), gravity, deltaTime, grounded)
    {
      moved := None;
      if !grounded {
        moveDirection := moveDirection.(y := moveDirection.y - gravity * deltaTime);
        moved := Some(Scale(moveDirection, deltaTime));
      }
    }
  }
}
