/** Fall damage (`FallDetector`): the vertical speed of the player is
    measured every frame from the change in height; while airborne the
    lowest (most negative) speed is kept, and on the first grounded frame a
    fall faster than the threshold costs one point of health. The ground
    raycast is an input of each frame. */
module FallDamage {
  import opened Common
  import PlayerHealth

  /** The default `fallSpeedThreshold`: a downward speed of 5 units a second. */
  const DefaultFallSpeedThreshold: real := -5.0
  /** The damage of a hard landing. */
  const FallDamageAmount: real := 1.0

  datatype FallVars = FallVars(lastY: real, isInAir: bool, maxFallVelocity: real)

  /** A frame: the player's height, `Time.deltaTime` and the raycast result. */
  datatype Frame = Frame(currentY: real, deltaTime: real, grounded: bool)

  /** The detector's invariant: the kept speed is never upward, and it is
      reset whenever the player is on the ground. */
  predicate Settled(v: FallVars) {
    v.maxFallVelocity <= 0.0 && (!v.isInAir ==> v.maxFallVelocity == 0.0)
  }

  /** The state right after a landing (and at start). */
  predicate Landed(v: FallVars) {
    !v.isInAir && v.maxFallVelocity == 0.0
  }

  /** `(currentY - lastY) / Time.deltaTime` */
  function VerticalSpeed(lastY: real, f: Frame): real
    requires f.deltaTime != 0.0
  {
    (f.currentY - lastY) / f.deltaTime
  }

  /** One `Update`: the new variables and whether fall damage is dealt. */
  function FallTick(threshold: real, v: FallVars, f: Frame): (r: (FallVars, bool))
    requires f.deltaTime != 0.0
    ensures r.0.lastY == f.currentY
    ensures Settled(v) ==> Settled(r.0)
    ensures r.1 <==> f.grounded && v.isInAir && v.maxFallVelocity < threshold
    ensures f.grounded && v.isInAir ==> Landed(r.0)
    ensures f.grounded && !v.isInAir ==> r == (v.(lastY := f.currentY), false)
    ensures !f.grounded ==> r.0.isInAir && r.0.maxFallVelocity <= v.maxFallVelocity
                            && r.0.maxFallVelocity <= VerticalSpeed(v.lastY, f)
  {
    var speed := VerticalSpeed(v.lastY, f);
    if !f.grounded then (FallVars(f.currentY, true, Min(v.maxFallVelocity, speed)), false)
    else if v.isInAir then (FallVars(f.currentY, false, 0.0), v.maxFallVelocity < threshold)
    else (v.(lastY := f.currentY), false)
  }

  predicate NonZeroTimes(frames: seq<Frame>) {
    forall i :: 0 <= i < |frames| ==> frames[i].deltaTime != 0.0
  }

  predicate Airborne(frames: seq<Frame>) {
    forall i :: 0 <= i < |frames| ==> !frames[i].grounded
  }

  /** The detector after a run of frames. */
  function FallRun(threshold: real, v: FallVars, frames: seq<Frame>): FallVars
    requires NonZeroTimes(frames)
    decreases |frames|
  {
    if frames == [] then v
    else FallTick(threshold, FallRun(threshold, v, frames[..|frames| - 1]), frames[|frames| - 1]).0
  }

  /** The vertical speed measured on each frame of a run starting at height
      `lastY`. */
  function Speeds(lastY: real, frames: seq<Frame>): (s: seq<real>)
    requires NonZeroTimes(frames)
    ensures |s| == |frames|
    decreases |frames|
  {
    if frames == [] then []
    else
      var prefix := frames[..|frames| - 1];
      var heightBefore := if prefix == [] then lastY else prefix[|prefix| - 1].currentY;
      Speeds(lastY, prefix) + [VerticalSpeed(heightBefore, frames[|frames| - 1])]
  }

  /** The smallest of `start` and the speeds. */
  function Lowest(start: real, speeds: seq<real>): real
    decreases |speeds|
  {
    if speeds == [] then start else Min(Lowest(start, speeds[..|speeds| - 1]), speeds[|speeds| - 1])
  }

  /** `Lowest` is below a bound exactly when its start or one of the speeds is. */
  lemma {:induction false} LowestBelow(start: real, speeds: seq<real>, bound: real)
    ensures Lowest(start, speeds) < bound <==> start < bound || exists i :: 0 <= i < |speeds| && speeds[i] < bound
    decreases |speeds|
  {
    if speeds != [] {
      var prefix := speeds[..|speeds| - 1];
      LowestBelow(start, prefix, bound);
      if exists i :: 0 <= i < |speeds| && speeds[i] < bound {
        var i :| 0 <= i < |speeds| && speeds[i] < bound;
        if i < |prefix| {
          assert prefix[i] == speeds[i];
        }
      }
      if exists i :: 0 <= i < |prefix| && prefix[i] < bound {
        var i :| 0 <= i < |prefix| && prefix[i] < bound;
        assert speeds[i] == prefix[i];
      }
    }
  }

  /** While airborne the detector keeps the lowest speed seen, deals no damage
      and ends in the air, at the height of the last frame. */
  lemma {:induction false} AirborneKeepsLowest(threshold: real, v: FallVars, frames: seq<Frame>)
    requires NonZeroTimes(frames) && Airborne(frames) && frames != []
    ensures var r := FallRun(threshold, v, frames);
      && r.isInAir && r.lastY == frames[|frames| - 1].currentY
      && r.maxFallVelocity == Lowest(v.maxFallVelocity, Speeds(v.lastY, frames))
    decreases |frames|
  {
    var prefix := frames[..|frames| - 1];
    if prefix != [] {
      AirborneKeepsLowest(threshold, v, prefix);
    }
    var s := Speeds(v.lastY, frames);
    assert s[..|s| - 1] == Speeds(v.lastY, prefix);
  }

  /** No frame deals damage except the first grounded frame after an airborne
      one. */
  lemma DamageOnlyOnLanding(threshold: real, v: FallVars, f: Frame)
    requires f.deltaTime != 0.0
    requires !f.grounded || !v.isInAir
    ensures !FallTick(threshold, v, f).1
  {
  }

  /** A jump or fall from the ground: after a stretch of airborne frames the
      first grounded frame deals damage exactly when the threshold is above
      zero or some frame of the stretch fell faster than the threshold, and it
      leaves the detector landed again. */
  lemma LandingDamage(threshold: real, v: FallVars, frames: seq<Frame>, landing: Frame)
    requires Landed(v)
    requires NonZeroTimes(frames) && Airborne(frames) && frames != []
    requires landing.deltaTime != 0.0 && landing.grounded
    ensures var r := FallTick(threshold, FallRun(threshold, v, frames), landing);
      var speeds := Speeds(v.lastY, frames);
      && (r.1 <==> threshold > 0.0 || exists i :: 0 <= i < |speeds| && speeds[i] < threshold)
      && Landed(r.0)
  {
    AirborneKeepsLowest(threshold, v, frames);
    LowestBelow(0.0, Speeds(v.lastY, frames), threshold);
  }

  /** `FallDetector`. */
  class FallDetector {
    const fallSpeedThreshold: real
    var isInAir: bool
    var lastY: real
    var maxFallVelocity: real

    function Vars(): FallVars
      reads this
    {
      FallVars(lastY, isInAir, maxFallVelocity)
    }

    ghost predicate Valid()
      reads this
    {
      Settled(Vars())
    }

    /** The field initialisers. */
    constructor (fallSpeedThreshold: real)
      ensures Valid() && Landed(Vars()) && this.fallSpeedThreshold == fallSpeedThreshold
    {
      this.fallSpeedThreshold := fallSpeedThreshold;
      isInAir, lastY, maxFallVelocity := false, 0.0, 0.0;
    }

    /** `Start`: remember the starting height. */
    method Start(y: real)
      modifies this`lastY
      ensures Vars() == old(Vars()).(lastY := y)
    {
      lastY := y;
    }

    /** `Update`; a hard landing calls `TakeDamage(1)` on the player's stats
        and returns the events that call reported. */
    method Update(f: Frame, stats: PlayerHealth.PlayerStats) returns (damaged: Option<seq<PlayerHealth.StatsEvent>>)
      requires Valid() && f.deltaTime != 0.0
      modifies this, stats`health, stats`isDead
      ensures Valid()
      ensures (Vars(), damaged.Some?) == FallTick(fallSpeedThreshold, old(Vars()), f)
      ensures damaged.Some? ==>
        (stats.Current(), damaged.value) == PlayerHealth.DamageStep(old(stats.Current()), FallDamageAmount, stats.hasGameManager)
      ensures damaged.None? ==> stats.Current() == old(stats.Current())
    {
      var deltaY := (f.currentY - lastY) / f.deltaTime;
      lastY := f.currentY;
      damaged := None;
      if !f.grounded {
        isInAir := true;
        maxFallVelocity := Min(maxFallVelocity, deltaY);
      } else if isInAir {
        if maxFallVelocity < fallSpeedThreshold {
          var events := stats.TakeDamage(FallDamageAmount);
          damaged := Some(events);
        }
        maxFallVelocity := 0.0;
        isInAir := false;
      }
    }
  }
}
