/** The chase state of the table enemy (`ChaseState`): run at the player, hit
    when close enough, then hold back for a cooldown. Distance and direction to
    the player are inputs of each frame; the material colour cue is not
    modelled. */
module EnemyChase {
  import opened Common

  /** Damage of one hit, passed to `PlayerStats.TakeDamage`. */
  const HitDamage := 0.2

  /** The inspector settings. */
  datatype ChaseTuning = ChaseTuning(chaseSpeed: real, hitRadius: real, cooldownTime: real, knockbackForce: real)

  /** What a frame reads: the distance to the player, the normalised direction
      from enemy to player, whether the player has a `PlayerMovementFreeLook`
      to push, and the frame time. */
  datatype ChaseSense = ChaseSense(distance: real, towardPlayer: Vec3, playerCanBePushed: bool, deltaTime: real)

  /** What a frame does to the world. */
  datatype Outcome =
    | Nothing                                             // no player known
    | CoolingDown                                         // waiting after a hit
    | Strike(damage: real, knockback: Option<(Vec3, real)>) // hit, with push direction and force
    | Pursue(direction: Vec3, step: real)                 // move toward the player

  /** One `UpdateState`: the new `cooldownTimer` and what the enemy did. */
  function ChaseTick(t: ChaseTuning, hasPlayer: bool, cooldownTimer: real, s: ChaseSense): (r: (real, Outcome))
  {
    if !hasPlayer then (cooldownTimer, Nothing)
    else if cooldownTimer > 0.0 then (cooldownTimer - s.deltaTime, CoolingDown)
    else if s.distance <= t.hitRadius then
      var push := if s.playerCanBePushed then Some((Horizontal(s.towardPlayer), t.knockbackForce)) else None;
      (t.cooldownTime, Strike(HitDamage, push))
    else (cooldownTimer, Pursue(s.towardPlayer, t.chaseSpeed * s.deltaTime))
  }

  /** A hit happens exactly when a player is known, the cooldown is over and
      the player is within the hit radius; it deals one hit of 0.2, pushes
      horizontally with the knockback force when the player can be pushed, and
      restarts the cooldown. A frame that is not a hit leaves the cooldown or
      only counts it down. */
  lemma StrikeRule(t: ChaseTuning, hasPlayer: bool, cooldownTimer: real, s: ChaseSense)
    ensures var r := ChaseTick(t, hasPlayer, cooldownTimer, s);
      && (r.1.Strike? <==> hasPlayer && cooldownTimer <= 0.0 && s.distance <= t.hitRadius)
      && (r.1.Strike? ==> r.0 == t.cooldownTime && r.1.damage == HitDamage)
      && (r.1.Strike? ==> (r.1.knockback.Some? <==> s.playerCanBePushed))
      && (r.1.Strike? && r.1.knockback.Some? ==>
            r.1.knockback.value.0.y == 0.0 && r.1.knockback.value.1 == t.knockbackForce)
      && (r.1.CoolingDown? <==> hasPlayer && cooldownTimer > 0.0)
      && (r.1.CoolingDown? ==> r.0 == cooldownTimer - s.deltaTime)
      && (r.1.Nothing? || r.1.Pursue? ==> r.0 == cooldownTimer)
  {
  }

  function SumDeltaTime(frames: seq<ChaseSense>): real
    decreases |frames|
  {
    if frames == [] then 0.0 else SumDeltaTime(frames[..|frames| - 1]) + frames[|frames| - 1].deltaTime
  }

  /** The frames `frames` in a row, from the cooldown `cooldownTimer`: the final
      cooldown and every frame's outcome. */
  function ChaseRun(t: ChaseTuning, hasPlayer: bool, cooldownTimer: real, frames: seq<ChaseSense>): (r: (real, seq<Outcome>))
    ensures |r.1| == |frames|
    decreases |frames|
  {
    if frames == [] then (cooldownTimer, [])
    else
      var before := ChaseRun(t, hasPlayer, cooldownTimer, frames[..|frames| - 1]);
      var last := ChaseTick(t, hasPlayer, before.0, frames[|frames| - 1]);
      (last.0, before.1 + [last.1])
  }

  /** After a hit the cooldown is `cooldownTime`: over any run of frames whose
      times add up to less than that, the enemy strikes no second time, only
      cools down. */
  lemma {:induction false} NoStrikeWithinCooldown(t: ChaseTuning, cooldownTimer: real, frames: seq<ChaseSense>)
    requires forall i :: 0 <= i < |frames| ==> frames[i].deltaTime >= 0.0
    requires SumDeltaTime(frames) < cooldownTimer
    ensures ChaseRun(t, true, cooldownTimer, frames).0 == cooldownTimer - SumDeltaTime(frames)
    ensures forall i :: 0 <= i < |frames| ==> ChaseRun(t, true, cooldownTimer, frames).1[i] == CoolingDown
    decreases |frames|
  {
    if frames != [] {
      var front := frames[..|frames| - 1];
      var last := frames[|frames| - 1];
      assert forall i :: 0 <= i < |front| ==> front[i].deltaTime >= 0.0 by {
        forall i | 0 <= i < |front| ensures front[i].deltaTime >= 0.0 {
          assert front[i] == frames[i];
        }
      }
      NoStrikeWithinCooldown(t, cooldownTimer, front);
      var before := ChaseRun(t, true, cooldownTimer, front);
      assert before.0 == cooldownTimer - SumDeltaTime(front);
      assert before.0 > 0.0;
    }
  }

  /** `ChaseState`. */
  class ChaseState {
    const tuning: ChaseTuning
    /** `playerTransform != null` */
    var hasPlayer: bool
    var cooldownTimer: real

    /** The field initialisers. */
    constructor (tuning: ChaseTuning)
      ensures this.tuning == tuning && !hasPlayer && cooldownTimer == 0.0
    {
      this.tuning := tuning;
      hasPlayer, cooldownTimer := false, 0.0;
    }

    /** `EnterState`: remember the player if one is found now, and clear the
        cooldown so that a re-entered chase may hit at once. */
    method EnterState(playerFound: bool)
      modifies this
      ensures hasPlayer == (old(hasPlayer) || playerFound)
      ensures cooldownTimer == 0.0
    {
      if playerFound {
        hasPlayer := true;
      }
      cooldownTimer := 0.0;
    }

    /** `UpdateState` */
    method UpdateState(sense: ChaseSense) returns (outcome: Outcome)
      modifies this`cooldownTimer
      ensures (cooldownTimer, outcome) == ChaseTick(tuning, hasPlayer, old(cooldownTimer), sense)
    {
      if !hasPlayer {
        return Nothing;
      }
      if cooldownTimer > 0.0 {
        cooldownTimer := cooldownTimer - sense.deltaTime;
        return CoolingDown;
      }
      if sense.distance <= tuning.hitRadius {
        var push := None;
        if sense.playerCanBePushed {
          var knockbackDir := sense.towardPlayer;
          knockbackDir := knockbackDir.(y := 0.0);
          push := Some((knockbackDir, tuning.knockbackForce));
        }
        cooldownTimer := tuning.cooldownTime;
        return Strike(HitDamage, push);
      }
      outcome := Pursue(sense.towardPlayer, tuning.chaseSpeed * sense.deltaTime);
      assert ChaseTick(tuning, hasPlayer, old(cooldownTimer), sense).1.step == outcome.step;
    }
  }
}
