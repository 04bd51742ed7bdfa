/** The bouncy-ball enemy (`BouncyBallAI`): Idle and Alert states with a
    hysteresis band on the distance to the player, periodic bounces, and an
    alarm that wakes the linked balls. Bounce forces, the pull back toward the
    spawn point and the collision damage are physics and are not modelled; a
    bounce is reported by its (unnormalised) direction. */
module BouncyBall {
  import opened Common

  datatype BallState = Idle | Alert

  /** The inspector settings used by the state logic. */
  datatype BallTuning = BallTuning(detectionRange: real, idleBounceInterval: real, alertBounceInterval: real)

  /** What a frame reads: the distance to the player, the frame time, the
      normalised direction to the player and the three random draws of an
      idle bounce (in [-1, 1], [0.5, 1] and [-1, 1]). */
  datatype BallSense = BallSense(distance: real, deltaTime: real, towardPlayer: Vec3, randomDirection: Vec3)

  /** An alert ball goes back to Idle only beyond this distance. */
  function CalmDistance(t: BallTuning): real {
    t.detectionRange * 1.2
  }

  /** `HandleIdleBounce(interval, towardPlayer)`: the new bounce timer and the
      direction of the bounce, if one is due. */
  function Bounce(timer: real, interval: real, towardPlayer: bool, s: BallSense): (r: (real, Option<Vec3>))
    ensures r.1.Some? <==> timer >= interval
    ensures r.1.Some? ==> r.0 == 0.0
    ensures r.1.None? ==> r.0 == timer
    ensures r.1.Some? && !towardPlayer ==> r.1.value == s.randomDirection
    ensures r.1.Some? && towardPlayer ==> r.1.value == Vec3(s.towardPlayer.x, s.towardPlayer.y + 0.8, s.towardPlayer.z)
  {
    if timer >= interval then
      var dir := if towardPlayer then Vec3(s.towardPlayer.x, s.towardPlayer.y + 0.8, s.towardPlayer.z)
                 else s.randomDirection;
      (0.0, Some(dir))
    else (timer, None)
  }

  /** What one `Update` does: the new state, the new bounce timer, the bounce
      direction if any, and whether the other balls are alerted. */
  datatype BallStep = BallStep(state: BallState, bounceTimer: real, bounce: Option<Vec3>, alertOthers: bool)

  function BallTick(t: BallTuning, hasPlayer: bool, state: BallState, bounceTimer: real, s: BallSense): BallStep {
    if !hasPlayer then BallStep(state, bounceTimer, None, false)
    else
      var timer := bounceTimer + s.deltaTime;
      match state
      case Idle =>
        if s.distance < t.detectionRange then BallStep(Alert, timer, None, true)
        else var b := Bounce(timer, t.idleBounceInterval, false, s); BallStep(Idle, b.0, b.1, false)
      case Alert =>
        if s.distance > CalmDistance(t) then BallStep(Idle, timer, None, false)
        else var b := Bounce(timer, t.alertBounceInterval, true, s); BallStep(Alert, b.0, b.1, false)
  }

  /** Without a player nothing changes. */
  lemma NoPlayerNoChange(t: BallTuning, state: BallState, bounceTimer: real, s: BallSense)
    ensures BallTick(t, false, state, bounceTimer, s) == BallStep(state, bounceTimer, None, false)
  {
  }

  /** Hysteresis: an idle ball becomes alert exactly below the detection range,
      an alert one calms down exactly beyond 1.2 times that range, and the
      others are alerted exactly when this ball becomes alert. */
  lemma Hysteresis(t: BallTuning, state: BallState, bounceTimer: real, s: BallSense)
    ensures var r := BallTick(t, true, state, bounceTimer, s);
      && (state == Idle ==> (r.state == Alert <==> s.distance < t.detectionRange))
      && (state == Alert ==> (r.state == Idle <==> s.distance > t.detectionRange * 1.2))
      && (r.alertOthers <==> state == Idle && r.state == Alert)
  {
  }

  /** Between the two thresholds a ball keeps its state, whichever it is. */
  lemma BandKeepsState(t: BallTuning, state: BallState, bounceTimer: real, s: BallSense)
    requires t.detectionRange >= 0.0
    requires t.detectionRange <= s.distance <= t.detectionRange * 1.2
    ensures BallTick(t, true, state, bounceTimer, s).state == state
  {
  }

  /** The timer grows by the frame time; a bounce happens only on a frame that
      keeps the state and brings the timer to the state's interval, and it
      resets the timer. Idle bounces go in the random direction, alert bounces
      toward the player and upward. */
  lemma BounceRule(t: BallTuning, state: BallState, bounceTimer: real, s: BallSense)
    ensures var r := BallTick(t, true, state, bounceTimer, s);
      var interval := if state == Idle then t.idleBounceInterval else t.alertBounceInterval;
      && (r.bounce.Some? <==> r.state == state && bounceTimer + s.deltaTime >= interval)
      && (r.bounce.Some? ==> r.bounceTimer == 0.0)
      && (r.bounce.None? ==> r.bounceTimer == bounceTimer + s.deltaTime)
      && (r.bounce.Some? && state == Idle ==> r.bounce.value == s.randomDirection)
      && (r.bounce.Some? && state == Alert ==> r.bounce.value == Vec3(s.towardPlayer.x, s.towardPlayer.y + 0.8, s.towardPlayer.z))
  {
  }

  /** `BouncyBallAI`. */
  class Ball {
    const tuning: BallTuning
    /** `player != null` */
    var hasPlayer: bool
    var state: BallState
    var bounceTimer: real
    /** `otherBalls`; a slot may be empty. */
    var otherBalls: seq<Ball?>

    ghost function Others(): set<Ball>
      reads this
    {
      set i | 0 <= i < |otherBalls| && otherBalls[i] != null :: otherBalls[i]
    }

    /** The field initialisers. */
    constructor (tuning: BallTuning, hasPlayer: bool, otherBalls: seq<Ball?>)
      ensures this.tuning == tuning && this.hasPlayer == hasPlayer && this.otherBalls == otherBalls
      ensures state == Idle && bounceTimer == 0.0
    {
      this.tuning, this.hasPlayer, this.otherBalls := tuning, hasPlayer, otherBalls;
      state, bounceTimer := Idle, 0.0;
    }

    /** `AlertOthers`: every linked ball that is idle becomes alert; a linked
        ball that is alert already stays so, and nothing else changes. */
    method AlertOthers()
      modifies Others()`state
      ensures forall i :: 0 <= i < |otherBalls| && otherBalls[i] != null ==> otherBalls[i].state == Alert
      ensures forall b :: b in Others() ==> b.state == Alert
    {
      for i := 0 to |otherBalls|
        invariant forall j :: 0 <= j < i && otherBalls[j] != null ==> otherBalls[j].state == Alert
      {
        var ball := otherBalls[i];
        if ball != null && ball.state == Idle {
          ball.state := Alert;
        }
      }
    }

    /** `HandleIdleBounce(interval, towardPlayer)` */
    method HandleIdleBounce(interval: real, towardPlayer: bool, sense: BallSense) returns (bounce: Option<Vec3>)
      modifies this`bounceTimer
      ensures (bounceTimer, bounce) == Bounce(old(bounceTimer), interval, towardPlayer, sense)
    {
      bounce := None;
      if bounceTimer >= interval {
        bounceTimer := 0.0;
        var dir;
        if towardPlayer {
          dir := Vec3(sense.towardPlayer.x, sense.towardPlayer.y + 0.8, sense.towardPlayer.z);
        } else {
          dir := sense.randomDirection;
        }
        bounce := Some(dir);
      }
    }

    /** `Update`; returns the bounce direction, if any. */
    method Update(sense: BallSense) returns (bounce: Option<Vec3>)
      modifies this`state, this`bounceTimer, Others()`state
      ensures var r := BallTick(tuning, hasPlayer, old(state), old(bounceTimer), sense);
        && state == r.state && bounceTimer == r.bounceTimer && bounce == r.bounce
      ensures BallTick(tuning, hasPlayer, old(state), old(bounceTimer), sense).alertOthers ==>
        forall i :: 0 <= i < |otherBalls| && otherBalls[i] != null ==> otherBalls[i].state == Alert
      ensures !BallTick(tuning, hasPlayer, old(state), old(bounceTimer), sense).alertOthers ==>
        forall b :: b in Others() && b != this ==> b.state == old(b.state)
    {
      if !hasPlayer {
        return None;
      }
      bounceTimer := bounceTimer + sense.deltaTime;
      bounce := None;
      match state {
        case Idle =>
          if sense.distance < tuning.detectionRange {
            state := Alert;
            AlertOthers();
          } else {
            bounce := HandleIdleBounce(tuning.idleBounceInterval, false, sense);
          }
        case Alert =>
          if sense.distance > tuning.detectionRange * 1.2 {
            state := Idle;
          } else {
            bounce := HandleIdleBounce(tuning.alertBounceInterval, true, sense);
          }
      }
    }
  }
}
