/** The controller of the table enemy (`EnemyFSMController`): each frame it
    decides between patrolling and chasing, gated by an off-table timer that
    blocks chasing for a while after the player was at another height, and
    then runs the current state. The two state objects are the models of
    `PatrolState` and `ChaseState`; a missing one is `null`. */
module EnemyFsm {
  import opened Common
  import opened EnemyPatrol
  import opened EnemyChase

  /** `offTableCooldown`: seconds chasing stays blocked after a height mismatch. */
  const OffTableCooldown := 1.5

  /** The player counts as on the table when the heights differ by less than this. */
  const SameHeightTolerance := 0.5

  /** What `currentState` refers to. */
  datatype StateRef = NoState | PatrolRef | ChaseRef

  /** A call on a state object, for the order in which they happen. */
  datatype Call = Exit(exited: StateRef) | Enter(entered: StateRef) | UpdateOf(updated: StateRef)

  /** What a frame reads: the distance to the player, the player's height minus
      the enemy's, the frame time, whether a player object is found now (by a
      chase that is entered), the distance from the enemy to its current patrol
      point, the normalised direction toward the player and whether the player
      can be pushed. */
  datatype FsmSense = FsmSense(
    distance: real, heightDifference: real, deltaTime: real, playerFound: bool,
    patrolPointDistance: real, towardPlayer: Vec3, playerCanBePushed: bool)

  function ChaseSenseOf(s: FsmSense): ChaseSense {
    ChaseSense(s.distance, s.towardPlayer, s.playerCanBePushed, s.deltaTime)
  }

  function Abs(x: real): (a: real)
    ensures a >= 0.0 && (a == x || a == -x)
  {
    if x < 0.0 then -x else x
  }

  predicate SameHeight(s: FsmSense) {
    Abs(s.heightDifference) < SameHeightTolerance
  }

  /** The off-table timer after a frame's countdown and reset. */
  function NextOffTableTimer(timer: real, s: FsmSense): (r: real)
    ensures !SameHeight(s) ==> r == OffTableCooldown
    ensures SameHeight(s) && timer > 0.0 ==> r == timer - s.deltaTime
    ensures SameHeight(s) && timer <= 0.0 ==> r == timer
  {
    var counted := if timer > 0.0 then timer - s.deltaTime else timer;
    if !SameHeight(s) then OffTableCooldown else counted
  }

  /** The switching rule: the state to switch to, if any. `patrolRef` and
      `chaseRef` are what the two state fields refer to (`NoState` for a missing
      component). */
  function SwitchTarget(chaseRadius: real, current: StateRef, patrolRef: StateRef, chaseRef: StateRef,
                        offTableTimer: real, s: FsmSense): Option<StateRef>
  {
    if s.distance <= chaseRadius && SameHeight(s) && offTableTimer <= 0.0 && current != chaseRef then Some(chaseRef)
    else if s.distance > chaseRadius && current != patrolRef then Some(patrolRef)
    else None
  }

  /** The calls `SwitchState(to)` makes from `from`: exit the old state, then
      enter the new one. */
  function SwitchCalls(from: StateRef, to: StateRef): seq<Call> {
    (if from != NoState then [Exit(from)] else []) + (if to != NoState then [Enter(to)] else [])
  }

  /** The controller's own fields. */
  datatype FsmVars = FsmVars(offTableTimer: real, current: StateRef)

  /** The switching part of `Update`, for a known player: the new fields and
      the exit/enter calls of a switch. */
  function Decision(chaseRadius: real, patrolRef: StateRef, chaseRef: StateRef, v: FsmVars, s: FsmSense): (FsmVars, seq<Call>) {
    var timer := NextOffTableTimer(v.offTableTimer, s);
    var target := SwitchTarget(chaseRadius, v.current, patrolRef, chaseRef, timer, s);
    if target.Some? then (FsmVars(timer, target.value), SwitchCalls(v.current, target.value))
    else (FsmVars(timer, v.current), [])
  }

  /** One `Update` on the controller's fields: the new fields and the calls on
      the state objects, in order. */
  function FsmTick(chaseRadius: real, hasPlayer: bool, patrolRef: StateRef, chaseRef: StateRef,
                   v: FsmVars, s: FsmSense): (r: (FsmVars, seq<Call>))
  {
    if !hasPlayer then (v, [])
    else
      var d := Decision(chaseRadius, patrolRef, chaseRef, v, s);
      (d.0, d.1 + (if d.0.current != NoState then [UpdateOf(d.0.current)] else []))
  }

  /** Without a player nothing happens. */
  lemma NoPlayerNoChange(chaseRadius: real, patrolRef: StateRef, chaseRef: StateRef, v: FsmVars, s: FsmSense)
    ensures FsmTick(chaseRadius, false, patrolRef, chaseRef, v, s) == (v, [])
  {
  }

  /** The off-table timer counts down while positive and is re-armed whenever
      the player is at another height. */
  lemma OffTableTimerRule(chaseRadius: real, patrolRef: StateRef, chaseRef: StateRef, v: FsmVars, s: FsmSense)
    ensures var r := FsmTick(chaseRadius, true, patrolRef, chaseRef, v, s).0;
      && (!SameHeight(s) ==> r.offTableTimer == OffTableCooldown)
      && (SameHeight(s) ==> r.offTableTimer == if v.offTableTimer > 0.0 then v.offTableTimer - s.deltaTime else v.offTableTimer)
  {
  }

  /** The enemy starts chasing exactly when the player is within the chase
      radius, at the same height, the off-table timer has run out and it was not
      chasing already. */
  lemma StartChaseRule(chaseRadius: real, v: FsmVars, s: FsmSense)
    ensures var r := FsmTick(chaseRadius, true, PatrolRef, ChaseRef, v, s).0;
      (r.current == ChaseRef && v.current != ChaseRef)
      <==> s.distance <= chaseRadius && SameHeight(s) && NextOffTableTimer(v.offTableTimer, s) <= 0.0 && v.current != ChaseRef
  {
  }

  /** The enemy returns to patrol exactly when the player is beyond the chase
      radius and it was not patrolling already. */
  lemma ReturnToPatrolRule(chaseRadius: real, v: FsmVars, s: FsmSense)
    ensures var r := FsmTick(chaseRadius, true, PatrolRef, ChaseRef, v, s).0;
      (r.current == PatrolRef && v.current != PatrolRef) <==> s.distance > chaseRadius && v.current != PatrolRef
  {
  }

  /** Inside the chase radius a chase goes on, even when the heights differ. */
  lemma ChasePersistsInRadius(chaseRadius: real, v: FsmVars, s: FsmSense)
    requires v.current == ChaseRef && s.distance <= chaseRadius
    ensures FsmTick(chaseRadius, true, PatrolRef, ChaseRef, v, s).0.current == ChaseRef
  {
  }

  /** A switch exits the old state before entering the new one, and the state
      that is current after the decision is updated last, once. */
  lemma SwitchOrder(chaseRadius: real, v: FsmVars, s: FsmSense)
    ensures var r := FsmTick(chaseRadius, true, PatrolRef, ChaseRef, v, s);
      && (r.0.current != v.current && v.current != NoState ==> r.1 == [Exit(v.current), Enter(r.0.current), UpdateOf(r.0.current)])
      && (r.0.current != v.current && v.current == NoState ==> r.1 == [Enter(r.0.current), UpdateOf(r.0.current)])
      && (r.0.current == v.current ==> r.1 == [UpdateOf(v.current)] || (v.current == NoState && r.1 == []))
  {
  }

  function SumDeltaTime(frames: seq<FsmSense>): real
    decreases |frames|
  {
    if frames == [] then 0.0 else SumDeltaTime(frames[..|frames| - 1]) + frames[|frames| - 1].deltaTime
  }

  /** `frames` in a row, with both states present and a player known. */
  function FsmRun(chaseRadius: real, v: FsmVars, frames: seq<FsmSense>): FsmVars
    decreases |frames|
  {
    if frames == [] then v
    else FsmTick(chaseRadius, true, PatrolRef, ChaseRef, FsmRun(chaseRadius, v, frames[..|frames| - 1]), frames[|frames| - 1]).0
  }

  /** Once the player has been at another height, a patrolling enemy does not
      start a chase during the following frames as long as their times add up
      to less than the off-table cooldown. */
  lemma {:induction false} OffTableBlocksChase(chaseRadius: real, v: FsmVars, frames: seq<FsmSense>)
    requires v.current != ChaseRef && v.offTableTimer == OffTableCooldown
    requires forall i :: 0 <= i < |frames| ==> frames[i].deltaTime >= 0.0
    requires SumDeltaTime(frames) < OffTableCooldown
    ensures FsmRun(chaseRadius, v, frames).current != ChaseRef
    ensures FsmRun(chaseRadius, v, frames).offTableTimer >= OffTableCooldown - SumDeltaTime(frames)
    decreases |frames|
  {
    if frames != [] {
      var front := frames[..|frames| - 1];
      assert forall i :: 0 <= i < |front| ==> front[i].deltaTime >= 0.0 by {
        forall i | 0 <= i < |front| ensures front[i].deltaTime >= 0.0 {
          assert front[i] == frames[i];
        }
      }
      OffTableBlocksChase(chaseRadius, v, front);
      SumNonNegative(front);
    }
  }

  lemma {:induction false} SumNonNegative(frames: seq<FsmSense>)
    requires forall i :: 0 <= i < |frames| ==> frames[i].deltaTime >= 0.0
    ensures SumDeltaTime(frames) >= 0.0
    decreases |frames|
  {
    if frames != [] {
      var front := frames[..|frames| - 1];
      assert forall i :: 0 <= i < |front| ==> front[i].deltaTime >= 0.0 by {
        forall i | 0 <= i < |front| ensures front[i].deltaTime >= 0.0 {
          assert front[i] == frames[i];
        }
      }
      SumNonNegative(front);
    }
  }

  /** What the current state did this frame. */
  datatype Activity = NoActivity | Patrolled(step: Option<real>) | Chased(outcome: Outcome)

  /** `EnemyFSMController`. */
  class Controller {
    const chaseRadius: real
    /** `playerTransform != null` */
    var hasPlayer: bool
    var offTableTimer: real
    var current: StateRef
    var patrol: PatrolState?
    var chase: ChaseState?
    /** The calls made on the state objects so far. */
    ghost var calls: seq<Call>

    function PatrolRefOf(): StateRef
      reads this
    {
      if patrol == null then NoState else PatrolRef
    }

    function ChaseRefOf(): StateRef
      reads this
    {
      if chase == null then NoState else ChaseRef
    }

    function Vars(): FsmVars
      reads this
    {
      FsmVars(offTableTimer, current)
    }

    ghost predicate Valid()
      reads this, patrol
    {
      && (patrol != null ==> patrol.Valid())
      && (current == PatrolRef ==> patrol != null)
      && (current == ChaseRef ==> chase != null)
    }

    /** The field initialisers, before `Start`. */
    constructor (chaseRadius: real)
      ensures Valid() && this.chaseRadius == chaseRadius
      ensures !hasPlayer && offTableTimer == 0.0 && current == NoState
      ensures patrol == null && chase == null && calls == []
    {
      this.chaseRadius := chaseRadius;
      hasPlayer, offTableTimer, current := false, 0.0, NoState;
      patrol, chase := null, null;
      calls := [];
    }

    /** `SwitchState(newState)`; `playerFound` is what a chase that is entered
        finds when it looks the player up. */
    method SwitchState(newState: StateRef, playerFound: bool)
      requires Valid()
      requires newState == PatrolRef ==> patrol != null
      requires newState == ChaseRef ==> chase != null
      modifies this`current, this`calls, patrol, chase
      ensures Valid() && current == newState
      ensures calls == old(calls) + SwitchCalls(old(current), newState)
      ensures patrol != null ==>
        patrol.Vars() == if newState == PatrolRef then old(patrol.Vars()).(waitTimer := 0.0) else old(patrol.Vars())
      ensures chase != null && newState == ChaseRef ==>
        chase.hasPlayer == (old(chase.hasPlayer) || playerFound) && chase.cooldownTimer == 0.0
      ensures chase != null && newState != ChaseRef ==>
        chase.hasPlayer == old(chase.hasPlayer) && chase.cooldownTimer == old(chase.cooldownTimer)
    {
      if current != NoState {
        // PatrolState keeps the empty default ExitState; ChaseState's only
        // restores the renderer colour.
        calls := calls + [Exit(current)];
      }
      current := newState;
      if current == PatrolRef {
        patrol.EnterState();
        calls := calls + [Enter(PatrolRef)];
      } else if current == ChaseRef {
        chase.EnterState(playerFound);
        calls := calls + [Enter(ChaseRef)];
      }
    }

    /** `Start`: remember whether a player exists, take the two state
        components (either may be missing) and switch to patrol. */
    method Start(playerFound: bool, patrolComponent: PatrolState?, chaseComponent: ChaseState?)
      requires Valid() && current == NoState
      requires patrolComponent != null ==> patrolComponent.Valid()
      modifies this, patrolComponent, chaseComponent
      ensures Valid()
      ensures hasPlayer == (old(hasPlayer) || playerFound)
      ensures patrol == patrolComponent && chase == chaseComponent
      ensures current == PatrolRefOf()
      ensures calls == old(calls) + SwitchCalls(NoState, PatrolRefOf())
      ensures patrol != null ==> patrol.Vars() == old(patrolComponent.Vars()).(waitTimer := 0.0)
    {
      if playerFound {
        hasPlayer := true;
      }
      patrol := patrolComponent;
      chase := chaseComponent;
      SwitchState(PatrolRefOf(), playerFound);
    }

    /** The first half of `Update`, once a player is known: count down and
        re-arm the off-table timer, then switch state if the rule says so. */
    method DecideState(sense: FsmSense)
      requires Valid() && hasPlayer
      modifies this`offTableTimer, this`current, this`calls, patrol, chase
      ensures Valid()
      ensures Vars() == Decision(chaseRadius, PatrolRefOf(), ChaseRefOf(), old(Vars()), sense).0
      ensures calls == old(calls) + Decision(chaseRadius, PatrolRefOf(), ChaseRefOf(), old(Vars()), sense).1
      ensures patrol != null ==>
        patrol.Vars() == if current == PatrolRef && old(current) != PatrolRef
                         then old(patrol.Vars()).(waitTimer := 0.0) else old(patrol.Vars())
      ensures chase != null && current == ChaseRef && old(current) != ChaseRef ==>
        chase.hasPlayer == (old(chase.hasPlayer) || sense.playerFound) && chase.cooldownTimer == 0.0
      ensures chase != null && !(current == ChaseRef && old(current) != ChaseRef) ==>
        chase.hasPlayer == old(chase.hasPlayer) && chase.cooldownTimer == old(chase.cooldownTimer)
    {
      if offTableTimer > 0.0 {
        offTableTimer := offTableTimer - sense.deltaTime;
      }
      var verticalDiff := Abs(sense.heightDifference);
      var playerOnSameHeight := verticalDiff < SameHeightTolerance;
      if !playerOnSameHeight {
        offTableTimer := OffTableCooldown;
      }
      if sense.distance <= chaseRadius && playerOnSameHeight && offTableTimer <= 0.0 && current != ChaseRefOf() {
        SwitchState(ChaseRefOf(), sense.playerFound);
      } else if sense.distance > chaseRadius && current != PatrolRefOf() {
        SwitchState(PatrolRefOf(), sense.playerFound);
      } else {
        assert calls == old(calls) + [];
      }
    }

    /** `Update`: one frame. The state objects change as entering (on a
        switch) and then one `UpdateState` of the current state make them. */
    method Update(sense: FsmSense) returns (activity: Activity)
      requires Valid()
      modifies this`offTableTimer, this`current, this`calls, patrol, chase
      ensures Valid()
      ensures Vars() == FsmTick(chaseRadius, hasPlayer, PatrolRefOf(), ChaseRefOf(), old(Vars()), sense).0
      ensures calls == old(calls) + FsmTick(chaseRadius, hasPlayer, PatrolRefOf(), ChaseRefOf(), old(Vars()), sense).1
      ensures !hasPlayer ==> current == old(current) && (patrol != null ==> patrol.Vars() == old(patrol.Vars()))
      ensures !hasPlayer && chase != null ==> chase.cooldownTimer == old(chase.cooldownTimer)
      ensures !hasPlayer || current == NoState ==> activity == NoActivity
      ensures hasPlayer && current == PatrolRef ==> activity.Patrolled?
      ensures hasPlayer && current == ChaseRef ==> activity.Chased?
      ensures hasPlayer && current == PatrolRef && old(current) == PatrolRef ==>
        (patrol.Vars(), activity.step) == PatrolTick(patrol.route, old(patrol.Vars()), sense.patrolPointDistance, sense.deltaTime)
      ensures hasPlayer && current == PatrolRef && old(current) != PatrolRef ==>
        (patrol.Vars(), activity.step)
          == PatrolTick(patrol.route, old(patrol.Vars()).(waitTimer := 0.0), sense.patrolPointDistance, sense.deltaTime)
      ensures hasPlayer && current == ChaseRef && old(current) == ChaseRef ==>
        (chase.cooldownTimer, activity.outcome) == ChaseTick(chase.tuning, chase.hasPlayer, old(chase.cooldownTimer), ChaseSenseOf(sense))
      ensures hasPlayer && current == ChaseRef && old(current) != ChaseRef ==>
        && chase.hasPlayer == (old(chase.hasPlayer) || sense.playerFound)
        && (chase.cooldownTimer, activity.outcome) == ChaseTick(chase.tuning, chase.hasPlayer, 0.0, ChaseSenseOf(sense))
      ensures hasPlayer && current == ChaseRef && old(current) == ChaseRef ==> chase.hasPlayer == old(chase.hasPlayer)
      ensures hasPlayer && current != PatrolRef && patrol != null ==> patrol.Vars() == old(patrol.Vars())
      ensures hasPlayer && current != ChaseRef && chase != null ==>
        chase.hasPlayer == old(chase.hasPlayer) && chase.cooldownTimer == old(chase.cooldownTimer)
    {
      if !hasPlayer {
        assert calls == calls + [];
        return NoActivity;
      }
      DecideState(sense);
      activity := NoActivity;
      if current == PatrolRef {
        var step := patrol.UpdateState(sense.patrolPointDistance, sense.deltaTime);
        activity := Patrolled(step);
        calls := calls + [UpdateOf(PatrolRef)];
      } else if current == ChaseRef {
        var outcome := chase.UpdateState(ChaseSenseOf(sense));
        activity := Chased(outcome);
        calls := calls + [UpdateOf(ChaseRef)];
      }
    }
  }
}
