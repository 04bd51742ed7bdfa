/** The patrol state of the table enemy (`PatrolState`): walk to the current
    patrol point, wait there, then advance the point index in Loop or PingPong
    order. The points themselves are not modelled, only their number; the
    distance to the current point is an input of each frame. */
module EnemyPatrol {
  import opened Common

  datatype PatrolMode = Loop | PingPong

  /** The fields a frame changes: `currentPatrolIndex`, `direction` (PingPong
      only) and `waitTimer`. */
  datatype Cursor = Cursor(index: int, direction: int, waitTimer: real)

  predicate IsDirection(d: int) {
    d == 1 || d == -1
  }

  /** What the mode needs of the number of points: PingPong cannot turn round
      on a single point (it would step to index -1). */
  predicate Supports(mode: PatrolMode, n: int) {
    mode == PingPong ==> n >= 2
  }

  /** `AdvancePatrolIndex` on `n` points. (C#'s `%` agrees with Dafny's here:
      both operands are non-negative.) */
  function Advance(mode: PatrolMode, n: int, c: Cursor): (r: Cursor)
    requires n > 0 && Supports(mode, n) && 0 <= c.index < n && IsDirection(c.direction)
    ensures 0 <= r.index < n && IsDirection(r.direction)
    ensures r.waitTimer == c.waitTimer
    ensures mode == Loop ==> r.direction == c.direction
    ensures mode == Loop && c.index < n - 1 ==> r.index == c.index + 1
    ensures mode == Loop && c.index == n - 1 ==> r.index == 0
    ensures mode == PingPong && 0 <= c.index + c.direction < n ==> r == c.(index := c.index + c.direction)
    ensures mode == PingPong && c.index + c.direction == n ==> r.index == n - 2 && r.direction == -1
    ensures mode == PingPong && c.index + c.direction == -1 ==> r.index == 1 && r.direction == 1
  {
    match mode
    case Loop => c.(index := (c.index + 1) % n)
    case PingPong =>
      var i := c.index + c.direction;
      if i >= n then c.(index := n - 2, direction := -1)
      else if i < 0 then c.(index := 1, direction := 1)
      else c.(index := i)
  }

  /** `k` advances in a row. */
  function AdvanceTimes(mode: PatrolMode, n: int, c: Cursor, k: nat): (r: Cursor)
    requires n > 0 && Supports(mode, n) && 0 <= c.index < n && IsDirection(c.direction)
    ensures 0 <= r.index < n && IsDirection(r.direction)
    decreases k
  {
    if k == 0 then c else Advance(mode, n, AdvanceTimes(mode, n, c, k - 1))
  }

  /** In Loop mode the `k`-th advance (up to `n`) reaches the point `k` further
      on, wrapping past the last point to the first. */
  lemma {:induction false} LoopVisitsInTurn(n: int, c: Cursor, k: nat)
    requires n > 0 && 0 <= c.index < n && IsDirection(c.direction) && k <= n
    ensures AdvanceTimes(Loop, n, c, k)
         == c.(index := if c.index + k < n then c.index + k else c.index + k - n)
    decreases k
  {
    if k > 0 {
      LoopVisitsInTurn(n, c, k - 1);
    }
  }

  /** In Loop mode `n` advances bring the enemy back to where it started. */
  lemma LoopPeriod(n: int, c: Cursor)
    requires n > 0 && 0 <= c.index < n && IsDirection(c.direction)
    ensures AdvanceTimes(Loop, n, c, n) == c
  {
    LoopVisitsInTurn(n, c, n);
  }

  /** In PingPong mode the enemy keeps its direction and moves one point per
      advance for as long as it does not run past an end. */
  lemma {:induction false} PingPongSweeps(n: int, c: Cursor, k: nat)
    requires n >= 2 && 0 <= c.index < n && IsDirection(c.direction)
    requires 0 <= c.index + k * c.direction < n
    ensures AdvanceTimes(PingPong, n, c, k) == c.(index := c.index + k * c.direction)
    decreases k
  {
    if k > 0 {
      PingPongSweeps(n, c, k - 1);
    }
  }

  /** Starting at point 0 heading up, PingPong reaches the last point after
      `n - 1` advances and is back at point 0 after `2(n - 1)`. */
  lemma PingPongRoundTrip(n: int, waitTimer: real)
    requires n >= 2
    ensures AdvanceTimes(PingPong, n, Cursor(0, 1, waitTimer), n - 1) == Cursor(n - 1, 1, waitTimer)
    ensures AdvanceTimes(PingPong, n, Cursor(0, 1, waitTimer), 2 * (n - 1)) == Cursor(0, -1, waitTimer)
  {
    var start := Cursor(0, 1, waitTimer);
    PingPongSweeps(n, start, n - 1);
    var top := AdvanceTimes(PingPong, n, start, n - 1);
    var turned := AdvanceTimes(PingPong, n, start, n);
    assert turned == Cursor(n - 2, -1, waitTimer);
    PingPongSweeps(n, turned, n - 2);
    AdvanceTimesSplit(PingPong, n, start, n, n - 2);
  }

  lemma {:induction false} AdvanceTimesSplit(mode: PatrolMode, n: int, c: Cursor, j: nat, k: nat)
    requires n > 0 && Supports(mode, n) && 0 <= c.index < n && IsDirection(c.direction)
    ensures AdvanceTimes(mode, n, c, j + k) == AdvanceTimes(mode, n, AdvanceTimes(mode, n, c, j), k)
    decreases k
  {
    if k > 0 {
      AdvanceTimesSplit(mode, n, c, j, k - 1);
    }
  }

  /** The settings of a patrol, as set in the inspector. `pointCount` is
      `patrolPoints.Length`, 0 for a missing array. */
  datatype Route = Route(pointCount: int, mode: PatrolMode, patrolSpeed: real, waitTime: real, arrivalThreshold: real)

  predicate ValidCursor(route: Route, c: Cursor) {
    && route.pointCount >= 0 && Supports(route.mode, route.pointCount)
    && 0 <= c.index && (route.pointCount > 0 ==> c.index < route.pointCount)
    && IsDirection(c.direction)
  }

  /** One `UpdateState`, given the distance to the current point. The result's
      second part is the length of the step taken toward that point, if any. */
  function PatrolTick(route: Route, c: Cursor, distance: real, deltaTime: real): (r: (Cursor, Option<real>))
    requires ValidCursor(route, c)
    ensures ValidCursor(route, r.0)
  {
    if route.pointCount == 0 then (c, None)
    else if distance <= route.arrivalThreshold then
      var waited := c.(waitTimer := c.waitTimer + deltaTime);
      if waited.waitTimer >= route.waitTime then (Advance(route.mode, route.pointCount, waited).(waitTimer := 0.0), None)
      else (waited, None)
    else (c, Some(route.patrolSpeed * deltaTime))
  }

  /** Without patrol points a frame does nothing. */
  lemma NoPointsNoChange(route: Route, c: Cursor, distance: real, deltaTime: real)
    requires ValidCursor(route, c) && route.pointCount == 0
    ensures PatrolTick(route, c, distance, deltaTime) == (c, None)
  {
  }

  /** Away from the point the enemy only steps toward it: index, direction and
      wait timer are untouched. */
  lemma WalkingKeepsCursor(route: Route, c: Cursor, distance: real, deltaTime: real)
    requires ValidCursor(route, c) && route.pointCount > 0 && distance > route.arrivalThreshold
    ensures PatrolTick(route, c, distance, deltaTime) == (c, Some(route.patrolSpeed * deltaTime))
  {
    var r := PatrolTick(route, c, distance, deltaTime);
    assert r.1.value == route.patrolSpeed * deltaTime;
  }

  /** At the point the enemy stands still; the index advances exactly when the
      accumulated wait reaches `waitTime`, and then the wait starts over. */
  lemma WaitThenAdvance(route: Route, c: Cursor, distance: real, deltaTime: real)
    requires ValidCursor(route, c) && route.pointCount > 0 && distance <= route.arrivalThreshold
    ensures var r := PatrolTick(route, c, distance, deltaTime);
      && r.1 == None
      && (r.0.index != c.index || r.0.direction != c.direction ==> c.waitTimer + deltaTime >= route.waitTime)
      && (c.waitTimer + deltaTime >= route.waitTime ==>
            r.0 == Advance(route.mode, route.pointCount, c).(waitTimer := 0.0))
      && (c.waitTimer + deltaTime < route.waitTime ==> r.0 == c.(waitTimer := c.waitTimer + deltaTime))
  {
  }

  /** `PatrolState`. */
  class PatrolState {
    const route: Route
    var currentPatrolIndex: int
    var direction: int
    var waitTimer: real

    function Vars(): Cursor
      reads this
    {
      Cursor(currentPatrolIndex, direction, waitTimer)
    }

    ghost predicate Valid()
      reads this
    {
      ValidCursor(route, Vars())
    }

    /** The field initialisers: index 0, heading up, no wait. */
    constructor (route: Route)
      requires route.pointCount >= 0 && Supports(route.mode, route.pointCount)
      ensures Valid() && this.route == route && Vars() == Cursor(0, 1, 0.0)
    {
      this.route := route;
      currentPatrolIndex, direction, waitTimer := 0, 1, 0.0;
    }

    /** `EnterState` */
    method EnterState()
      requires Valid()
      modifies this`waitTimer
      ensures Valid() && Vars() == old(Vars()).(waitTimer := 0.0)
    {
      waitTimer := 0.0;
    }

    /** `AdvancePatrolIndex` */
    method AdvancePatrolIndex()
      requires Valid() && route.pointCount > 0
      modifies this`currentPatrolIndex, this`direction
      ensures Valid() && Vars() == Advance(route.mode, route.pointCount, old(Vars()))
    {
      if route.mode == Loop {
        currentPatrolIndex := (currentPatrolIndex + 1) % route.pointCount;
      } else {
        currentPatrolIndex := currentPatrolIndex + direction;
        if currentPatrolIndex >= route.pointCount {
          currentPatrolIndex := route.pointCount - 2;
          direction := -1;
        } else if currentPatrolIndex < 0 {
          currentPatrolIndex := 1;
          direction := 1;
        }
      }
    }

    /** `UpdateState`; returns the step length moved toward the current point. */
    method UpdateState(distance: real, deltaTime: real) returns (step: Option<real>)
      requires Valid()
      modifies this
      ensures Valid()
      ensures (Vars(), step) == PatrolTick(route, old(Vars()), distance, deltaTime)
    {
      if route.pointCount == 0 {
        return None;
      }
      if distance <= route.arrivalThreshold {
        waitTimer := waitTimer + deltaTime;
        if waitTimer >= route.waitTime {
          AdvancePatrolIndex();
          waitTimer := 0.0;
        }
        return None;
      }
      step := Some(route.patrolSpeed * deltaTime);
      assert PatrolTick(route, old(Vars()), distance, deltaTime).1.value == step.value;
    }
  }
}
