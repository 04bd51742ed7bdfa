/** The toy train (`TrainOnPolyline`): a cursor over the waypoints of a
    polyline, advanced when the train reaches its target waypoint, wrapping
    round or stopping at the end. The motion between waypoints (`MoveTowards`,
    the rotation) is not modelled: each frame says whether the train is within
    0.1 of its target after moving. */
module TrainPolyline {
  import opened Common

  /** The cursor: `currentIndex` and the component's `enabled` flag. */
  datatype TrainCursor = TrainCursor(index: int, enabled: bool)

  /** Sensible cursor on `n` waypoints: the index never passes `n`, and a train
      that still runs on a usable path points at an existing waypoint. */
  predicate ValidCursor(n: int, c: TrainCursor) {
    0 <= c.index <= n && (c.enabled && n >= 2 ==> c.index < n)
  }

  /** `Start` on `n` waypoints (0 for a missing array): with fewer than two the
      component disables itself, otherwise the train stands on waypoint 0 and
      heads for waypoint 1. */
  function StartCursor(n: int, c: TrainCursor): (r: TrainCursor)
    ensures n < 2 ==> r == c.(enabled := false)
    ensures n >= 2 ==> r == c.(index := 1)
  {
    if n < 2 then c.(enabled := false) else c.(index := 1)
  }

  /** One `Update` (which Unity calls only on an enabled component). */
  function TrainTick(n: int, loop: bool, c: TrainCursor, reached: bool): (r: TrainCursor)
    requires ValidCursor(n, c)
    ensures ValidCursor(n, r)
    ensures !c.enabled || n < 2 || !reached ==> r == c
    ensures c.enabled && n >= 2 && reached && c.index + 1 < n ==> r == c.(index := c.index + 1)
    ensures c.enabled && n >= 2 && reached && c.index + 1 == n ==>
      r == if loop then c.(index := 0) else TrainCursor(n, false)
  {
    if !c.enabled || n < 2 || !reached then c
    else
      var next := c.index + 1;
      if next >= n then (if loop then c.(index := 0) else TrainCursor(next, false))
      else c.(index := next)
  }

  /** A run of frames, each saying whether the target was reached. */
  function TrainRun(n: int, loop: bool, c: TrainCursor, frames: seq<bool>): (r: TrainCursor)
    requires ValidCursor(n, c)
    ensures ValidCursor(n, r)
    decreases |frames|
  {
    if frames == [] then c
    else TrainTick(n, loop, TrainRun(n, loop, c, frames[..|frames| - 1]), frames[|frames| - 1])
  }

  /** The frames that do not reach a waypoint make no difference: after `k`
      arrivals a running train that has not passed the end is `k` waypoints on. */
  lemma {:induction false} ArrivalsAdvance(n: int, loop: bool, c: TrainCursor, frames: seq<bool>)
    requires n >= 2 && ValidCursor(n, c) && c.enabled
    requires c.index + Arrivals(frames) < n
    ensures TrainRun(n, loop, c, frames) == c.(index := c.index + Arrivals(frames))
    decreases |frames|
  {
    if frames != [] {
      ArrivalsAdvance(n, loop, c, frames[..|frames| - 1]);
    }
  }

  function Arrivals(frames: seq<bool>): (k: nat)
    ensures k <= |frames|
    decreases |frames|
  {
    if frames == [] then 0 else Arrivals(frames[..|frames| - 1]) + (if frames[|frames| - 1] then 1 else 0)
  }

  /** A train that does not loop, started on a usable path, stops for good at
      its `n - 1`-th arrival with the index one past the last waypoint. */
  lemma StopsAtEnd(n: int, c: TrainCursor, frames: seq<bool>)
    requires n >= 2 && c.enabled
    requires Arrivals(frames) == n - 2
    ensures var started := StartCursor(n, c);
      TrainRun(n, false, started, frames + [true]) == TrainCursor(n, false)
  {
    var started := StartCursor(n, c);
    ArrivalsAdvance(n, false, started, frames);
    assert (frames + [true])[..|frames|] == frames;
  }

  /** A looping train that arrives at the last waypoint heads for waypoint 0
      next, and keeps running. */
  lemma LoopWraps(n: int, c: TrainCursor)
    requires n >= 2 && c.enabled && c.index == n - 1
    ensures TrainTick(n, true, c, true) == c.(index := 0)
  {
  }

  /** `TrainOnPolyline`; `waypointCount` is `waypoints.Length`, 0 for a
      missing array. */
  class Train {
    const waypointCount: int
    const loop: bool
    var currentIndex: int
    var enabled: bool

    function Cursor(): TrainCursor
      reads this
    {
      TrainCursor(currentIndex, enabled)
    }

    ghost predicate Valid()
      reads this
    {
      ValidCursor(waypointCount, Cursor())
    }

    /** The field initialisers. */
    constructor (waypointCount: int, loop: bool)
      requires waypointCount >= 0
      ensures Valid() && this.waypointCount == waypointCount && this.loop == loop
      ensures Cursor() == TrainCursor(0, true)
    {
      this.waypointCount, this.loop := waypointCount, loop;
      currentIndex, enabled := 0, true;
    }

    /** `Start` */
    method Start()
      requires Valid()
      modifies this
      ensures Valid() && Cursor() == StartCursor(waypointCount, old(Cursor()))
    {
      if waypointCount < 2 {
        enabled := false;
        return;
      }
      currentIndex := 1;
    }

    /** `MoveAlongPath`: returns the index of the target waypoint the train
        moved toward. */
    method MoveAlongPath(reached: bool) returns (target: int)
      requires Valid() && enabled && waypointCount >= 2
      modifies this
      ensures Valid() && Cursor() == TrainTick(waypointCount, loop, old(Cursor()), reached)
      ensures target == old(currentIndex) && 0 <= target < waypointCount
    {
      target := currentIndex;
      if reached {
        currentIndex := currentIndex + 1;
        if currentIndex >= waypointCount {
          if loop {
            currentIndex := 0;
          } else {
            enabled := false;
          }
        }
      }
    }

    /** `Update`, called by the engine only while the component is enabled;
        returns the target waypoint, if the train moved. */
    method Update(reached: bool) returns (target: Option<int>)
      requires Valid()
      modifies this
      ensures Valid() && Cursor() == TrainTick(waypointCount, loop, old(Cursor()), reached)
      ensures target.Some? <==> old(enabled) && waypointCount >= 2
      ensures target.Some? ==> target.value == old(currentIndex) && 0 <= target.value < waypointCount
    {
      if !enabled || waypointCount < 2 {
        return None;
      }
      var t := MoveAlongPath(reached);
      target := Some(t);
    }
  }
}
