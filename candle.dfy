/** The candle quick-time event (`CandleController`): while the player stands
    in the candle's trigger, presses of R are counted, and at the required
    number the candle is pushed off once and for all. The push itself (a
    delayed coroutine applying an impulse) and its sound are not modelled:
    the model reports that it starts. */
module CandleQte {
  import opened Common

  /** The default `requiredPresses`. */
  const DefaultRequiredPresses: int := 5

  /** The candle's flags; `prompt` is the prompt canvas's active flag, `None`
      when no canvas is assigned. */
  datatype CandleVars = CandleVars(currentPresses: int, hasDropped: bool, playerInRange: bool, prompt: Option<bool>)

  /** One `Update`, given whether R went down this frame: the new flags and
      whether the drop starts. */
  function PressTick(required: int, v: CandleVars, rDown: bool): (r: (CandleVars, bool))
    ensures r.0.currentPresses == v.currentPresses + (if v.playerInRange && !v.hasDropped && rDown then 1 else 0)
    ensures r.1 <==> v.playerInRange && !v.hasDropped && rDown && v.currentPresses + 1 >= required
    ensures r.0.hasDropped <==> v.hasDropped || r.1
    ensures r.0.playerInRange == v.playerInRange
    ensures r.1 ==> r.0.prompt == SetIfAssigned(v.prompt, false)
    ensures !r.1 ==> r.0.prompt == v.prompt
  {
    if v.playerInRange && !v.hasDropped && rDown then
      var counted := v.(currentPresses := v.currentPresses + 1);
      if counted.currentPresses >= required then
        (counted.(hasDropped := true, prompt := SetIfAssigned(v.prompt, false)), true)
      else (counted, false)
    else (v, false)
  }

  /** `OnTriggerEnter`: the player entering before the drop restarts the count
      and shows the prompt. */
  function Enter(v: CandleVars, isPlayer: bool): (r: CandleVars)
    ensures r.hasDropped == v.hasDropped
    ensures !v.hasDropped && isPlayer ==> r.playerInRange && r.currentPresses == 0 && r.prompt == SetIfAssigned(v.prompt, true)
    ensures v.hasDropped || !isPlayer ==> r == v
  {
    if !v.hasDropped && isPlayer then v.(playerInRange := true, currentPresses := 0, prompt := SetIfAssigned(v.prompt, true))
    else v
  }

  /** `OnTriggerExit`: the player leaving hides the prompt. */
  function Exit(v: CandleVars, isPlayer: bool): (r: CandleVars)
    ensures r.hasDropped == v.hasDropped && r.currentPresses == v.currentPresses
    ensures isPlayer ==> !r.playerInRange && r.prompt == SetIfAssigned(v.prompt, false)
    ensures !isPlayer ==> r == v
  {
    if isPlayer then v.(playerInRange := false, prompt := SetIfAssigned(v.prompt, false)) else v
  }

  /** What reaches the candle: a frame (with R down or not), or the trigger
      being entered or left by a collider that is or is not the player. */
  datatype CandleEvent = Frame(rDown: bool) | TriggerEnter(isPlayer: bool) | TriggerExit(isPlayer: bool)

  function Step(required: int, v: CandleVars, e: CandleEvent): (CandleVars, bool) {
    match e
    case Frame(rDown) => PressTick(required, v, rDown)
    case TriggerEnter(isPlayer) => (Enter(v, isPlayer), false)
    case TriggerExit(isPlayer) => (Exit(v, isPlayer), false)
  }

  /** The flags after a run of events, and how many times the drop started. */
  function CandleRun(required: int, v: CandleVars, events: seq<CandleEvent>): (CandleVars, nat)
    decreases |events|
  {
    if events == [] then (v, 0)
    else
      var before := CandleRun(required, v, events[..|events| - 1]);
      var last := Step(required, before.0, events[|events| - 1]);
      (last.0, before.1 + (if last.1 then 1 else 0))
  }

  /** The candle drops at most once, never once it has dropped, and once
      dropped it stays dropped. */
  lemma {:induction false} DropsAtMostOnce(required: int, v: CandleVars, events: seq<CandleEvent>)
    ensures var r := CandleRun(required, v, events);
      && r.1 <= (if v.hasDropped then 0 else 1)
      && (r.0.hasDropped <==> v.hasDropped || r.1 == 1)
    decreases |events|
  {
    if events != [] {
      DropsAtMostOnce(required, v, events[..|events| - 1]);
    }
  }

  /** A dropped candle ignores everything but the player leaving: no press is
      counted and entering the trigger neither restarts the count nor shows
      the prompt. */
  lemma DroppedIgnoresInput(required: int, v: CandleVars, e: CandleEvent)
    requires v.hasDropped
    ensures var r := Step(required, v, e);
      && !r.1 && r.0.currentPresses == v.currentPresses && r.0.hasDropped
      && (!e.TriggerExit? ==> r.0 == v)
  {
  }

  /** From the player's entry, `required` frames with R down (at least one)
      start the drop on the last of them; fewer leave the count at the number
      of presses. */
  lemma {:induction false} PressesCount(required: int, v: CandleVars, k: nat)
    requires !v.hasDropped && v.playerInRange && v.currentPresses == 0
    requires 1 <= k <= (if required < 1 then 1 else required)
    ensures var r := CandleRun(required, v, seq(k, _ => Frame(true)));
      && (k < required ==> r == (v.(currentPresses := k), 0))
      && (k >= required ==> r.0.hasDropped && r.1 == 1 && r.0.currentPresses == k)
    decreases k
  {
    var frames := seq(k, _ => Frame(true));
    assert frames[..k - 1] == seq(k - 1, _ => Frame(true));
    if k > 1 {
      PressesCount(required, v, k - 1);
    }
  }

  /** `CandleController`. */
  class Candle {
    const requiredPresses: int
    var currentPresses: int
    var hasDropped: bool
    var playerInRange: bool
    var prompt: Option<bool>
    /** How many times the drop coroutine was started. */
    ghost var drops: nat

    function Vars(): CandleVars
      reads this
    {
      CandleVars(currentPresses, hasDropped, playerInRange, prompt)
    }

    /** The drop starts once, with the latch. */
    ghost predicate Valid()
      reads this
    {
      drops == (if hasDropped then 1 else 0)
    }

    /** The field initialisers followed by `Start`, which hides the prompt. */
    constructor (requiredPresses: int, hasPrompt: bool)
      ensures Valid() && this.requiredPresses == requiredPresses
      ensures Vars() == CandleVars(0, false, false, if hasPrompt then Some(false) else None)
    {
      this.requiredPresses := requiredPresses;
      currentPresses, hasDropped, playerInRange := 0, false, false;
      prompt := if hasPrompt then Some(false) else None;
      drops := 0;
    }

    /** `Update`; returns whether the drop starts this frame. */
    method Update(rDown: bool) returns (drop: bool)
      requires Valid()
      modifies this
      ensures Valid()
      ensures (Vars(), drop) == PressTick(requiredPresses, old(Vars()), rDown)
    {
      drop := false;
      if playerInRange && !hasDropped && rDown {
        currentPresses := currentPresses + 1;
        if currentPresses >= requiredPresses {
          drop := true;
          drops := drops + 1;
          hasDropped := true;
          prompt := SetIfAssigned(prompt, false);
        }
      }
    }

    /** `OnTriggerEnter` */
    method OnTriggerEnter(isPlayer: bool)
      requires Valid()
      modifies this
      ensures Valid() && Vars() == Enter(old(Vars()), isPlayer) && drops == old(drops)
    {
      if !hasDropped && isPlayer {
        playerInRange := true;
        currentPresses := 0;
        prompt := SetIfAssigned(prompt, true);
      }
    }

    /** `OnTriggerExit` */
    method OnTriggerExit(isPlayer: bool)
      requires Valid()
      modifies this
      ensures Valid() && Vars() == Exit(old(Vars()), isPlayer) && drops == old(drops)
    {
      if isPlayer {
        playerInRange := false;
        prompt := SetIfAssigned(prompt, false);
      }
    }
  }
}
