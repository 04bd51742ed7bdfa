/** The Q-learning enemy of level 2 (`QLiteAI`): epsilon-greedy action choice over
    the value table, the shaped reward, the one-step update and the per-frame
    state machine (conversation interrupt, post-conversation pause, retreat,
    attack trigger, decision period).

    Everything the source gets from the engine is an input of a frame (`Sense`):
    whether a player exists, the conversation flag, the distance and signed
    bearing to the player, the two unit vectors between enemy and player, the
    frame time and the two random draws. What the enemy does to the world is an
    output (`Effects`): the command given to the movement actuator and the damage
    dealt to the player. */
module QLite {
  import opened Common
  import opened StateEncoder
  import opened ValueTable

  const Idle := 0
  const MoveToward := 1

  /** Seconds of idling after a conversation ends. */
  const ConversationPause := 8.0

  /** Damage of one attack, passed to `PlayerStats.TakeDamage`. */
  const AttackDamage := 0.2

  /** The `actions` table set up in `Start`. `Update` never reads the entry of
      action 1: that action is steered toward the player instead. */
  function ActionVector(action: int): Vec3
    requires 0 <= action < ActionCount
  {
    if action == 0 then Zero                      // Idle
    else if action == 1 then Vec3(0.0, 0.0, 1.0)  // Vector3.forward
    else if action == 2 then Vec3(0.0, 0.0, -1.0) // Vector3.back
    else if action == 3 then Vec3(-1.0, 0.0, 0.0) // Vector3.left
    else Vec3(1.0, 0.0, 0.0)                      // Vector3.right
  }

  // ---- epsilon-greedy selection ----

  /** `i` holds the largest value of `q`, and no earlier index holds it. */
  predicate IsFirstMax(q: seq<real>, i: int) {
    && 0 <= i < |q|
    && (forall j :: 0 <= j < |q| ==> q[j] <= q[i])
    && (forall j :: 0 <= j < i ==> q[j] < q[i])
  }

  /** The index the greedy scan of `ChooseAction` ends on: it moves only on a
      strictly greater value, so the first maximum wins. */
  function FirstMaxIndex(q: seq<real>): (i: int)
    requires |q| > 0
    ensures IsFirstMax(q, i)
    decreases |q|
  {
    if |q| == 1 then 0
    else
      var best := FirstMaxIndex(q[..|q| - 1]);
      if q[|q| - 1] > q[best] then |q| - 1 else best
  }

  /** There is only one first maximum, so the greedy choice is determined by the vector. */
  lemma FirstMaxUnique(q: seq<real>, i: int, j: int)
    requires IsFirstMax(q, i) && IsFirstMax(q, j)
    ensures i == j
  {
    assert q[i] == q[j];
  }

  /** With nothing learned yet for a state, the greedy choice is Idle. */
  lemma ZerosChooseIdle()
    ensures FirstMaxIndex(Zeros) == Idle
  {
    assert IsFirstMax(Zeros, Idle);
    FirstMaxUnique(Zeros, FirstMaxIndex(Zeros), Idle);
  }

  /** The greedy loop of `ChooseAction`. */
  method GreedyAction(qValues: seq<real>) returns (best: int)
    requires |qValues| > 0
    ensures best == FirstMaxIndex(qValues)
    ensures IsFirstMax(qValues, best)
  {
    best := 0;
    var max := qValues[0];
    var i := 1;
    assert qValues[..1] == [qValues[0]];
    while i < |qValues|
      invariant 1 <= i <= |qValues|
      invariant best == FirstMaxIndex(qValues[..i]) && max == qValues[best]
    {
      assert qValues[..i + 1][..i] == qValues[..i];
      if qValues[i] > max {
        max := qValues[i];
        best := i;
      }
      i := i + 1;
    }
    assert qValues[..|qValues|] == qValues;
  }

  /** Exploration when the uniform draw `roll` is below epsilon (the random action
      is the second draw), exploitation otherwise. */
  function Choice(qValues: seq<real>, roll: real, randomAction: int, epsilon: real): (action: int)
    requires |qValues| > 0
    ensures roll < epsilon ==> action == randomAction
    ensures roll >= epsilon ==> IsFirstMax(qValues, action)
  {
    if roll < epsilon then randomAction else FirstMaxIndex(qValues)
  }

  // ---- reward shaping ----

  /** `ComputeReward`: the distance closed since the last decision, less
      independent penalties for idling close by, idling far away and crowding.
      (The source tests the field `currentAction` for the first penalty; at its
      only call it holds the same action as the argument.) */
  function ComputeReward(previousDistance: real, currentDistance: real, action: int, minChaseDistance: real): (reward: real)
    ensures previousDistance - currentDistance - 0.8 <= reward <= previousDistance - currentDistance
    ensures action != Idle && action != MoveToward ==> reward == previousDistance - currentDistance
    ensures action == MoveToward ==>
      reward == previousDistance - currentDistance - (if currentDistance < 2.0 then 0.5 else 0.0)
    ensures action == Idle ==>
      (reward < previousDistance - currentDistance <==> currentDistance < minChaseDistance || currentDistance > 3.0)
    ensures action == Idle && currentDistance > 3.0 ==> reward <= previousDistance - currentDistance - 0.5
    ensures action == Idle ==>
      reward == previousDistance - currentDistance
        - (if currentDistance < minChaseDistance then 0.3 else 0.0)
        - (if currentDistance > 3.0 then 0.5 else 0.0)
  {
    var reward := previousDistance - currentDistance;
    var reward := if currentDistance < minChaseDistance && action == Idle then reward - 0.3 else reward;
    var reward := if action == Idle && currentDistance > 3.0 then reward - 0.5 else reward;
    if currentDistance < 2.0 && action == MoveToward then reward - 0.5 else reward
  }

  /** With the action and the penalty conditions fixed, ending farther away
      always earns strictly less. */
  lemma RewardDecreasesWithDistance(previousDistance: real, near: real, far: real, action: int, minChaseDistance: real)
    requires near < far
    requires (near < minChaseDistance) == (far < minChaseDistance)
    requires (near > 3.0) == (far > 3.0) && (near < 2.0) == (far < 2.0)
    ensures ComputeReward(previousDistance, far, action, minChaseDistance)
          < ComputeReward(previousDistance, near, action, minChaseDistance)
  {
  }

  // ---- one frame of the controller, as a function of the state ----

  /** The inspector settings of the enemy. */
  datatype Tuning = Tuning(
    learningRate: real, discount: real, epsilon: real, actionDuration: real,
    minChaseDistance: real, attackDistance: real, attackCooldown: real,
    retreatDistance: real, retreatSpeed: real)

  /** The fields of the enemy that its methods change. */
  datatype Brain = Brain(
    qTable: QTable, actionTimer: real, currentAction: int, previousDistance: real,
    attackTimer: real, postConversationTimer: real, isRetreating: bool,
    retreatDirection: Vec3)

  /** What one frame reads from the world. `awayFromPlayer` and `towardPlayer`
      stand for the normalised offsets from player to enemy and back; `roll` is
      `Random.value` and `randomAction` is `Random.Range(0, 5)`. */
  datatype Sense = Sense(
    playerFound: bool, conversationActive: bool, distance: real, angle: real,
    awayFromPlayer: Vec3, towardPlayer: Vec3, deltaTime: real,
    roll: real, randomAction: int)

  /** `movement.Idle()` or `movement.MoveByDirection(direction)`. */
  datatype Command = Stay | MoveBy(direction: Vec3)

  /** The actuator call of the frame, if any, and the damage dealt. */
  datatype Effects = Effects(command: Option<Command>, damage: seq<real>)

  predicate ValidBrain(b: Brain) {
    WellFormed(b.qTable) && 0 <= b.currentAction < ActionCount
  }

  predicate ValidSense(s: Sense) {
    0 <= s.randomAction < ActionCount
  }

  /** `HandleEncounter`: with the cooldown over and the player in reach, one hit,
      the cooldown restarted and a retreat begun away from the player. */
  function Encounter(t: Tuning, b: Brain, distance: real, awayFromPlayer: Vec3): (Brain, seq<real>) {
    if b.attackTimer > 0.0 || distance > t.attackDistance then (b, [])
    else (b.(attackTimer := t.attackCooldown, isRetreating := true, retreatDirection := awayFromPlayer), [AttackDamage])
  }

  /** The decision step of `Update` (lines 117-133): when the action timer runs
      out, choose an action for the current state, reward it by the distance
      closed since the previous decision, and learn into the cell of the current
      state and the action just chosen. */
  function Decide(t: Tuning, b: Brain, s: Sense): (r: Brain)
    requires ValidBrain(b) && ValidSense(s)
    ensures ValidBrain(r)
  {
    var timer := b.actionTimer - s.deltaTime;
    if timer > 0.0 then b.(actionTimer := timer)
    else
      var key := GetStateKey(s.distance, s.angle);
      var table := WithState(b.qTable, key);
      var action := Choice(table[key], s.roll, s.randomAction, t.epsilon);
      var reward := ComputeReward(b.previousDistance, s.distance, action, t.minChaseDistance);
      b.(actionTimer := t.actionDuration, currentAction := action,
         qTable := Learn(table, key, action, reward, t.learningRate, t.discount),
         previousDistance := s.distance)
  }

  /** Where the current action sends the enemy: toward the player unless already
      inside the minimum chase distance, else the fixed direction of the action. */
  function MoveDirection(t: Tuning, action: int, s: Sense): Vec3
    requires 0 <= action < ActionCount
  {
    if action == MoveToward then (if s.distance < t.minChaseDistance then Zero else s.towardPlayer)
    else ActionVector(action)
  }

  /** One call of `Update`. */
  function Tick(t: Tuning, b: Brain, s: Sense): (r: (Brain, Effects))
    requires ValidBrain(b) && ValidSense(s)
    ensures ValidBrain(r.0)
  {
    if !s.playerFound then (b, Effects(None, []))
    else if s.conversationActive then
      var command := if s.distance < t.retreatDistance then MoveBy(s.awayFromPlayer) else Stay;
      (b.(postConversationTimer := ConversationPause), Effects(Some(command), []))
    else if b.postConversationTimer > 0.0 then
      (b.(postConversationTimer := b.postConversationTimer - s.deltaTime), Effects(Some(Stay), []))
    else
      var cooled := b.(attackTimer := if b.attackTimer > 0.0 then b.attackTimer - s.deltaTime else b.attackTimer);
      if cooled.isRetreating then
        (cooled.(isRetreating := s.distance < t.retreatDistance),
         Effects(Some(MoveBy(Scale(cooled.retreatDirection, t.retreatSpeed))), []))
      else
        var encounter := Encounter(t, cooled, s.distance, s.awayFromPlayer);
        var decided := Decide(t, encounter.0, s);
        (decided, Effects(Some(MoveBy(MoveDirection(t, decided.currentAction, s))), encounter.1))
  }

  // ---- properties of a frame ----

  /** A frame on which the decision timer is consulted. */
  predicate ReachesDecision(b: Brain, s: Sense) {
    s.playerFound && !s.conversationActive && b.postConversationTimer <= 0.0 && !b.isRetreating
  }

  /** Without a player nothing changes and nothing is commanded. */
  lemma NoPlayerNoChange(t: Tuning, b: Brain, s: Sense)
    requires ValidBrain(b) && ValidSense(s) && !s.playerFound
    ensures Tick(t, b, s) == (b, Effects(None, []))
  {
  }

  /** A conversation overrides everything, a running retreat included: the pause
      is re-armed, the enemy backs off while within the retreat distance and idles
      beyond it; nothing is learned, no attack is made, no other field changes. */
  lemma ConversationInterrupts(t: Tuning, b: Brain, s: Sense)
    requires ValidBrain(b) && ValidSense(s) && s.playerFound && s.conversationActive
    ensures Tick(t, b, s).0 == b.(postConversationTimer := ConversationPause)
    ensures Tick(t, b, s).1.damage == []
    ensures Tick(t, b, s).1.command == Some(if s.distance < t.retreatDistance then MoveBy(s.awayFromPlayer) else Stay)
  {
  }

  /** After a conversation the enemy idles until the pause has run down. */
  lemma PauseAfterConversation(t: Tuning, b: Brain, s: Sense)
    requires ValidBrain(b) && ValidSense(s) && s.playerFound && !s.conversationActive
    requires b.postConversationTimer > 0.0
    ensures Tick(t, b, s) == (b.(postConversationTimer := b.postConversationTimer - s.deltaTime), Effects(Some(Stay), []))
  {
  }

  /** A retreating enemy only backs off along its retreat direction: no attack,
      no learning, and the retreat ends once the retreat distance is reached. */
  lemma RetreatOnlyMoves(t: Tuning, b: Brain, s: Sense)
    requires ValidBrain(b) && ValidSense(s) && ReachesDecision(b.(isRetreating := false), s) && b.isRetreating
    ensures Tick(t, b, s).1 == Effects(Some(MoveBy(Scale(b.retreatDirection, t.retreatSpeed))), [])
    ensures Tick(t, b, s).0.qTable == b.qTable && Tick(t, b, s).0.currentAction == b.currentAction
    ensures Tick(t, b, s).0.isRetreating <==> s.distance < t.retreatDistance
  {
  }

  /** An attack happens exactly when the frame gets past the retreat check, the
      cooldown (after this frame's decrement) is over and the player is within
      the attack distance. It deals one hit, restarts the cooldown and starts a
      retreat away from the player. */
  lemma AttackTrigger(t: Tuning, b: Brain, s: Sense)
    requires ValidBrain(b) && ValidSense(s)
    ensures var cooldown := if b.attackTimer > 0.0 then b.attackTimer - s.deltaTime else b.attackTimer;
      Tick(t, b, s).1.damage != [] <==> ReachesDecision(b, s) && cooldown <= 0.0 && s.distance <= t.attackDistance
    ensures Tick(t, b, s).1.damage != [] ==>
      && Tick(t, b, s).1.damage == [AttackDamage]
      && Tick(t, b, s).0.attackTimer == t.attackCooldown
      && Tick(t, b, s).0.isRetreating
      && Tick(t, b, s).0.retreatDirection == s.awayFromPlayer
  {
  }

  /** Learning happens only on frames that reach the decision step with the action
      timer run out; every other frame leaves the table, the action and the
      remembered distance alone. */
  lemma LearningOnlyOnDecisions(t: Tuning, b: Brain, s: Sense)
    requires ValidBrain(b) && ValidSense(s)
    requires !(ReachesDecision(b, s) && b.actionTimer - s.deltaTime <= 0.0)
    ensures Tick(t, b, s).0.qTable == b.qTable
    ensures Tick(t, b, s).0.currentAction == b.currentAction
    ensures Tick(t, b, s).0.previousDistance == b.previousDistance
  {
  }

  /** A decision frame (the attack frame included) restarts the action timer,
      picks the action for the CURRENT state key, and changes the table only in
      the cell of that key and the action just chosen, moving it toward the
      reward for the distance closed since the previous decision. The previous
      (state, action) pair is not the one updated. */
  lemma DecisionUpdatesCurrentCell(t: Tuning, b: Brain, s: Sense)
    requires ValidBrain(b) && ValidSense(s)
    requires ReachesDecision(b, s) && b.actionTimer - s.deltaTime <= 0.0
    ensures var r := Tick(t, b, s).0;
      var key := GetStateKey(s.distance, s.angle);
      var before := WithState(b.qTable, key)[key];
      && r.actionTimer == t.actionDuration
      && r.previousDistance == s.distance
      && r.currentAction == Choice(before, s.roll, s.randomAction, t.epsilon)
      && r.qTable.Keys == b.qTable.Keys + {key}
      && (forall k :: k in b.qTable && k != key ==> r.qTable[k] == b.qTable[k])
      && (forall j :: 0 <= j < ActionCount && j != r.currentAction ==> r.qTable[key][j] == before[j])
      && r.qTable[key][r.currentAction] == QStep(before[r.currentAction],
           ComputeReward(b.previousDistance, s.distance, r.currentAction, t.minChaseDistance),
           t.learningRate, t.discount)
  {
  }

  /** With exploration switched off, a state never seen before is answered with Idle. */
  lemma UnseenStateGreedyIdle(t: Tuning, b: Brain, s: Sense)
    requires ValidBrain(b) && ValidSense(s)
    requires ReachesDecision(b, s) && b.actionTimer - s.deltaTime <= 0.0
    requires s.roll >= t.epsilon && GetStateKey(s.distance, s.angle) !in b.qTable
    ensures Tick(t, b, s).0.currentAction == Idle
  {
    ZerosChooseIdle();
  }

  // ---- the component ----

  /** `QLiteAI` with the fields its methods change and the inspector settings,
      which the code never writes, as constants. */
  class Agent {
    const learningRate: real
    const discount: real
    const epsilon: real
    const actionDuration: real
    const minChaseDistance: real
    const attackDistance: real
    const attackCooldown: real
    const retreatDistance: real
    const retreatSpeed: real

    var qTable: QTable
    var actionTimer: real
    var currentAction: int
    var previousDistance: real
    var attackTimer: real
    var postConversationTimer: real
    var isRetreating: bool
    var retreatDirection: Vec3

    function Settings(): Tuning {
      Tuning(learningRate, discount, epsilon, actionDuration, minChaseDistance,
             attackDistance, attackCooldown, retreatDistance, retreatSpeed)
    }

    ghost function State(): Brain
      reads this
    {
      Brain(qTable, actionTimer, currentAction, previousDistance, attackTimer,
            postConversationTimer, isRetreating, retreatDirection)
    }

    ghost predicate Valid()
      reads this
    {
      ValidBrain(State())
    }

    /** The field initialisers: an empty table and all timers at zero. */
    constructor (settings: Tuning)
      ensures Valid() && Settings() == settings
      ensures State() == Brain(map[], 0.0, 0, 0.0, 0.0, 0.0, false, Zero)
    {
      learningRate, discount, epsilon := settings.learningRate, settings.discount, settings.epsilon;
      actionDuration, minChaseDistance := settings.actionDuration, settings.minChaseDistance;
      attackDistance, attackCooldown := settings.attackDistance, settings.attackCooldown;
      retreatDistance, retreatSpeed := settings.retreatDistance, settings.retreatSpeed;
      qTable := map[];
      actionTimer, currentAction, previousDistance := 0.0, 0, 0.0;
      attackTimer, postConversationTimer := 0.0, 0.0;
      isRetreating, retreatDirection := false, Zero;
    }

    /** `LoadQTable`: a missing save file (`None`) leaves the table as it is; a
        record whose values list is shorter than its keys list throws, also
        leaving the table as it is. Returns whether the method completed. */
    method LoadQTable(saveFile: Option<SerializationWrapper>) returns (completed: bool)
      requires Valid()
      requires saveFile.Some? ==> forall i :: 0 <= i < |saveFile.value.values| ==> |saveFile.value.values[i]| == ActionCount
      modifies this`qTable
      ensures Valid()
      ensures completed <==> saveFile.None? || |saveFile.value.keys| <= |saveFile.value.values|
      ensures !completed || saveFile.None? ==> qTable == old(qTable)
      ensures completed && saveFile.Some? ==> qTable == Assemble(saveFile.value.keys, saveFile.value.values)
    {
      if saveFile.None? {
        return true;
      }
      var loaded := saveFile.value.ToDictionary();
      if loaded.Failure? {
        return false;
      }
      AssembleWellFormed(saveFile.value.keys, saveFile.value.values);
      qTable := loaded.value;
      completed := true;
    }

    /** `SaveQTable` without the file write: the record that would be written. */
    method SaveQTable() returns (record: SerializationWrapper)
      ensures fresh(record)
      ensures Represents(record.keys, record.values, qTable)
      ensures |record.keys| <= |record.values| && Assemble(record.keys, record.values) == qTable
    {
      record := new SerializationWrapper(qTable);
      RoundTrip(record.keys, record.values, qTable);
    }

    /** `Start`: load the table, then remember the distance to the player if one
        is found. A load that throws ends `Start` early. */
    method Start(saveFile: Option<SerializationWrapper>, playerDistance: Option<real>)
      requires Valid()
      requires saveFile.Some? ==> forall i :: 0 <= i < |saveFile.value.values| ==> |saveFile.value.values[i]| == ActionCount
      modifies this`qTable, this`previousDistance
      ensures Valid()
      ensures saveFile.None? ==> qTable == old(qTable)
      ensures saveFile.Some? && |saveFile.value.keys| <= |saveFile.value.values| ==>
        qTable == Assemble(saveFile.value.keys, saveFile.value.values)
      ensures saveFile.Some? && |saveFile.value.values| < |saveFile.value.keys| ==>
        qTable == old(qTable) && previousDistance == old(previousDistance)
      ensures (saveFile.None? || |saveFile.value.keys| <= |saveFile.value.values|) ==>
        previousDistance == (if playerDistance.Some? then playerDistance.value else old(previousDistance))
    {
      var completed := LoadQTable(saveFile);
      if !completed {
        return;
      }
      if playerDistance.Some? {
        previousDistance := playerDistance.value;
      }
    }

    /** `ChooseAction`: insert an all-zero vector for an unseen state (before the
        coin toss, so also when exploring), then explore or exploit. */
    method ChooseAction(state: string, roll: real, randomAction: int) returns (action: int)
      requires Valid() && 0 <= randomAction < ActionCount
      modifies this`qTable
      ensures Valid()
      ensures qTable == WithState(old(qTable), state)
      ensures action == Choice(qTable[state], roll, randomAction, epsilon)
      ensures 0 <= action < ActionCount
    {
      if state !in qTable {
        qTable := qTable[state := Zeros];
      }
      if roll < epsilon {
        return randomAction;
      }
      action := GreedyAction(qTable[state]);
    }

    /** `UpdateQValue`: one cell moves toward the reward; the key must be present,
        which `ChooseAction` ensures earlier in the same frame. */
    method UpdateQValue(state: string, actionIndex: int, reward: real)
      requires Valid() && state in qTable && 0 <= actionIndex < ActionCount
      modifies this`qTable
      ensures Valid()
      ensures qTable == Learn(old(qTable), state, actionIndex, reward, learningRate, discount)
    {
      var qValues := qTable[state];
      var maxNext := 0.0;
      var updated := qValues[actionIndex] + learningRate * (reward + discount * maxNext - qValues[actionIndex]);
      assert updated == QStep(qValues[actionIndex], reward, learningRate, discount);
      qValues := qValues[actionIndex := updated];
      qTable := qTable[state := qValues];
    }

    /** `HandleEncounter` */
    method HandleEncounter(distance: real, awayFromPlayer: Vec3) returns (damage: seq<real>)
      modifies this`attackTimer, this`isRetreating, this`retreatDirection
      ensures (State(), damage) == Encounter(Settings(), old(State()), distance, awayFromPlayer)
    {
      damage := [];
      if attackTimer > 0.0 {
        return;
      }
      if distance <= attackDistance {
        damage := [AttackDamage];
        attackTimer := attackCooldown;
        isRetreating := true;
        retreatDirection := awayFromPlayer;
      }
    }

    /** The decision half of `Update` (the action timer runs down; at zero it
        restarts and the enemy picks an action and learns from its reward). */
    method DecideAction(sense: Sense)
      requires Valid() && ValidSense(sense)
      modifies this`actionTimer, this`currentAction, this`qTable, this`previousDistance
      ensures Valid()
      ensures State() == Decide(Settings(), old(State()), sense)
    {
      actionTimer := actionTimer - sense.deltaTime;
      if actionTimer <= 0.0 {
        actionTimer := actionDuration;
        var state := GetStateKey(sense.distance, sense.angle);
        currentAction := ChooseAction(state, sense.roll, sense.randomAction);
        var reward := ComputeReward(previousDistance, sense.distance, currentAction, minChaseDistance);
        UpdateQValue(state, currentAction, reward);
        previousDistance := sense.distance;
      }
    }

    /** `Update`: one frame. */
    method Update(sense: Sense) returns (effects: Effects)
      requires Valid() && ValidSense(sense)
      modifies this
      ensures Valid()
      ensures (State(), effects) == Tick(Settings(), old(State()), sense)
    {
      if !sense.playerFound {
        return Effects(None, []);
      }
      if sense.conversationActive {
        postConversationTimer := ConversationPause;
        var command := if sense.distance < retreatDistance then MoveBy(sense.awayFromPlayer) else Stay;
        return Effects(Some(command), []);
      }
      if postConversationTimer > 0.0 {
        postConversationTimer := postConversationTimer - sense.deltaTime;
        return Effects(Some(Stay), []);
      }
      if attackTimer > 0.0 {
        attackTimer := attackTimer - sense.deltaTime;
      }
      if isRetreating {
        var command := MoveBy(Scale(retreatDirection, retreatSpeed));
        if sense.distance >= retreatDistance {
          isRetreating := false;
        }
        return Effects(Some(command), []);
      }
      var damage := HandleEncounter(sense.distance, sense.awayFromPlayer);
      DecideAction(sense);
      var moveDir;
      if currentAction == MoveToward {
        moveDir := if sense.distance < minChaseDistance then Zero else sense.towardPlayer;
      } else {
        moveDir := ActionVector(currentAction);
      }
      effects := Effects(Some(MoveBy(moveDir)), damage);
    }
  }
}
