# Restore Rusty: gameplay logic in Dafny

This project models the gameplay scripts of a small Unity game (a toy's
escape through two levels) and proves properties of them. The main part is
the tabular Q-learning enemy of level 2 (`QLiteAI`). It models these pieces:

- the state key built from distance and bearing buckets;
- the lazily grown value table and its save-file form;
- the epsilon-greedy choice, where the first maximum wins;
- the shaped reward and the one-step update, whose bootstrap term is fixed at zero;
- the per-frame priority machine: conversation, pause after a conversation,
  retreat, attack, then decision.

Around it are the smaller state machines of the rest of the game:

- the table enemy's patrol, chase and switching controller;
- the bouncy ball's Idle/Alert hysteresis;
- the train's waypoint cursor and its per-player hit cooldown;
- the player's health with its death latch, and the fall-damage detector;
- the picture book's page cursor and panels;
- the candle quick-time event;
- the game manager's pause and ending latches;
- the player's gear power-ups, knockback and freeze.

Each component with state in the game is a `class` whose methods change its
fields. Each method is proved equal to a pure step function of the old state,
such as `QLite.Tick`, `EnemyPatrol.PatrolTick` or `PlayerHealth.DamageStep`.
The lemmas about those step functions, and about runs of them, carry the
properties. Everything the scripts ask of the engine is an input of the step,
and what they do to the world is an output. That covers geometry, random
draws, the ground test, the time and the conversation flag on the input side,
and movement commands, damage calls and callback invocations on the output side.

| file | module | source |
|---|---|---|
| common.dfy | `Common` | vectors, `Option`/`Result`, `Mathf.Min`/`Clamp` |
| state_encoder.dfy | `StateEncoder` | `QLiteAI.GetStateKey` |
| value_table.dfy | `ValueTable` | `QLiteAI.qTable`, `UpdateQValue`, `SerializationWrapper` |
| qlite_ai.dfy | `QLite` | `QLiteAI` |
| patrol.dfy | `EnemyPatrol` | `PatrolState` |
| chase.dfy | `EnemyChase` | `ChaseState` |
| enemy_fsm.dfy | `EnemyFsm` | `EnemyFSMController` |
| bouncy_ball.dfy | `BouncyBall` | `BouncyBallAI` |
| train_polyline.dfy | `TrainPolyline` | `TrainOnPolyline` |
| train_damage.dfy | `TrainDamage` | `TrainDamageKnockback` |
| player_stats.dfy | `PlayerHealth` | `PlayerStats` |
| fall_detector.dfy | `FallDamage` | `FallDetector` |
| book_manager.dfy | `Book` | `BookManager` |
| candle.dfy | `CandleQte` | `CandleController` |
| game_manager.dfy | `GameManager` | `GameManagerScript` |
| player_controller.dfy | `PlayerMovement` | `PlayerMovementFreeLook` |

The floats of the source are modelled as `real`, so no rounding is modelled.
In three places the written code differs from the behaviour described for it,
and the model follows the code:

- **The decision step learns into the current state's cell.** On a decision
  frame, `QLiteAI.Update` picks the action for the current state. It computes
  the reward from the distance closed since the previous decision. It then
  updates the cell of the current state and the action just chosen, not the
  cell of the previous state and action. `QLite.DecisionUpdatesCurrentCell`
  states this.
- **Surplus save-file values are ignored.** `ToDictionary` ignores a values
  list longer than the keys list, and throws on a shorter one.
- **The speed boost has no overall cap.** `maxSpeedBoost` is commented as the
  maximum total speed increase (`PlayerController.cs` line 23), but each
  pick-up caps its boost relative to the current speed (lines 176-180), so
  the increases add up without limit. `PlayerMovement.SpeedGrowsWithoutBound`
  and `PlayerMovement.SpeedExceedsAnyBound` state this.

## Model

| member | source | states |
|---|---|---|
| StateEncoder.DistanceBucket | Assets/ScriptsLevel2/QliteAI.cs:159 | the distance bucket lies in [0, 10]; below 20 units it is the bucket of width 2 that contains the distance, and from 20 on it is 10 |
| StateEncoder.DistanceBucketMonotone | Assets/ScriptsLevel2/QliteAI.cs:159 | a greater distance never falls in a nearer bucket |
| StateEncoder.AngleBucket | Assets/ScriptsLevel2/QliteAI.cs:162 | the angle bucket is the quarter turn, counted from -180 degrees, that contains the angle; it is 0..3 on [-180, 180) and 4 only at exactly 180 |
| StateEncoder.AngleSectors | Assets/ScriptsLevel2/QliteAI.cs:162 | bucket k (0..3) is exactly the angles in [-180 + 90k, -90 + 90k) |
| StateEncoder.IntToStringRoundTrip | Assets/ScriptsLevel2/QliteAI.cs:164 | the decimal text of an int reads back as that int and has no underscore |
| StateEncoder.StateKeyRoundTrip | Assets/ScriptsLevel2/QliteAI.cs:164 | splitting a "d_a" key at its first underscore gives back both bucket numbers |
| StateEncoder.StateKeyInjective | Assets/ScriptsLevel2/QliteAI.cs:164 | two different bucket pairs never share a key |
| StateEncoder.GetStateKey | Assets/ScriptsLevel2/QliteAI.cs:154-165 | the key decodes to the distance bucket and the angle bucket of the input |
| StateEncoder.SameKeyIffSameBuckets | Assets/ScriptsLevel2/QliteAI.cs:154-165 | two geometries share a key if and only if both of their buckets agree |
| ValueTable.WithState | Assets/ScriptsLevel2/QliteAI.cs:169-170 | the lazy insert adds the key with an all-zero vector if it is missing, leaves every existing entry untouched, and keeps every vector of length 5 |
| ValueTable.QStep | Assets/ScriptsLevel2/QliteAI.cs:214 | the new value's gap to the reward is (1 - learningRate) times the old gap; with a rate in [0, 1] the new value lies between the old value and the reward |
| ValueTable.DiscountHasNoEffect | Assets/ScriptsLevel2/QliteAI.cs:213-214 | with the bootstrap term fixed at 0 the discount factor never changes the update |
| ValueTable.Learn | Assets/ScriptsLevel2/QliteAI.cs:210-216 | exactly one cell changes, that of the given key and action, and it becomes the `QStep` of its old value; the keys stay the same and so does every other vector and cell |
| ValueTable.AssembleLastWins | Assets/ScriptsLevel2/QliteAI.cs:269-275 | the rebuilt table has exactly the listed keys; for a repeated key, the vector at its last position wins |
| ValueTable.AssembleWellFormed | Assets/ScriptsLevel2/QliteAI.cs:269-275 | rebuilding from lists of length-5 vectors gives a table of length-5 vectors |
| ValueTable.RoundTrip | Assets/ScriptsLevel2/QliteAI.cs:260-275 | rebuilding from lists that represent a table gives back that very table |
| ValueTable.SerializationWrapper.constructor | Assets/ScriptsLevel2/QliteAI.cs:260-267 | the two parallel lists hold every entry of the dictionary once, each key beside its vector, in an unspecified order |
| ValueTable.SerializationWrapper.ToDictionary | Assets/ScriptsLevel2/QliteAI.cs:269-275 | fails exactly when the values list is shorter than the keys list; otherwise returns the table the assignment loop builds |
| QLite.FirstMaxIndex | Assets/ScriptsLevel2/QliteAI.cs:175-186 | the index holds the maximum of the vector, and no earlier index holds it |
| QLite.FirstMaxUnique | Assets/ScriptsLevel2/QliteAI.cs:175-186 | a vector has one first maximum, so the greedy choice is determined by the vector |
| QLite.ZerosChooseIdle | Assets/ScriptsLevel2/QliteAI.cs:169-186 | on the all-zero vector of an unseen state the greedy choice is action 0 (Idle) |
| QLite.GreedyAction | Assets/ScriptsLevel2/QliteAI.cs:175-186 | the strict-greater scan returns the first index of the maximum |
| QLite.Choice | Assets/ScriptsLevel2/QliteAI.cs:172-186 | a draw below epsilon returns the random action; otherwise the result is the first maximum |
| QLite.ComputeReward | Assets/ScriptsLevel2/QliteAI.cs:189-208 | the reward is the distance closed, minus at most 0.8. Action 1 loses 0.5 when closer than 2. Actions 2-4 lose nothing. Idle loses exactly 0.3 inside the minimum chase distance plus 0.5 beyond 3, the two adding up when both apply, and loses something if and only if one of them applies |
| QLite.RewardDecreasesWithDistance | Assets/ScriptsLevel2/QliteAI.cs:189-208 | with the action and the penalty conditions fixed, ending farther away earns strictly less |
| QLite.Decide | Assets/ScriptsLevel2/QliteAI.cs:116-133 | the decision step keeps the table well formed and the action in [0, 5) |
| QLite.Tick | Assets/ScriptsLevel2/QliteAI.cs:67-151 | a frame keeps the table well formed and the current action in [0, 5) |
| QLite.NoPlayerNoChange | Assets/ScriptsLevel2/QliteAI.cs:69-70 | without a player nothing changes and no command is issued |
| QLite.ConversationInterrupts | Assets/ScriptsLevel2/QliteAI.cs:71-91 | during a conversation only the pause timer changes (to 8), even mid-retreat. The enemy backs off inside the retreat distance and idles beyond it. No attack, no learning |
| QLite.PauseAfterConversation | Assets/ScriptsLevel2/QliteAI.cs:92-97 | while the pause runs, the enemy only counts it down and idles |
| QLite.RetreatOnlyMoves | Assets/ScriptsLevel2/QliteAI.cs:99-111 | a retreating enemy only moves along its retreat direction times the retreat speed. No attack, no learning. The retreat ends once the retreat distance is reached |
| QLite.AttackTrigger | Assets/ScriptsLevel2/QliteAI.cs:219-234 | an attack happens if and only if the frame passes the earlier checks, the cooldown (after this frame's decrement) is over and the player is within attack distance. It deals exactly one 0.2 hit, restarts the cooldown and starts a retreat away from the player |
| QLite.LearningOnlyOnDecisions | Assets/ScriptsLevel2/QliteAI.cs:116-133 | frames that do not reach the decision step with the action timer run out leave the table, the action and the remembered distance unchanged |
| QLite.DecisionUpdatesCurrentCell | Assets/ScriptsLevel2/QliteAI.cs:117-129 | a decision frame restarts the timer and chooses for the current key. It moves only the cell of that key and the chosen action toward the reward for the distance closed, and remembers the new distance |
| QLite.UnseenStateGreedyIdle | Assets/ScriptsLevel2/QliteAI.cs:167-186 | without exploration a never-seen state is answered with Idle |
| QLite.Agent.constructor | Assets/ScriptsLevel2/QliteAI.cs:32-43 | an empty table, all timers at zero, action 0, not retreating |
| QLite.Agent.LoadQTable | Assets/ScriptsLevel2/QliteAI.cs:244-252 | a missing file leaves the table unchanged; a record with too few values throws and leaves it unchanged; otherwise the table becomes the rebuilt record |
| QLite.Agent.SaveQTable | Assets/ScriptsLevel2/QliteAI.cs:237-242 | the record written represents the table, and loading it back gives the same table |
| QLite.Agent.Start | Assets/ScriptsLevel2/QliteAI.cs:45-65 | loads the table as above and then records the distance to a player that is found; a load that throws skips the second step |
| QLite.Agent.ChooseAction | Assets/ScriptsLevel2/QliteAI.cs:167-187 | the table gains the state with a zero vector even when exploring, and nothing else; the action is the explored or greedy `Choice` and lies in [0, 5) |
| QLite.Agent.UpdateQValue | Assets/ScriptsLevel2/QliteAI.cs:210-216 | the table becomes `Learn` of the old table: one cell moves toward the reward |
| QLite.Agent.HandleEncounter | Assets/ScriptsLevel2/QliteAI.cs:219-234 | the new fields and the damage are those of `Encounter`: one hit within attack distance once the cooldown is over |
| QLite.Agent.DecideAction | Assets/ScriptsLevel2/QliteAI.cs:116-133 | the new fields are `Decide` of the old ones |
| QLite.Agent.Update | Assets/ScriptsLevel2/QliteAI.cs:67-151 | the new fields and the frame's command and damage are exactly `Tick` of the old fields, so every lemma about `Tick` holds of the component |
| EnemyPatrol.Advance | Assets/Enemy/Patrol.cs:64-86 | the index stays in [0, n). Loop steps up and wraps from n - 1 to 0. PingPong steps in its direction, turns to n - 2 going down at the top, and to 1 going up at the bottom |
| EnemyPatrol.AdvanceTimes | Assets/Enemy/Patrol.cs:64-86 | any number of advances keeps the index in [0, n) and the direction at plus or minus 1 |
| EnemyPatrol.LoopVisitsInTurn | Assets/Enemy/Patrol.cs:66-69 | in Loop mode the k-th advance (k up to n) lands k points further on, modulo n |
| EnemyPatrol.LoopPeriod | Assets/Enemy/Patrol.cs:66-69 | in Loop mode n advances return to the starting point |
| EnemyPatrol.PingPongSweeps | Assets/Enemy/Patrol.cs:70-83 | in PingPong mode, short of an end, each advance moves one point in the current direction |
| EnemyPatrol.PingPongRoundTrip | Assets/Enemy/Patrol.cs:70-83 | from point 0 PingPong reaches n - 1 after n - 1 advances and is back at 0, heading down, after 2(n - 1) |
| EnemyPatrol.PatrolTick | Assets/Enemy/Patrol.cs:23-62 | a frame keeps the cursor valid for the route |
| EnemyPatrol.NoPointsNoChange | Assets/Enemy/Patrol.cs:25 | without patrol points a frame changes nothing |
| EnemyPatrol.WalkingKeepsCursor | Assets/Enemy/Patrol.cs:43-61 | away from the point the enemy steps `patrolSpeed * deltaTime` toward it; index, direction and wait timer are unchanged |
| EnemyPatrol.WaitThenAdvance | Assets/Enemy/Patrol.cs:31-41 | at the point the wait accumulates. The index changes only once the wait reaches `waitTime`, and then advances once and the wait restarts at 0 |
| EnemyPatrol.PatrolState.constructor | Assets/Enemy/Patrol.cs:14-16 | index 0, direction +1, no wait |
| EnemyPatrol.PatrolState.EnterState | Assets/Enemy/Patrol.cs:18-21 | only the wait timer changes, to 0 |
| EnemyPatrol.PatrolState.AdvancePatrolIndex | Assets/Enemy/Patrol.cs:64-86 | the new index and direction are `Advance` of the old ones |
| EnemyPatrol.PatrolState.UpdateState | Assets/Enemy/Patrol.cs:23-62 | the new fields and the step are `PatrolTick` of the old fields, and the cursor stays valid |
| EnemyChase.StrikeRule | Assets/Enemy/Chase.cs:44-74 | a hit happens if and only if a player is known, the cooldown is over and the player is within the hit radius. It deals 0.2, pushes horizontally with `knockbackForce` exactly when the player can be pushed, and restarts the cooldown. A cooling frame only counts down; other frames keep the timer |
| EnemyChase.NoStrikeWithinCooldown | Assets/Enemy/Chase.cs:49-53 | over frames whose times add up to less than the cooldown, every frame only cools down, and the timer drops by their sum |
| EnemyChase.ChaseState.constructor | Assets/Enemy/Chase.cs:16-17 | no player and no cooldown |
| EnemyChase.ChaseState.EnterState | Assets/Enemy/Chase.cs:19-33 | a player found now is remembered and the cooldown is cleared, so a re-entered chase may hit at once |
| EnemyChase.ChaseState.UpdateState | Assets/Enemy/Chase.cs:44-91 | the new cooldown and the outcome are `ChaseTick` of the old cooldown |
| EnemyFsm.NextOffTableTimer | Assets/Enemy/EnemyFSMController.cs:35-42 | the timer is re-armed to 1.5 at another height; otherwise it counts down while positive |
| EnemyFsm.NoPlayerNoChange | Assets/Enemy/EnemyFSMController.cs:30 | without a player the controller changes nothing and calls no state |
| EnemyFsm.OffTableTimerRule | Assets/Enemy/EnemyFSMController.cs:35-42 | after a frame the off-table timer is 1.5 if the heights differ by 0.5 or more; otherwise it is the old timer, counted down if it was positive |
| EnemyFsm.StartChaseRule | Assets/Enemy/EnemyFSMController.cs:44-47 | the enemy starts chasing if and only if the player is within the chase radius, at the same height, the updated off-table timer is out, and it was not chasing |
| EnemyFsm.ReturnToPatrolRule | Assets/Enemy/EnemyFSMController.cs:48-51 | the enemy returns to patrol if and only if the player is beyond the chase radius and it was not patrolling |
| EnemyFsm.ChasePersistsInRadius | Assets/Enemy/EnemyFSMController.cs:44-51 | inside the chase radius a chase goes on, even when the heights differ |
| EnemyFsm.SwitchOrder | Assets/Enemy/EnemyFSMController.cs:44-61 | a switch exits the old state before entering the new one, and the current state is then updated once, last |
| EnemyFsm.OffTableBlocksChase | Assets/Enemy/EnemyFSMController.cs:35-47 | after a height mismatch no chase starts during frames whose times add up to less than 1.5 seconds |
| EnemyFsm.Controller.constructor | Assets/Enemy/EnemyFSMController.cs:7-12 | no player, no state, timer at 0 |
| EnemyFsm.Controller.SwitchState | Assets/Enemy/EnemyFSMController.cs:56-61 | records exit-then-enter calls; entering patrol clears its wait; entering chase remembers the player and clears its cooldown; nothing else changes |
| EnemyFsm.Controller.Start | Assets/Enemy/EnemyFSMController.cs:14-26 | takes the two state components (either may be missing) and switches to patrol |
| EnemyFsm.Controller.DecideState | Assets/Enemy/EnemyFSMController.cs:32-51 | timer and current state become `Decision` of the old ones, with its calls recorded and its effects on the state objects |
| EnemyFsm.Controller.Update | Assets/Enemy/EnemyFSMController.cs:28-54 | fields and calls follow `FsmTick`. The current state object then changes exactly as its own `PatrolTick` or `ChaseTick` says, after entering when the frame switched to it. A chase that goes on keeps its player; the state object that is not current ends the frame unchanged |
| BouncyBall.Bounce | Assets/Scripts/BouncyBallAI.cs:86-111 | a bounce happens if and only if the timer has reached the interval, and then the timer restarts at 0. It goes in the random direction, or toward the player raised by 0.8 |
| BouncyBall.NoPlayerNoChange | Assets/Scripts/BouncyBallAI.cs:50 | without a player nothing changes |
| BouncyBall.Hysteresis | Assets/Scripts/BouncyBallAI.cs:55-79 | Idle becomes Alert if and only if the distance is below the detection range. Alert calms down if and only if it is beyond 1.2 times the range. The others are alerted exactly on Idle to Alert |
| BouncyBall.BandKeepsState | Assets/Scripts/BouncyBallAI.cs:55-79 | between the two thresholds the state persists |
| BouncyBall.BounceRule | Assets/Scripts/BouncyBallAI.cs:53-111 | the timer grows by the frame time. A bounce fires if and only if the state is kept and the timer reaches that state's interval, and it resets the timer. Idle bounces go in the random direction; alert bounces go toward the player with 0.8 added upward |
| BouncyBall.Ball.constructor | Assets/Scripts/BouncyBallAI.cs:15-21 | starts Idle with the timer at 0 |
| BouncyBall.Ball.AlertOthers | Assets/Scripts/BouncyBallAI.cs:123-130 | afterwards every linked ball is Alert |
| BouncyBall.Ball.HandleIdleBounce | Assets/Scripts/BouncyBallAI.cs:86-111 | the timer and the bounce are `Bounce` of the old timer |
| BouncyBall.Ball.Update | Assets/Scripts/BouncyBallAI.cs:48-82 | state, timer and bounce follow `BallTick`; the linked balls are all Alert when it says to alert them, and unchanged otherwise |
| TrainPolyline.StartCursor | Assets/ScriptsLevel2/TrainOnPolyline.cs:25-37 | fewer than two waypoints disables the train; otherwise it heads for waypoint 1 |
| TrainPolyline.TrainTick | Assets/ScriptsLevel2/TrainOnPolyline.cs:39-78 | the index moves by exactly one, and only on reaching the target. Past the last waypoint it wraps to 0 when looping; otherwise the train stops with the index at n. A disabled train or one on a short path does not change |
| TrainPolyline.TrainRun | Assets/ScriptsLevel2/TrainOnPolyline.cs:39-78 | over any run the index stays in [0, n], and below n while the train runs |
| TrainPolyline.ArrivalsAdvance | Assets/ScriptsLevel2/TrainOnPolyline.cs:66-68 | short of the end, after k arrivals the train is k waypoints on, whatever the other frames |
| TrainPolyline.StopsAtEnd | Assets/ScriptsLevel2/TrainOnPolyline.cs:70-76 | a non-looping train stops for good at its (n - 1)-th arrival, with the index at n |
| TrainPolyline.LoopWraps | Assets/ScriptsLevel2/TrainOnPolyline.cs:70-73 | a looping train arriving at the last waypoint heads for waypoint 0 and keeps running |
| TrainPolyline.Train.constructor | Assets/ScriptsLevel2/TrainOnPolyline.cs:23 | index 0 and enabled |
| TrainPolyline.Train.Start | Assets/ScriptsLevel2/TrainOnPolyline.cs:25-37 | the cursor becomes `StartCursor` of the old one |
| TrainPolyline.Train.MoveAlongPath | Assets/ScriptsLevel2/TrainOnPolyline.cs:46-78 | the cursor becomes `TrainTick` of the old one; the target is the old index, an existing waypoint |
| TrainPolyline.Train.Update | Assets/ScriptsLevel2/TrainOnPolyline.cs:39-44 | the cursor becomes `TrainTick` of the old one; the train moves if and only if it was enabled on a usable path |
| TrainDamage.KnockbackDirection | Assets/ScriptsLevel2/TrainDamageKnockback.cs:78-82 | the horizontal offset from train to player, or the train's forward vector when that offset's squared length is below 0.0001 |
| TrainDamage.HitStep | Assets/ScriptsLevel2/TrainDamageKnockback.cs:50-83 | a hit is accepted if and only if the tag gate passes, a player is found and that player's cooldown is over. It records only that player's time; a rejected hit leaves the map alone. It deals `damage` exactly when `PlayerStats` exists, and pushes with `knockbackForce` along `KnockbackDirection` |
| TrainDamage.RecordKept | Assets/ScriptsLevel2/TrainDamageKnockback.cs:65-69 | after an accepted hit on a player, the map keeps its time until the next accepted hit on that player |
| TrainDamage.HitsSpaced | Assets/ScriptsLevel2/TrainDamageKnockback.cs:65-69 | consecutive accepted hits on one player are at least `hitCooldown` apart, whatever happens to other players in between |
| TrainDamage.TrainHitter.constructor | Assets/ScriptsLevel2/TrainDamageKnockback.cs:23 | no hits recorded |
| TrainDamage.TrainHitter.TryHit | Assets/ScriptsLevel2/TrainDamageKnockback.cs:50-83 | the new map and the hit are `HitStep` of the old map |
| PlayerHealth.Clamped | Assets/HealthHeartSystem/Scripts/PlayerStats.cs:100-104 | health ends in [0, maxHealth], is unchanged if already there, and nothing else changes |
| PlayerHealth.HealStep | Assets/HealthHeartSystem/Scripts/PlayerStats.cs:48-52 | health rises by the amount, capped at maxHealth, and floored at 0 for a negative heal. It stays in bounds, changes neither maximum, never clears `isDead`, and fires only the health-changed callback |
| PlayerHealth.DamageStep | Assets/HealthHeartSystem/Scripts/PlayerStats.cs:68-85 | health falls by the damage, floored at 0. The player is dead afterwards if and only if already dead or at 0. The callbacks are health-changed and damage-taken on every call, then death and the game-over request only for a first death |
| PlayerHealth.AddHealthStep | Assets/HealthHeartSystem/Scripts/PlayerStats.cs:88-97 | below the total maximum, maxHealth rises by one heart and health is filled to it, with the health-changed callback; otherwise nothing changes and no callback fires. The total maximum and the death flag never change |
| PlayerHealth.DiesAtMostOnce | Assets/HealthHeartSystem/Scripts/PlayerStats.cs:75-84 | over any run of calls the death callback fires at most once, never for a player already dead, and the player ends dead if and only if it was dead or it fired. The game-over request fires exactly as often as the death callback when the game manager is set, and never otherwise |
| PlayerHealth.StaysInBounds | Assets/HealthHeartSystem/Scripts/PlayerStats.cs:48-104 | over any run of calls health stays in [0, maxHealth] and maxHealth never falls |
| PlayerHealth.PlayerStats.constructor | Assets/HealthHeartSystem/Scripts/PlayerStats.cs:32-39 | the serialized health values, alive |
| PlayerHealth.PlayerStats.ClampHealth | Assets/HealthHeartSystem/Scripts/PlayerStats.cs:100-104 | health becomes `Clamped` and the health-changed callback fires |
| PlayerHealth.PlayerStats.Heal | Assets/HealthHeartSystem/Scripts/PlayerStats.cs:48-52 | the new fields and the callbacks are `HealStep` of the old fields |
| PlayerHealth.PlayerStats.TakeDamage | Assets/HealthHeartSystem/Scripts/PlayerStats.cs:68-85 | the new fields and the callbacks are `DamageStep` of the old fields |
| PlayerHealth.PlayerStats.AddHealth | Assets/HealthHeartSystem/Scripts/PlayerStats.cs:88-97 | the new fields and the callbacks are `AddHealthStep` of the old fields |
| FallDamage.FallTick | Assets/Scripts/FallDetector.cs:24-51 | the frame's height is remembered. Airborne, the kept speed only falls and is at most this frame's speed. Damage happens if and only if a grounded frame follows an airborne one with a kept speed below the threshold, and that frame resets the detector. A grounded frame without an airborne one before it changes nothing but the height. The kept speed is never upward, and is 0 on the ground |
| FallDamage.AirborneKeepsLowest | Assets/Scripts/FallDetector.cs:32-36 | through an airborne stretch the detector deals no damage, stays in the air and keeps the lowest speed measured |
| FallDamage.DamageOnlyOnLanding | Assets/Scripts/FallDetector.cs:37-50 | no frame deals damage except the first grounded frame after an airborne one |
| FallDamage.LandingDamage | Assets/Scripts/FallDetector.cs:37-50 | after a jump the landing deals damage if and only if the threshold is positive or some airborne frame fell faster than it, and leaves the detector landed |
| FallDamage.FallDetector.constructor | Assets/Scripts/FallDetector.cs:7-17 | on the ground with no fall speed kept |
| FallDamage.FallDetector.Start | Assets/Scripts/FallDetector.cs:19-22 | only the remembered height changes |
| FallDamage.FallDetector.Update | Assets/Scripts/FallDetector.cs:24-51 | the fields follow `FallTick`. A hard landing makes exactly one `TakeDamage(1)` call on the player's stats, whose effect is `DamageStep`; otherwise the stats are unchanged |
| Book.Show | Assets/Scripts/BookManager.cs:107-125 | the requested panel is the only active one among those assigned |
| Book.ExactlyOnePanel | Assets/Scripts/BookManager.cs:107-125 | with all three panels assigned, exactly one is active |
| Book.LeftClick | Assets/Scripts/BookManager.cs:85-94 | from index 1 on it turns back one page; at 0 it shows the front cover and keeps the index |
| Book.RightClick | Assets/Scripts/BookManager.cs:96-105 | short of the last spread it turns one page; otherwise it shows the back cover and keeps the index |
| Book.LeftUndoesRight | Assets/Scripts/BookManager.cs:85-105 | a right click that turned the page is undone by a left click |
| Book.RightUndoesLeft | Assets/Scripts/BookManager.cs:85-105 | a left click that turned the page back is undone by a right click |
| Book.IndexInRange | Assets/Scripts/BookManager.cs:53-105 | after opening and any clicks the index names a spread (or is 0 for an empty book) |
| Book.SpreadAt | Assets/Scripts/BookManager.cs:127-148 | a video plays if and only if the left list has a clip at the index. The sprite is the right list's entry at the index, or none past its end |
| Book.Fill | Assets/Scripts/BookManager.cs:127-148 | the right sprite is always replaced; with a video player the clip plays, or the video stops and the left image is cleared; without one the left page is left as it was |
| Book.BookManager.constructor | Assets/Scripts/BookManager.cs:38-51 | the canvas is hidden and the cursor is at spread 0 |
| Book.BookManager.SetCanvasActive | Assets/Scripts/BookManager.cs:150-154 | an assigned canvas takes the flag |
| Book.BookManager.SetButtonsInteractable | Assets/Scripts/BookManager.cs:156-163 | every assigned button takes the flag |
| Book.BookManager.OpenBook | Assets/Scripts/BookManager.cs:53-59 | shows the canvas, disables every button and returns to spread 0 |
| Book.BookManager.CloseBook | Assets/Scripts/BookManager.cs:67-71 | hides the canvas and enables every button |
| Book.BookManager.ShowFrontCover | Assets/Scripts/BookManager.cs:107-115 | only the front cover is active |
| Book.BookManager.ShowBackCover | Assets/Scripts/BookManager.cs:117-125 | only the back cover is active |
| Book.BookManager.UpdatePageContent | Assets/Scripts/BookManager.cs:127-148 | the page view becomes `Fill` of `SpreadAt` the index: the right sprite, and the clip when present (else the video stops and the left image is cleared) |
| Book.BookManager.ShowBookPages | Assets/Scripts/BookManager.cs:73-83 | only the open spread is active, and the page view is `Fill` of the spread at the current index |
| Book.BookManager.OnLeftPageClick | Assets/Scripts/BookManager.cs:85-94 | index and panels follow `LeftClick`; the index stays in range. A page turn fills the new spread; a click that shows the front cover leaves the page content alone |
| Book.BookManager.OnRightPageClick | Assets/Scripts/BookManager.cs:96-105 | index and panels follow `RightClick` with the longer list's length; the index stays in range. A page turn fills the new spread; a click that shows the back cover leaves the page content alone |
| CandleQte.PressTick | Assets/Scripts/CandleController.cs:38-58 | a press counts only when the player is in range, the candle is not dropped and R went down. The drop starts if and only if such a press reaches the required count, and then latches and hides the prompt |
| CandleQte.Enter | Assets/Scripts/CandleController.cs:77-86 | the player entering before the drop sets the range flag, restarts the count and shows the prompt; anything else changes nothing; the drop latch never changes |
| CandleQte.Exit | Assets/Scripts/CandleController.cs:88-96 | the player leaving clears the range flag and hides the prompt; the count and the drop latch never change |
| CandleQte.DropsAtMostOnce | Assets/Scripts/CandleController.cs:40-56 | over any run of events the drop starts at most once, never after it has dropped, and the candle ends dropped if and only if it was or the drop started |
| CandleQte.DroppedIgnoresInput | Assets/Scripts/CandleController.cs:38-86 | a dropped candle counts no press and starts no drop; entering no longer restarts or shows anything |
| CandleQte.PressesCount | Assets/Scripts/CandleController.cs:40-56 | from the player's entry, fewer presses than required leave the count at the number of presses, and the required number of presses starts the drop on the last one |
| CandleQte.Candle.constructor | Assets/Scripts/CandleController.cs:24-36 | no presses, not dropped, player out of range, prompt hidden |
| CandleQte.Candle.Update | Assets/Scripts/CandleController.cs:38-58 | the flags and the drop follow `PressTick`, and the drop coroutine is started exactly once in total, together with the latch |
| CandleQte.Candle.OnTriggerEnter | Assets/Scripts/CandleController.cs:77-86 | the flags become `Enter` of the old ones |
| CandleQte.Candle.OnTriggerExit | Assets/Scripts/CandleController.cs:88-96 | the flags become `Exit` of the old ones |
| GameManager.ShowCursor | Assets/Scripts/GameManagerScript.cs:76-85 | the cursor shows if and only if the game-over, level-complete or pause menu is up |
| GameManager.Started | Assets/Scripts/GameManagerScript.cs:35-45 | only the time scale changes, to 1 |
| GameManager.Pause | Assets/Scripts/GameManagerScript.cs:121-133 | a paused game is left alone. Otherwise the game pauses, the menu shows, time stops and the player freezes |
| GameManager.Resume | Assets/Scripts/GameManagerScript.cs:135-147 | an unpaused game is left alone. Otherwise the game unpauses, the menu hides, time runs and the player unfreezes |
| GameManager.PauseThenResume | Assets/Scripts/GameManagerScript.cs:121-147 | pausing a running game and resuming it restores the game exactly |
| GameManager.PauseResumeIdempotent | Assets/Scripts/GameManagerScript.cs:121-147 | a second pause, or a second resume, changes nothing and asks nothing of the player |
| GameManager.EndGame | Assets/Scripts/GameManagerScript.cs:87-94 | the first call latches game over and freezes the player; later calls change nothing |
| GameManager.GameOverShown | Assets/Scripts/GameManagerScript.cs:96-102 | at the end of the sequence time stops and an assigned game-over screen shows, with the cursor; nothing else changes |
| GameManager.CompleteLevel | Assets/Scripts/GameManagerScript.cs:104-111 | the first call latches level complete and freezes the player; later calls change nothing |
| GameManager.LevelCompleteShown | Assets/Scripts/GameManagerScript.cs:113-119 | at the end of the sequence time stops and an assigned level-complete screen shows, with the cursor; nothing else changes |
| GameManager.EndingsIdempotent | Assets/Scripts/GameManagerScript.cs:87-111 | a second game over or level complete changes nothing and freezes no one again |
| GameManager.ConversationBlocksPause | Assets/Scripts/GameManagerScript.cs:60-65 | Escape during a conversation changes nothing |
| GameManager.EscapeToggles | Assets/Scripts/GameManagerScript.cs:58-74 | outside conversations, Escape flips the pause (with time and the player's freeze) if and only if the game is neither over nor complete; otherwise nothing changes |
| GameManager.EndedIgnoresEscape | Assets/Scripts/GameManagerScript.cs:58-74 | a game that is over or complete is unchanged by any input |
| GameManager.GameManagerScript.constructor | Assets/Scripts/GameManagerScript.cs:31-33 | not paused, not over, not complete |
| GameManager.GameManagerScript.Start | Assets/Scripts/GameManagerScript.cs:35-45 | the cursor is hidden and locked and time runs |
| GameManager.GameManagerScript.Request | Assets/Scripts/GameManagerScript.cs:129 | an assigned player is frozen (cursor released) or unfrozen (cursor captured) as asked; no request or no player leaves the cursor and `canMove` alone. Only the player's `canMove` may change |
| GameManager.GameManagerScript.PauseGame | Assets/Scripts/GameManagerScript.cs:121-133 | the flags become `Pause` of the old ones, and its request is carried out on the player: `canMove` and the cursor as `Request` states. Only the player's `canMove` may change |
| GameManager.GameManagerScript.ResumeGame | Assets/Scripts/GameManagerScript.cs:135-147 | the flags become `Resume` of the old ones, and its request is carried out on the player: `canMove` and the cursor as `Request` states. Only the player's `canMove` may change |
| GameManager.GameManagerScript.GameOver | Assets/Scripts/GameManagerScript.cs:87-94 | the flags become `EndGame` of the old ones, and its request is carried out on the player: `canMove` and the cursor as `Request` states. Only the player's `canMove` may change |
| GameManager.GameManagerScript.FinishGameOverSequence | Assets/Scripts/GameManagerScript.cs:96-102 | the flags become `GameOverShown` of the old ones |
| GameManager.GameManagerScript.LevelComplete | Assets/Scripts/GameManagerScript.cs:104-111 | the flags become `CompleteLevel` of the old ones, and its request is carried out on the player: `canMove` and the cursor as `Request` states. Only the player's `canMove` may change |
| GameManager.GameManagerScript.FinishLevelCompleteSequence | Assets/Scripts/GameManagerScript.cs:113-119 | the flags become `LevelCompleteShown` of the old ones |
| GameManager.GameManagerScript.HandlePauseInput | Assets/Scripts/GameManagerScript.cs:58-74 | the flags and the key's outcome are `PauseInput` of the old flags, and its freeze or unfreeze request is carried out on the player and the cursor. Only the player's `canMove` may change |
| GameManager.GameManagerScript.UpdateCursorState | Assets/Scripts/GameManagerScript.cs:76-85 | the cursor is visible and unlocked exactly when `ShowCursor` says so |
| GameManager.GameManagerScript.Update | Assets/Scripts/GameManagerScript.cs:47-51 | the flags follow `PauseInput`, the player is frozen or unfrozen as it asks, and after every frame the cursor is visible and unlocked if and only if a menu is up |
| PlayerMovement.GearAfterPickUp | Assets/Scripts/PlayerController.cs:167-195 | the count rises by exactly one. With both speed lines and a positive cap each speed rises by min(boost, cap), and otherwise the speeds are unchanged. The light brightens and widens by its increases, never past its maxima |
| PlayerMovement.GearsAndLight | Assets/Scripts/PlayerController.cs:167-195 | after k gears the count is up by exactly k, and the light has had k brightenings |
| PlayerMovement.BrightenComponents | Assets/Scripts/PlayerController.cs:189-194 | intensity and spot angle are raised and capped independently of each other |
| PlayerMovement.ManyGears | Assets/Scripts/PlayerController.cs:167-195 | after k gears (k at least 1) the light is the start plus k increases, capped once at its maxima |
| PlayerMovement.SpeedGrowsWithoutBound | Assets/Scripts/PlayerController.cs:174-181 | with speed lines and positive boosts, walk and run speed after k gears are k times min(boost, cap) above where they began: the cap is relative to the current speed |
| PlayerMovement.SpeedExceedsAnyBound | Assets/Scripts/PlayerController.cs:174-181 | enough gears take the walking speed past any bound, so there is no overall speed limit |
| PlayerMovement.Knockback | Assets/Scripts/PlayerController.cs:210-214 | the impulse's vertical part is the normal's times the force |
| PlayerMovement.KnockbackIsHorizontal | Assets/Scripts/PlayerController.cs:210-214 | the normalised y-zeroed direction times the force has no vertical part |
| PlayerMovement.FrozenTick | Assets/Scripts/PlayerController.cs:52-61 | while frozen on the ground nothing moves; in the air only the vertical velocity changes, by gravity, and the body moves one frame of it |
| PlayerMovement.FrozenFallsFaster | Assets/Scripts/PlayerController.cs:52-61 | a frozen body in the air only ever falls faster |
| PlayerMovement.PlayerMovementFreeLook.constructor | Assets/Scripts/PlayerController.cs:8-40 | no gears, free to move, no knockback and no velocity |
| PlayerMovement.PlayerMovementFreeLook.FreezeMovement | Assets/Scripts/PlayerController.cs:148-156 | the player cannot move and the cursor is visible and unlocked |
| PlayerMovement.PlayerMovementFreeLook.UnfreezeMovement | Assets/Scripts/PlayerController.cs:158-164 | the player can move and the cursor is hidden and locked |
| PlayerMovement.PlayerMovementFreeLook.CollectGear | Assets/Scripts/PlayerController.cs:167-195 | count, speeds and light become `GearAfterPickUp` of the old ones |
| PlayerMovement.PlayerMovementFreeLook.OnTriggerEnter | Assets/Scripts/PlayerController.cs:137-146 | a "PickUp" object collects one gear and is deactivated; any other object changes nothing |
| PlayerMovement.PlayerMovementFreeLook.ApplyKnockback | Assets/Scripts/PlayerController.cs:210-214 | the knockback becomes the normalised y-zeroed direction times the force, which is horizontal |
| PlayerMovement.PlayerMovementFreeLook.FrozenUpdate | Assets/Scripts/PlayerController.cs:50-61 | velocity and displacement follow `FrozenTick` |

## Left out

- File I/O and JSON are not modelled. That is `File.Exists`, `ReadAllText`, `WriteAllText`, `JsonUtility` and the save path. A save file is given as an optional record, and `SaveQTable` returns the record it would write.
- Vector geometry is not modelled. That covers `Vector3.Distance`, `SignedAngle`, `magnitude`, `normalized`, `MoveTowards`, rotations and slerps. Distances, angles and unit vectors are inputs, and `normalized` is only characterised (`Common.NormalOf`). Float rounding is not modelled.
- `UnityEngine.Random` is not modelled: its draws are parameters of the step that uses them. That is the epsilon roll and random action, and the bouncy ball's random bounce direction.
- Physics, rendering, animation and audio are not modelled. That covers rigidbody forces and moves, `CharacterController.Move`, the chase colour cue, the animator, and sound and music. Movement is reported as a command or a step length.
- Engine singletons and lookups are not modelled. That covers `PlayerStats.Instance`, `ConversationManager.Instance`, `SoundManager.Instance` and `FindWithTag`. Their answers are inputs (a player is found, a conversation is active), and damage calls are outputs (`QLite.Effects.damage`, `EnemyChase.Outcome`, `TrainDamage.Hit`).
  - `FallDamage.FallDetector.Update` is the exception: it calls the modelled `PlayerStats` directly.
  - `collectGear` dereferences `SoundManager.Instance` without a null check; a missing sound manager would throw there, and that is not modelled.
  - `freezeMovement` dereferences `animator`; a missing animator would throw there, and that is not modelled.
- Coroutines are split. `GameOverSequence` and `LevelCompleteSequence` become the separate steps `FinishGameOverSequence` and `FinishLevelCompleteSequence`, whose waits are not modelled. These are not modelled:
  - `ShowFrontCoverNextFrame`: `OpenBook` does not itself show the front cover;
  - `DropAndNudge`: the candle's drop is reported as starting;
  - `ShowSpeedLines`, `FadeInOnStart`, `WaitForAnimation` and `DelayedSceneLoad`;
  - `BouncyBallAI.DamageCooldownRoutine`.
- `Restart`, `ToNextLevel`, `Quit` and scene loading in `GameManagerScript` are not modelled: they leave the level.
- `BouncyBallAI.KeepNearHome` is not modelled, because it only applies a force. `OnCollisionEnter` (collision damage and its cooldown) is not modelled either.
- The free-moving branch of `PlayerMovementFreeLook.Update` is not modelled. It covers camera-relative input, running, jumping, knockback decay and animation parameters. Only the frozen branch is modelled.
- `ChaseState.ExitState` is not modelled, because it only restores a colour. The controller records the exit call.
- Unity calls `Update` only on enabled components; engine-side enabling is not modelled. `TrainPolyline.Train.Update` has no such precondition: it checks the train's own `enabled` flag, as a disabled component would never run, and returns `None`. `TrainPolyline.Train.MoveAlongPath` requires `enabled`, because `Update` only calls it then.
- QLite: every vector of the value table is taken to have 5 entries (`ValueTable.WellFormed`). A hand-edited save file with other lengths is excluded by `LoadQTable`'s precondition.
- QLite.Agent.LoadQTable: a `ToDictionary` that throws is modelled as `Failure` with the table unchanged. The exception's effect on the caller (ending `Start` early) is modelled; its propagation further up is not.
- QLite.ComputeReward: takes the action as its argument for the first penalty, where the source reads the field `currentAction`. At its only call the two hold the same value.
- FallDamage.FallTick: requires a non-zero frame time. With a time scale of 0 the source divides by zero and gets an infinite or NaN speed, which is not modelled.
- EnemyPatrol.Advance: requires at least two points in PingPong mode. With a single point the source steps to index -1 and then indexes the array out of range.
- EnemyPatrol.PatrolState.UpdateState: the distance to the current point is an input, so a null entry in `patrolPoints` (a null reference) is not modelled.
- Book.BookManager.UpdatePageContent: the two page images are taken to be assigned. Null entries in `rightPages` are modelled as missing sprites (`None`).
- GameManager.ShowCursor: reads a menu's `activeSelf` flag where the source reads `activeInHierarchy`. The menus are taken to sit under active parents.
- `Dictionary` enumeration order is not modelled. `SerializationWrapper`'s lists may come in any order, and the round trip holds for all of them.
