/** The train's damage script (`TrainDamageKnockback`): a tag gate on what the
    train touches, a per-player hit cooldown kept in a map from instance id to
    the time of the last hit, one damage call and a horizontal knockback per
    accepted hit. */
module TrainDamage {
  import opened Common

  /** What `TryHit` learns about the collider it is given: its tag, the tags
      of its attached rigidbody and of its root transform when those exist, and
      the instance id and position of the `PlayerMovementFreeLook` found in its
      parents, if any. */
  datatype Contact = Contact(
    tag: string, rigidbodyTag: Option<string>, rootTag: Option<string>,
    playerId: Option<int>, playerPosition: Vec3)

  /** The settings of the script. */
  datatype HitTuning = HitTuning(targetTag: string, damage: real, knockbackForce: real, hitCooldown: real)

  /** An accepted hit: the damage dealt (none when there is no `PlayerStats`)
      and the knockback direction before normalisation, with its force. */
  datatype Hit = Hit(damage: Option<real>, direction: Vec3, force: real)

  /** The tag gate: an empty target tag lets everything through; otherwise the
      collider, its rigidbody or its root must carry the tag. */
  predicate PassesTagGate(targetTag: string, c: Contact) {
    || targetTag == ""
    || c.tag == targetTag
    || (c.rigidbodyTag.Some? && c.rigidbodyTag.value == targetTag)
    || (c.rootTag.Some? && c.rootTag.value == targetTag)
  }

  /** Whether the cooldown map lets player `id` be hit at time `now`. */
  predicate CooledDown(lastHitTime: map<int, real>, id: int, now: real, hitCooldown: real) {
    !(id in lastHitTime && now - lastHitTime[id] < hitCooldown)
  }

  /** The knockback direction from the train at `trainPosition` to the player:
      the horizontal offset, or the train's forward vector when the two are
      (nearly) on top of each other. */
  function KnockbackDirection(trainPosition: Vec3, trainForward: Vec3, playerPosition: Vec3): (d: Vec3)
    ensures SqrMagnitude(Horizontal(Vec3(playerPosition.x - trainPosition.x, 0.0, playerPosition.z - trainPosition.z))) < 0.0001
            ==> d == trainForward
    ensures SqrMagnitude(Horizontal(Vec3(playerPosition.x - trainPosition.x, 0.0, playerPosition.z - trainPosition.z))) >= 0.0001
            ==> d.y == 0.0 && d.x == playerPosition.x - trainPosition.x && d.z == playerPosition.z - trainPosition.z
  {
    var dir := Vec3(playerPosition.x - trainPosition.x, playerPosition.y - trainPosition.y, playerPosition.z - trainPosition.z);
    var dir := dir.(y := 0.0);
    if SqrMagnitude(dir) < 0.0001 then trainForward else dir
  }

  /** One `TryHit` at time `now`: the new map and the hit, if accepted. */
  function HitStep(t: HitTuning, lastHitTime: map<int, real>, c: Contact, now: real, hasPlayerStats: bool,
                   trainPosition: Vec3, trainForward: Vec3): (r: (map<int, real>, Option<Hit>))
    ensures r.1.Some? <==> PassesTagGate(t.targetTag, c) && c.playerId.Some?
                           && CooledDown(lastHitTime, c.playerId.value, now, t.hitCooldown)
    ensures r.1.None? ==> r.0 == lastHitTime
    ensures r.1.Some? ==> r.0 == lastHitTime[c.playerId.value := now]
    ensures r.1.Some? ==> (r.1.value.damage.Some? <==> hasPlayerStats)
    ensures r.1.Some? && hasPlayerStats ==> r.1.value.damage == Some(t.damage)
    ensures r.1.Some? ==> r.1.value.force == t.knockbackForce
    ensures r.1.Some? ==> r.1.value.direction == KnockbackDirection(trainPosition, trainForward, c.playerPosition)
  {
    if !PassesTagGate(t.targetTag, c) then (lastHitTime, None)
    else if c.playerId.None? then (lastHitTime, None)
    else
      var id := c.playerId.value;
      if !CooledDown(lastHitTime, id, now, t.hitCooldown) then (lastHitTime, None)
      else
        var damage := if hasPlayerStats then Some(t.damage) else None;
        (lastHitTime[id := now], Some(Hit(damage, KnockbackDirection(trainPosition, trainForward, c.playerPosition), t.knockbackForce)))
  }

  /** One contact event: the collider, the time, whether `PlayerStats` exists,
      and the train's position and forward vector at that moment. */
  datatype Attempt = Attempt(contact: Contact, now: real, hasPlayerStats: bool, trainPosition: Vec3, trainForward: Vec3)

  function StepAttempt(t: HitTuning, table: map<int, real>, a: Attempt): (map<int, real>, Option<Hit>) {
    HitStep(t, table, a.contact, a.now, a.hasPlayerStats, a.trainPosition, a.trainForward)
  }

  /** The map after a run of contact events. */
  function TableAfter(t: HitTuning, table: map<int, real>, attempts: seq<Attempt>): map<int, real>
    decreases |attempts|
  {
    if attempts == [] then table
    else StepAttempt(t, TableAfter(t, table, attempts[..|attempts| - 1]), attempts[|attempts| - 1]).0
  }

  /** Whether event `j` of a run is an accepted hit on player `id`. */
  predicate HitOn(t: HitTuning, table: map<int, real>, attempts: seq<Attempt>, j: int, id: int)
    requires 0 <= j < |attempts|
  {
    && attempts[j].contact.playerId == Some(id)
    && StepAttempt(t, TableAfter(t, table, attempts[..j]), attempts[j]).1.Some?
  }

  /** After an accepted hit on `id`, the map keeps its time until the next
      accepted hit on the same player. */
  lemma {:induction false} RecordKept(t: HitTuning, table: map<int, real>, attempts: seq<Attempt>, i: int, k: int, id: int)
    requires 0 <= i < k <= |attempts|
    requires HitOn(t, table, attempts, i, id)
    requires forall m :: i < m < k ==> !HitOn(t, table, attempts, m, id)
    ensures id in TableAfter(t, table, attempts[..k]) && TableAfter(t, table, attempts[..k])[id] == attempts[i].now
    decreases k - i
  {
    assert attempts[..k][..k - 1] == attempts[..k - 1];
    if k - 1 > i {
      RecordKept(t, table, attempts, i, k - 1, id);
      assert !HitOn(t, table, attempts, k - 1, id);
    }
  }

  /** Two consecutive accepted hits on the same player are at least
      `hitCooldown` apart; hits on other players in between do not matter. */
  lemma HitsSpaced(t: HitTuning, table: map<int, real>, attempts: seq<Attempt>, i: int, j: int, id: int)
    requires 0 <= i < j < |attempts|
    requires HitOn(t, table, attempts, i, id) && HitOn(t, table, attempts, j, id)
    requires forall m :: i < m < j ==> !HitOn(t, table, attempts, m, id)
    ensures attempts[j].now - attempts[i].now >= t.hitCooldown
  {
    RecordKept(t, table, attempts, i, j, id);
  }

  /** `TrainDamageKnockback`. */
  class TrainHitter {
    const tuning: HitTuning
    var lastHitTime: map<int, real>

    /** The field initialisers: no hits recorded. */
    constructor (tuning: HitTuning)
      ensures this.tuning == tuning && lastHitTime == map[]
    {
      this.tuning := tuning;
      lastHitTime := map[];
    }

    /** `TryHit`, reached from `OnCollisionEnter` and `OnTriggerEnter`. */
    method TryHit(other: Contact, now: real, hasPlayerStats: bool, trainPosition: Vec3, trainForward: Vec3)
      returns (hit: Option<Hit>)
      modifies this
      ensures (lastHitTime, hit) == HitStep(tuning, old(lastHitTime), other, now, hasPlayerStats, trainPosition, trainForward)
    {
      if tuning.targetTag != ""
         && other.tag != tuning.targetTag
         && !(other.rigidbodyTag.Some? && other.rigidbodyTag.value == tuning.targetTag)
         && !(other.rootTag.Some? && other.rootTag.value == tuning.targetTag)
      {
        return None;
      }
      if other.playerId.None? {
        return None;
      }
      var id := other.playerId.value;
      if id in lastHitTime && now - lastHitTime[id] < tuning.hitCooldown {
        return None;
      }
      lastHitTime := lastHitTime[id := now];
      var damage := None;
      if hasPlayerStats {
        damage := Some(tuning.damage);
      }
      var dir := Vec3(other.playerPosition.x - trainPosition.x, other.playerPosition.y - trainPosition.y,
                      other.playerPosition.z - trainPosition.z);
      dir := dir.(y := 0.0);
      if SqrMagnitude(dir) < 0.0001 {
        dir := trainForward;
      }
      hit := Some(Hit(damage, dir, tuning.knockbackForce));
    }
  }
}
