/** The player's health (`PlayerStats`): healing and damage clamped to
    [0, maxHealth], a one-way death latch that fires the death callback and
    asks the game manager for the game-over screen once, and the heart
    upgrade that raises the maximum. The callbacks a call invokes are
    reported, in order, as events; whether anything is subscribed to them is
    not modelled. */
module PlayerHealth {
  import opened Common

  /** A delegate invocation or call made by `PlayerStats`. */
  datatype StatsEvent =
    | HealthChanged      // onHealthChangedCallback
    | DamageTaken        // onDamageTaken
    | Died               // onDeath
    | GameOverRequested  // gameManager.gameOver()

  datatype Vitals = Vitals(health: real, maxHealth: real, maxTotalHealth: real, isDead: bool)

  predicate InBounds(v: Vitals) {
    0.0 <= v.health <= v.maxHealth
  }

  /** `ClampHealth`'s `Mathf.Clamp(health, 0, maxHealth)`. */
  function Clamped(v: Vitals): (r: Vitals)
    ensures v.maxHealth >= 0.0 ==> InBounds(r)
    ensures InBounds(v) ==> r == v
    ensures r.maxHealth == v.maxHealth && r.maxTotalHealth == v.maxTotalHealth && r.isDead == v.isDead
  {
    v.(health := Clamp(v.health, 0.0, v.maxHealth))
  }

  /** `Heal(amount)` */
  function HealStep(v: Vitals, amount: real): (r: (Vitals, seq<StatsEvent>))
    ensures v.maxHealth >= 0.0 ==> InBounds(r.0)
    ensures r.0.maxHealth == v.maxHealth && r.0.maxTotalHealth == v.maxTotalHealth && r.0.isDead == v.isDead
    ensures 0.0 <= v.health + amount <= v.maxHealth ==> r.0.health == v.health + amount
    ensures v.health + amount < 0.0 ==> r.0.health == 0.0
    ensures v.health + amount > v.maxHealth >= 0.0 ==> r.0.health == v.maxHealth
    ensures r.1 == [HealthChanged]
  {
    (Clamped(v.(health := v.health + amount)), [HealthChanged])
  }

  /** `TakeDamage(dmg)`; `hasGameManager` is whether the reference is set. */
  function DamageStep(v: Vitals, dmg: real, hasGameManager: bool): (r: (Vitals, seq<StatsEvent>))
    ensures v.maxHealth >= 0.0 ==> InBounds(r.0)
    ensures r.0.maxHealth == v.maxHealth && r.0.maxTotalHealth == v.maxTotalHealth
    ensures 0.0 <= v.health - dmg <= v.maxHealth ==> r.0.health == v.health - dmg
    ensures v.health - dmg < 0.0 ==> r.0.health == 0.0
    ensures r.0.isDead == (v.isDead || r.0.health <= 0.0)
    ensures var dies := !v.isDead && r.0.health <= 0.0;
      r.1 == [HealthChanged, DamageTaken] + (if dies then [Died] + (if hasGameManager then [GameOverRequested] else []) else [])
  {
    var hurt := Clamped(v.(health := v.health - dmg));
    var events := [HealthChanged, DamageTaken];
    if hurt.health <= 0.0 && !hurt.isDead then
      (hurt.(isDead := true), events + ([Died] + (if hasGameManager then [GameOverRequested] else [])))
    else (hurt, events)
  }

  /** `AddHealth`: one more heart, filled, while below the total maximum. */
  function AddHealthStep(v: Vitals): (r: (Vitals, seq<StatsEvent>))
    ensures r.0.isDead == v.isDead && r.0.maxTotalHealth == v.maxTotalHealth
    ensures v.maxHealth < v.maxTotalHealth ==>
      r.0.maxHealth == v.maxHealth + 1.0 && r.0.health == r.0.maxHealth && r.1 == [HealthChanged]
    ensures v.maxHealth >= v.maxTotalHealth ==> r == (v, [])
    ensures v.maxHealth >= 0.0 ==> InBounds(r.0) || r.0 == v
  {
    if v.maxHealth < v.maxTotalHealth then
      var raised := v.maxHealth + 1.0;
      (v.(maxHealth := raised, health := raised), [HealthChanged])
    else (v, [])
  }

  /** A call on `PlayerStats`. */
  datatype StatsCall = Heal(amount: real) | TakeDamage(dmg: real) | AddHealth

  function Apply(v: Vitals, call: StatsCall, hasGameManager: bool): (Vitals, seq<StatsEvent>) {
    match call
    case Heal(amount) => HealStep(v, amount)
    case TakeDamage(dmg) => DamageStep(v, dmg, hasGameManager)
    case AddHealth => AddHealthStep(v)
  }

  /** A run of calls: the final vitals and every event, in order. */
  function ApplyAll(v: Vitals, calls: seq<StatsCall>, hasGameManager: bool): (Vitals, seq<StatsEvent>)
    decreases |calls|
  {
    if calls == [] then (v, [])
    else
      var before := ApplyAll(v, calls[..|calls| - 1], hasGameManager);
      var last := Apply(before.0, calls[|calls| - 1], hasGameManager);
      (last.0, before.1 + last.1)
  }

  function Count(events: seq<StatsEvent>, e: StatsEvent): nat
    decreases |events|
  {
    if events == [] then 0 else Count(events[..|events| - 1], e) + (if events[|events| - 1] == e then 1 else 0)
  }

  lemma {:induction false} CountAppend(a: seq<StatsEvent>, b: seq<StatsEvent>, e: StatsEvent)
    ensures Count(a + b, e) == Count(a, e) + Count(b, e)
    decreases |b|
  {
    if b == [] {
      assert a + b == a;
    } else {
      assert (a + b)[..|a + b| - 1] == a + b[..|b| - 1];
      CountAppend(a, b[..|b| - 1], e);
    }
  }

  /** The death latch: over any run of calls the death callback fires at most
      once, only for a player not already dead, and the player ends dead
      exactly when they started dead or it fired. Nothing ever revives them.
      The game-over request goes with the death callback, once, whenever the
      game manager is set. */
  lemma {:induction false} DiesAtMostOnce(v: Vitals, calls: seq<StatsCall>, hasGameManager: bool)
    ensures var r := ApplyAll(v, calls, hasGameManager);
      && Count(r.1, Died) <= (if v.isDead then 0 else 1)
      && (r.0.isDead <==> v.isDead || Count(r.1, Died) == 1)
      && Count(r.1, GameOverRequested) == (if hasGameManager then Count(r.1, Died) else 0)
    decreases |calls|
  {
    if calls != [] {
      var before := ApplyAll(v, calls[..|calls| - 1], hasGameManager);
      DiesAtMostOnce(v, calls[..|calls| - 1], hasGameManager);
      var last := Apply(before.0, calls[|calls| - 1], hasGameManager);
      CountAppend(before.1, last.1, Died);
      CountAppend(before.1, last.1, GameOverRequested);
      match calls[|calls| - 1]
      case Heal(_) =>
      case TakeDamage(_) =>
        var dies := !before.0.isDead && last.0.health <= 0.0;
        var tail := if hasGameManager then [GameOverRequested] else [];
        if dies {
          CountAppend([HealthChanged, DamageTaken], [Died] + tail, Died);
          CountAppend([Died], tail, Died);
          CountAppend([HealthChanged, DamageTaken], [Died] + tail, GameOverRequested);
          CountAppend([Died], tail, GameOverRequested);
        } else {
          assert last.1 == [HealthChanged, DamageTaken];
        }
      case AddHealth =>
    }
  }

  /** Health stays within [0, maxHealth] over any run of calls that starts
      within bounds. */
  lemma {:induction false} StaysInBounds(v: Vitals, calls: seq<StatsCall>, hasGameManager: bool)
    requires InBounds(v)
    ensures InBounds(ApplyAll(v, calls, hasGameManager).0)
    ensures ApplyAll(v, calls, hasGameManager).0.maxHealth >= v.maxHealth
    decreases |calls|
  {
    if calls != [] {
      StaysInBounds(v, calls[..|calls| - 1], hasGameManager);
    }
  }

  /** `PlayerStats`. */
  class PlayerStats {
    var health: real
    var maxHealth: real
    var maxTotalHealth: real
    var isDead: bool
    /** `gameManager != null` */
    const hasGameManager: bool

    function Current(): Vitals
      reads this
    {
      Vitals(health, maxHealth, maxTotalHealth, isDead)
    }

    /** The serialized settings, and a living player. */
    constructor (health: real, maxHealth: real, maxTotalHealth: real, hasGameManager: bool)
      ensures Current() == Vitals(health, maxHealth, maxTotalHealth, false)
      ensures this.hasGameManager == hasGameManager
    {
      this.health, this.maxHealth, this.maxTotalHealth := health, maxHealth, maxTotalHealth;
      this.hasGameManager := hasGameManager;
      isDead := false;
    }

    /** `ClampHealth` */
    method ClampHealth() returns (events: seq<StatsEvent>)
      modifies this`health
      ensures Current() == Clamped(old(Current())) && events == [HealthChanged]
    {
      health := Clamp(health, 0.0, maxHealth);
      events := [HealthChanged];
    }

    /** `Heal` */
    method Heal(amount: real) returns (events: seq<StatsEvent>)
      modifies this`health
      ensures (Current(), events) == HealStep(old(Current()), amount)
    {
      health := health + amount;
      events := ClampHealth();
    }

    /** `TakeDamage` */
    method TakeDamage(dmg: real) returns (events: seq<StatsEvent>)
      modifies this`health, this`isDead
      ensures (Current(), events) == DamageStep(old(Current()), dmg, hasGameManager)
    {
      ghost var before := Current();
      health := health - dmg;
      events := ClampHealth();
      assert Current() == Clamped(before.(health := before.health - dmg));
      events := events + [DamageTaken];
      assert events == [HealthChanged, DamageTaken];
      if health <= 0.0 && !isDead {
        isDead := true;
        var tail := if hasGameManager then [GameOverRequested] else [];
        events := events + ([Died] + tail);
      }
    }

    /** `AddHealth` */
    method AddHealth() returns (events: seq<StatsEvent>)
      modifies this`health, this`maxHealth
      ensures (Current(), events) == AddHealthStep(old(Current()))
    {
      events := [];
      if maxHealth < maxTotalHealth {
        maxHealth := maxHealth + 1.0;
        health := maxHealth;
        events := [HealthChanged];
      }
    }
  }
}
