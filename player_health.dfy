/** A player's health component (PlayerHealth.cs): a clamped health value
    whose "dead" flag is derived from it. */
module Health {
  import opened UnityMath

  /** The two numbers the component holds. */
  datatype HealthComponent = HealthComponent(maxHealth: int, currentHealth: int)
  {
    /** IsDead is not stored: it is read off the current health. */
    predicate IsDead() {
      currentHealth <= 0
    }

    /** SetHealth: the value clamped into [0, maxHealth]. */
    function SetHealth(health: int): (r: HealthComponent)
      ensures r.maxHealth == maxHealth
      ensures maxHealth >= 0 ==> 0 <= r.currentHealth <= maxHealth
      ensures 0 <= health <= maxHealth ==> r.currentHealth == health
      ensures 0 <= maxHealth < health ==> r.currentHealth == maxHealth
      ensures health < 0 <= maxHealth ==> r.currentHealth == 0
      ensures r.IsDead() <==> health <= 0 || maxHealth <= 0
    {
      HealthComponent(maxHealth, Clamp(health, 0, maxHealth))
    }
  }

  /** Awake: the component starts at full health. */
  function Awake(maxHealth: int): (c: HealthComponent)
    ensures c.maxHealth == maxHealth && c.currentHealth == maxHealth
    ensures c.IsDead() <==> maxHealth <= 0
  {
    HealthComponent(maxHealth, maxHealth)
  }

  /** Setting the same health twice gives the state of setting it once. */
  lemma SetHealthIdempotent(c: HealthComponent, health: int)
    ensures c.SetHealth(health).SetHealth(health) == c.SetHealth(health)
  {
  }

  /** After any SetHealth the value is back in range whatever it was before,
      so the range [0, maxHealth] is an invariant of the component. */
  lemma SetHealthKeepsRange(c: HealthComponent, health: int)
    requires c.maxHealth >= 0
    ensures 0 <= c.SetHealth(health).currentHealth <= c.maxHealth
  {
  }

  class PlayerHealth {
    var maxHealth: int
    var currentHealth: int
    /** `gameObject.activeSelf` of the object the component is attached to. */
    var active: bool

    function State(): HealthComponent
      reads this
    {
      HealthComponent(maxHealth, currentHealth)
    }

    predicate IsDead()
      reads this
    {
      State().IsDead()
    }

    constructor (maxHealth: int)
      ensures State() == Awake(maxHealth) && active
    {
      this.maxHealth := maxHealth;
      currentHealth := maxHealth;
      active := true;
    }

    method SetHealth(health: int)
      modifies this`currentHealth
      ensures State() == old(State()).SetHealth(health)
    {
      currentHealth := Clamp(health, 0, maxHealth);
    }

    /** Die deactivates the object; the health value stays as it was. */
    method Die()
      modifies this`active
      ensures !active && State() == old(State())
    {
      active := false;
    }
  }
}
