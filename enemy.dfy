/**
 * The enum-driven `Enemy` of the state-pattern demo: one `switch` over four
 * states run once per frame, a sound event, and two stopwatches measuring
 * how long the enemy has been idle or alert.
 *
 * Time is explicit: a stopwatch is a value holding whether it runs and how
 * many milliseconds it has measured, and `Elapse` lets time pass.  What the
 * enemy perceives (`PlayerInView`, `PlayerHealth`, `StandingOnWaypoint`) is
 * a `Surroundings` value.  The member functions of `Machine` are the
 * behaviour; the class `Enemy` is proved to follow them.
 */
module Enemy {
  datatype EnemyState = Idle | Patrol | Alert | EngageInCombat

  /** A `System.Diagnostics.Stopwatch`, measured in whole milliseconds. */
  datatype Stopwatch = Stopwatch(running: bool, elapsed: nat)
  {
    function Stop(): Stopwatch {
      Stopwatch(false, elapsed)
    }

    function Restart(): Stopwatch {
      Stopwatch(true, 0)
    }

    /** `dt` milliseconds pass: only a running stopwatch measures them. */
    function Advance(dt: nat): Stopwatch {
      if running then Stopwatch(true, elapsed + dt) else this
    }
  }

  const StartNew := Stopwatch(true, 0)
  const NewStopwatch := Stopwatch(false, 0)

  /** The default idle and alert intervals: five seconds. */
  const DefaultInterval: nat := 5000

  datatype Surroundings = Surroundings(playerInView: bool, playerHealth: int, standingOnWaypoint: bool)
  {
    predicate CanSeePlayer() { playerInView }
    predicate WaypointReached() { standingOnWaypoint }
    predicate PlayerIsDead() { playerHealth <= 0 }
  }

  /** The part of the enemy its own code changes: the state and both stopwatches. */
  datatype Machine = Machine(state: EnemyState, idleTimer: Stopwatch, alertTimer: Stopwatch)
  {
    /** The `switch` of `Update`, before scouting. */
    function Transition(env: Surroundings, idleInterval: nat, alertInterval: nat): Machine {
      match state
      case Idle =>
        if idleTimer.elapsed > idleInterval then Machine(Patrol, idleTimer.Stop(), alertTimer) else this
      case Patrol =>
        if env.WaypointReached() then Machine(Idle, idleTimer.Restart(), alertTimer) else this
      case Alert =>
        if alertTimer.elapsed > alertInterval then Machine(Patrol, idleTimer, alertTimer.Stop()) else this
      case EngageInCombat =>
        if env.PlayerIsDead() then Machine(Patrol, idleTimer, alertTimer) else this
    }

    /** `ScoutForPlayer`: a player in view starts combat. */
    function Scout(env: Surroundings): Machine {
      if env.CanSeePlayer() then Machine(EngageInCombat, idleTimer, alertTimer) else this
    }

    /** `Update`: the switch, then scouting unless already in combat. */
    function Update(env: Surroundings, idleInterval: nat, alertInterval: nat): Machine {
      var m := Transition(env, idleInterval, alertInterval);
      if m.state != EngageInCombat then m.Scout(env) else m
    }

    /** `NotifySound`: outside combat, become alert and start timing the alert afresh. */
    function NotifySound(): Machine {
      if state != EngageInCombat then Machine(Alert, idleTimer, alertTimer.Restart()) else this
    }

    function Elapse(dt: nat): Machine {
      Machine(state, idleTimer.Advance(dt), alertTimer.Advance(dt))
    }
  }

  /** A new enemy: idle, with the idle stopwatch running and the alert one not started. */
  const Spawned := Machine(Idle, StartNew, NewStopwatch)

  /** `n` frames in a row, with nothing in the surroundings changing and no time passing. */
  function Updates(m: Machine, env: Surroundings, idleInterval: nat, alertInterval: nat, n: nat): Machine
    decreases n
  {
    if n == 0 then m else Updates(m.Update(env, idleInterval, alertInterval), env, idleInterval, alertInterval, n - 1)
  }

  class Enemy {
    var state: EnemyState
    var idleTimer: Stopwatch
    var alertTimer: Stopwatch
    const idleInterval: nat
    const alertInterval: nat
    var playerInView: bool
    var playerHealth: int
    var standingOnWaypoint: bool

    function AsMachine(): Machine
      reads this
    {
      Machine(state, idleTimer, alertTimer)
    }

    function Senses(): Surroundings
      reads this
    {
      Surroundings(playerInView, playerHealth, standingOnWaypoint)
    }

    constructor(idleInterval: nat, alertInterval: nat)
      ensures AsMachine() == Spawned
      ensures Senses() == Surroundings(false, 100, false)
      ensures this.idleInterval == idleInterval && this.alertInterval == alertInterval
    {
      state := Idle;
      idleTimer := StartNew;
      alertTimer := NewStopwatch;
      this.idleInterval := idleInterval;
      this.alertInterval := alertInterval;
      playerInView := false;
      playerHealth := 100;
      standingOnWaypoint := false;
    }

    constructor WithDefaultIntervals()
      ensures AsMachine() == Spawned
      ensures Senses() == Surroundings(false, 100, false)
      ensures idleInterval == DefaultInterval && alertInterval == DefaultInterval
    {
      state := Idle;
      idleTimer := StartNew;
      alertTimer := NewStopwatch;
      idleInterval := DefaultInterval;
      alertInterval := DefaultInterval;
      playerInView := false;
      playerHealth := 100;
      standingOnWaypoint := false;
    }

    method Update()
      modifies this
      ensures AsMachine() == old(AsMachine()).Update(Senses(), idleInterval, alertInterval)
      ensures Senses() == old(Senses())
    {
      match state {
      case Idle =>
        if idleTimer.elapsed > idleInterval {
          idleTimer := idleTimer.Stop();
          state := Patrol;
        }
      case Patrol =>
        if standingOnWaypoint {
          state := Idle;
          idleTimer := idleTimer.Restart();
        }
      case Alert =>
        if alertTimer.elapsed > alertInterval {
          alertTimer := alertTimer.Stop();
          state := Patrol;
        }
      case EngageInCombat =>
        if playerHealth <= 0 {
          state := Patrol;
        }
      }
      if state != EngageInCombat {
        ScoutForPlayer();
      }
    }

    method NotifySound()
      modifies this
      ensures AsMachine() == old(AsMachine()).NotifySound()
      ensures Senses() == old(Senses())
    {
      if state != EngageInCombat {
        state := Alert;
        alertTimer := alertTimer.Restart();
      }
    }

    method ScoutForPlayer()
      modifies this
      ensures AsMachine() == old(AsMachine()).Scout(Senses())
      ensures Senses() == old(Senses())
    {
      if playerInView {
        state := EngageInCombat;
      }
    }

    /** `dt` milliseconds of game time pass. */
    method Elapse(dt: nat)
      modifies this
      ensures AsMachine() == old(AsMachine()).Elapse(dt)
      ensures Senses() == old(Senses())
    {
      idleTimer := idleTimer.Advance(dt);
      alertTimer := alertTimer.Advance(dt);
    }
  }

  /** With the player out of view, each state leaves on its own condition and only then. */
  lemma TransitionsOutOfView(m: Machine, env: Surroundings, idleInterval: nat, alertInterval: nat)
    requires !env.CanSeePlayer()
    ensures m.state == Idle ==>
      (m.Update(env, idleInterval, alertInterval).state == Patrol <==> m.idleTimer.elapsed > idleInterval)
    ensures m.state == Patrol ==>
      (m.Update(env, idleInterval, alertInterval).state == Idle <==> env.WaypointReached())
    ensures m.state == Patrol && env.WaypointReached() ==>
      m.Update(env, idleInterval, alertInterval).idleTimer == Stopwatch(true, 0)
    ensures m.state == Alert ==>
      (m.Update(env, idleInterval, alertInterval).state == Patrol <==> m.alertTimer.elapsed > alertInterval)
    ensures m.state == EngageInCombat ==>
      (m.Update(env, idleInterval, alertInterval).state == Patrol <==> env.PlayerIsDead())
  {
  }

  /** A player in view is always engaged at the end of a frame. */
  lemma SeeingThePlayerEngages(m: Machine, env: Surroundings, idleInterval: nat, alertInterval: nat)
    requires env.CanSeePlayer()
    ensures m.Update(env, idleInterval, alertInterval).state == EngageInCombat
  {
  }

  /** Combat ends exactly when the player is dead and out of view, and then the enemy patrols. */
  lemma CombatEndsOnlyWhenPlayerDead(m: Machine, env: Surroundings, idleInterval: nat, alertInterval: nat)
    requires m.state == EngageInCombat
    ensures m.Update(env, idleInterval, alertInterval).state != EngageInCombat
      <==> env.PlayerIsDead() && !env.CanSeePlayer()
    ensures m.Update(env, idleInterval, alertInterval).state in {EngageInCombat, Patrol}
  {
  }

  /**
   * A frame never raises the alarm: only a sound does.  The alert state
   * lasts until its stopwatch passes the interval or the player is seen.
   */
  lemma OnlySoundsAlert(m: Machine, env: Surroundings, idleInterval: nat, alertInterval: nat)
    ensures m.Update(env, idleInterval, alertInterval).state == Alert
      <==> m.state == Alert && m.alertTimer.elapsed <= alertInterval && !env.CanSeePlayer()
  {
  }

  /** The frames' transitions: each state has only these successors. */
  lemma UpdateSuccessors(m: Machine, env: Surroundings, idleInterval: nat, alertInterval: nat)
    ensures var s := m.Update(env, idleInterval, alertInterval).state;
      match m.state
      case Idle => s in {Idle, Patrol, EngageInCombat}
      case Patrol => s in {Patrol, Idle, EngageInCombat}
      case Alert => s in {Alert, Patrol, EngageInCombat}
      case EngageInCombat => s in {EngageInCombat, Patrol}
  {
  }

  /** A sound never interrupts combat; otherwise it always alerts with a freshly started alert stopwatch. */
  lemma SoundAlertsOutsideCombat(m: Machine)
    ensures m.state == EngageInCombat ==> m.NotifySound() == m
    ensures m.state != EngageInCombat ==>
      m.NotifySound().state == Alert && m.NotifySound().alertTimer == Stopwatch(true, 0)
      && m.NotifySound().idleTimer == m.idleTimer
  {
  }

  /** While the player lives, any number of frames keeps the enemy in combat. */
  lemma {:induction false} CombatPersistsWhilePlayerAlive(m: Machine, env: Surroundings, idleInterval: nat, alertInterval: nat, n: nat)
    requires m.state == EngageInCombat && !env.PlayerIsDead()
    ensures Updates(m, env, idleInterval, alertInterval, n) == m
    decreases n
  {
    if n > 0 {
      assert m.Update(env, idleInterval, alertInterval) == m;
      CombatPersistsWhilePlayerAlive(m, env, idleInterval, alertInterval, n - 1);
    }
  }

  /** Time passing changes no state, and a stopped stopwatch measures nothing. */
  lemma ElapseOnlyMovesRunningTimers(m: Machine, dt: nat)
    ensures m.Elapse(dt).state == m.state
    ensures !m.idleTimer.running ==> m.Elapse(dt).idleTimer == m.idleTimer
    ensures !m.alertTimer.running ==> m.Elapse(dt).alertTimer == m.alertTimer
    ensures m.alertTimer.running ==> m.Elapse(dt).alertTimer.elapsed == m.alertTimer.elapsed + dt
  {
  }

  /**
   * The demo's test with 10 ms intervals: idle, patrol after 20 ms, alert on
   * a sound, patrol again 20 ms later, and combat once the player is in view.
   */
  method EnemyScenario() returns (observed: seq<EnemyState>)
    ensures observed == [Idle, Patrol, Alert, Patrol, EngageInCombat]
  {
    var enemy := new Enemy(10, 10);
    var s0 := enemy.state;
    enemy.Elapse(20);
    enemy.Update();
    var s1 := enemy.state;
    enemy.NotifySound();
    var s2 := enemy.state;
    enemy.Elapse(20);
    enemy.Update();
    var s3 := enemy.state;
    enemy.playerInView := true;
    enemy.Update();
    var s4 := enemy.state;
    observed := [s0, s1, s2, s3, s4];
  }
}
