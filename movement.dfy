/**
 * behaviors/movement.js: a wandering state machine. A periodic timer either
 * stops the bot, pushes it forward (sometimes with a short strafe) or turns
 * it; every forward push is preceded by a safety test (void, lava, a long
 * drop ahead) and an unsafe push turns the bot around and retries a second
 * later.
 */
module Movement {
  import opened Wrappers

  /** The strafe control pressed: `'left'` or `'right'`. */
  datatype Side = Left | Right

  /**
   * What the safety test sees: the bot's height, the block two metres ahead,
   * and the column under that spot (`column(i)` is the block i+1 below it).
   * Turning the yaw into the "ahead" spot is trigonometry and is done by the caller.
   */
  datatype View = View(y: real, ahead: Option<string>, column: nat -> Option<string>)

  /** Which branch `updateMovement` took. */
  datatype Step = Stopped | Forward | Turned

  /** A missing block or air: the fall scan keeps going. */
  predicate IsOpen(block: Option<string>) {
    block.None? || block.value == "air"
  }

  /** Number of open blocks under the spot, counted from `d`, capped at 10. */
  function FallFrom(column: nat -> Option<string>, d: nat): (r: nat)
    requires d <= 10
    ensures d <= r <= 10
    ensures forall i :: d <= i < r ==> IsOpen(column(i))
    ensures r < 10 ==> !IsOpen(column(r))
    decreases 10 - d
  {
    if d == 10 then 10
    else if !IsOpen(column(d)) then d
    else FallFrom(column, d + 1)
  }

  /** The specification of `calculateFallDistance`: the run of open blocks below, at most 10. */
  function FallDistance(column: nat -> Option<string>): nat {
    FallFrom(column, 0)
  }

  /** The drop exceeds `m` exactly when `m < 10` and the first `m + 1` blocks below are open. */
  lemma FallExceeds(column: nat -> Option<string>, m: nat)
    ensures FallDistance(column) > m <==> m < 10 && forall i :: 0 <= i <= m ==> IsOpen(column(i))
  {
  }

  class MovementBehavior {
    /** config.behavior.movement and config.safety */
    const forwardMovementChance: real
    const stopMovementChance: real
    const avoidVoid: bool
    const avoidLava: bool
    const maxFallDistance: nat

    var isMoving: bool
    /** Control states pressed through `setControlState`. */
    var forward: bool
    var left: bool
    var right: bool
    /** Whether `movementTimer` is armed. */
    var movementTimerArmed: bool
    /** Pending stop timers, the one `stopTimer` refers to, and the next timer id. */
    var stopTimers: set<nat>
    var stopTimer: Option<nat>
    var nextTimer: nat
    /** Pending strafe-release timers, by side. */
    var strafeReleases: multiset<Side>
    /** Pending one-second timers set by `avoidDanger`. */
    var avoidTimers: nat

    ghost predicate Valid()
      reads this
    {
      && (forall t :: t in stopTimers ==> t < nextTimer)
      && (stopTimer.Some? ==> stopTimer.value < nextTimer)
    }

    /** Moving implies the forward control is held. */
    predicate Coherent()
      reads this`isMoving, this`forward
    {
      isMoving ==> forward
    }

    constructor (forwardMovementChance: real, stopMovementChance: real, avoidVoid: bool, avoidLava: bool, maxFallDistance: nat)
      ensures this.forwardMovementChance == forwardMovementChance && this.stopMovementChance == stopMovementChance
      ensures this.avoidVoid == avoidVoid && this.avoidLava == avoidLava && this.maxFallDistance == maxFallDistance
      ensures Valid() && Coherent()
      ensures !isMoving && !forward && !left && !right && !movementTimerArmed
      ensures stopTimers == {} && stopTimer.None? && strafeReleases == multiset{} && avoidTimers == 0
    {
      this.forwardMovementChance, this.stopMovementChance := forwardMovementChance, stopMovementChance;
      this.avoidVoid, this.avoidLava, this.maxFallDistance := avoidVoid, avoidLava, maxFallDistance;
      isMoving, forward, left, right, movementTimerArmed := false, false, false, false, false;
      stopTimers, stopTimer, nextTimer := {}, None, 0;
      strafeReleases, avoidTimers := multiset{}, 0;
    }

    /** The three conditions under which `isSafeToMove` answers false. */
    predicate Hazard(view: View) {
      || (avoidVoid && view.y < 5.0)
      || (avoidLava && view.ahead == Some("lava"))
      || (IsOpen(view.column(0)) && FallDistance(view.column) > maxFallDistance)
    }

    /** `calculateFallDistance(position)`: count open blocks downwards, stopping at the first real block or at 10. */
    method CalculateFallDistance(column: nat -> Option<string>) returns (distance: nat)
      ensures distance <= 10
      ensures forall i :: 0 <= i < distance ==> IsOpen(column(i))
      ensures distance < 10 ==> !IsOpen(column(distance))
      ensures distance == FallDistance(column)
    {
      distance := 0;
      while distance < 10
        invariant distance <= 10
        invariant FallFrom(column, distance) == FallDistance(column)
      {
        var block := column(distance);
        if block.Some? && block.value != "air" {
          break;
        }
        distance := distance + 1;
      }
    }

    /** `isSafeToMove()` */
    method IsSafeToMove(view: View) returns (safe: bool)
      ensures safe <==> !Hazard(view)
    {
      if avoidVoid && view.y < 5.0 {
        return false;
      }
      if avoidLava && view.ahead.Some? && view.ahead.value == "lava" {
        return false;
      }
      var below := view.column(0);
      if below.None? || below.value == "air" {
        var fall := CalculateFallDistance(view.column);
        if fall > maxFallDistance {
          return false;
        }
      }
      return true;
    }

    /** `avoidDanger()`: turn around (not modelled) and retry after a second. */
    method AvoidDanger()
      modifies this`avoidTimers
      ensures avoidTimers == old(avoidTimers) + 1
    {
      avoidTimers := avoidTimers + 1;
    }

    /**
     * The strafe part of a safe forward push, against the side controls and
     * pending releases `l0`, `r0`, `s0` from before it: a strafe roll below 0.3
     * presses the side the second roll picks and adds its release timer;
     * otherwise neither side nor the releases change.
     */
    predicate Strafed(l0: bool, r0: bool, s0: multiset<Side>, strafeRoll: real, sideRoll: real)
      reads this
    {
      && (strafeRoll < 0.3 && sideRoll < 0.5 ==> left && right == r0 && strafeReleases == s0 + multiset{Left})
      && (strafeRoll < 0.3 && sideRoll >= 0.5 ==> right && left == l0 && strafeReleases == s0 + multiset{Right})
      && (strafeRoll >= 0.3 ==> left == l0 && right == r0 && strafeReleases == s0)
    }

    /**
     * `startForwardMovement()`: an unsafe view only schedules a retry; a safe
     * one presses forward, sets `isMoving`, and on a strafe roll below 0.3
     * presses one side and schedules its release.
     */
    method StartForwardMovement(view: View, strafeRoll: real, sideRoll: real)
      modifies this`isMoving, this`forward, this`left, this`right, this`strafeReleases, this`avoidTimers
      ensures Hazard(view) ==>
        && avoidTimers == old(avoidTimers) + 1
        && unchanged(this`isMoving, this`forward, this`left, this`right, this`strafeReleases)
      ensures !Hazard(view) ==>
        && isMoving && forward && avoidTimers == old(avoidTimers)
        && Strafed(old(left), old(right), old(strafeReleases), strafeRoll, sideRoll)
      ensures old(Coherent()) ==> Coherent()
    {
      var safe := IsSafeToMove(view);
      if !safe {
        AvoidDanger();
        return;
      }
      forward := true;
      isMoving := true;
      if strafeRoll < 0.3 {
        var side := if sideRoll < 0.5 then Left else Right;
        if side == Left { left := true; } else { right := true; }
        strafeReleases := strafeReleases + multiset{side};
      }
    }

    /** `stopMovement()`: release every control, clear `isMoving`, and set a new stop timer without cancelling older ones. */
    method StopMovement()
      requires Valid()
      modifies this`isMoving, this`forward, this`left, this`right, this`stopTimers, this`stopTimer, this`nextTimer
      ensures Valid() && Coherent()
      ensures !isMoving && !forward && !left && !right
      ensures stopTimer == Some(old(nextTimer)) && old(nextTimer) !in old(stopTimers)
      ensures stopTimers == old(stopTimers) + {old(nextTimer)}
    {
      forward, left, right := false, false, false;
      isMoving := false;
      stopTimers := stopTimers + {nextTimer};
      stopTimer := Some(nextTimer);
      nextTimer := nextTimer + 1;
    }

    /** `changeDirection()`: turn (not modelled), then push forward only if the new view is safe. */
    method ChangeDirection(view: View, strafeRoll: real, sideRoll: real)
      modifies this`isMoving, this`forward, this`left, this`right, this`strafeReleases, this`avoidTimers
      ensures Hazard(view) ==>
        unchanged(this`isMoving, this`forward, this`left, this`right, this`strafeReleases, this`avoidTimers)
      ensures !Hazard(view) ==>
        && isMoving && forward && avoidTimers == old(avoidTimers)
        && Strafed(old(left), old(right), old(strafeReleases), strafeRoll, sideRoll)
      ensures old(Coherent()) ==> Coherent()
    {
      var safe := IsSafeToMove(view);
      if safe {
        StartForwardMovement(view, strafeRoll, sideRoll);
      }
    }

    /**
     * `updateMovement()`: stop on a low first roll while moving; otherwise
     * push forward on a low second roll or when standing; otherwise turn.
     */
    method UpdateMovement(roll1: real, roll2: real, view: View, strafeRoll: real, sideRoll: real) returns (step: Step)
      requires Valid()
      modifies this`isMoving, this`forward, this`left, this`right, this`strafeReleases, this`avoidTimers
      modifies this`stopTimers, this`stopTimer, this`nextTimer
      ensures Valid()
      ensures step == Stopped <==> roll1 < stopMovementChance && old(isMoving)
      ensures step == Forward <==> !(roll1 < stopMovementChance && old(isMoving)) && (roll2 < forwardMovementChance || !old(isMoving))
      ensures step == Stopped ==> !isMoving && !forward && !left && !right && stopTimers == old(stopTimers) + {old(nextTimer)}
      ensures step != Stopped ==> unchanged(this`stopTimers, this`stopTimer, this`nextTimer)
      ensures step != Stopped && Hazard(view) ==>
        && unchanged(this`isMoving, this`forward, this`left, this`right, this`strafeReleases)
        && avoidTimers == old(avoidTimers) + (if step == Forward then 1 else 0)
      ensures step != Stopped && !Hazard(view) ==>
        && isMoving && forward && avoidTimers == old(avoidTimers)
        && Strafed(old(left), old(right), old(strafeReleases), strafeRoll, sideRoll)
      ensures old(Coherent()) ==> Coherent()
    {
      if roll1 < stopMovementChance && isMoving {
        StopMovement();
        return Stopped;
      }
      if roll2 < forwardMovementChance || !isMoving {
        StartForwardMovement(view, strafeRoll, sideRoll);
        step := Forward;
      } else {
        ChangeDirection(view, strafeRoll, sideRoll);
        step := Turned;
      }
    }

    /** `scheduleNextMovement()`: the previous movement timer is replaced. */
    method ScheduleNextMovement()
      modifies this`movementTimerArmed
      ensures movementTimerArmed
    {
      movementTimerArmed := true;
    }

    /** The movement timer fires: one update, then the next timer is armed. */
    method FireMovementTimer(roll1: real, roll2: real, view: View, strafeRoll: real, sideRoll: real) returns (step: Step)
      requires Valid()
      modifies this`isMoving, this`forward, this`left, this`right, this`strafeReleases, this`avoidTimers
      modifies this`stopTimers, this`stopTimer, this`nextTimer, this`movementTimerArmed
      ensures Valid() && movementTimerArmed
      ensures step == Stopped <==> roll1 < stopMovementChance && old(isMoving)
      ensures step == Forward <==> !(roll1 < stopMovementChance && old(isMoving)) && (roll2 < forwardMovementChance || !old(isMoving))
      ensures step == Stopped ==> !isMoving && !forward && !left && !right && stopTimers == old(stopTimers) + {old(nextTimer)}
      ensures step != Stopped ==> unchanged(this`stopTimers, this`stopTimer, this`nextTimer)
      ensures step != Stopped && Hazard(view) ==>
        && unchanged(this`isMoving, this`forward, this`left, this`right, this`strafeReleases)
        && avoidTimers == old(avoidTimers) + (if step == Forward then 1 else 0)
      ensures step != Stopped && !Hazard(view) ==>
        && isMoving && forward && avoidTimers == old(avoidTimers)
        && Strafed(old(left), old(right), old(strafeReleases), strafeRoll, sideRoll)
      ensures old(Coherent()) ==> Coherent()
    {
      step := UpdateMovement(roll1, roll2, view, strafeRoll, sideRoll);
      ScheduleNextMovement();
    }

    /** A stop timer fires: it is consumed and a forward push is attempted. */
    method FireStopTimer(id: nat, view: View, strafeRoll: real, sideRoll: real)
      requires Valid() && id in stopTimers
      modifies this`isMoving, this`forward, this`left, this`right, this`strafeReleases, this`avoidTimers, this`stopTimers
      ensures Valid() && stopTimers == old(stopTimers) - {id}
      ensures !Hazard(view) ==>
        && isMoving && forward && avoidTimers == old(avoidTimers)
        && Strafed(old(left), old(right), old(strafeReleases), strafeRoll, sideRoll)
      ensures Hazard(view) ==>
        && unchanged(this`isMoving, this`forward, this`left, this`right, this`strafeReleases)
        && avoidTimers == old(avoidTimers) + 1
    {
      stopTimers := stopTimers - {id};
      StartForwardMovement(view, strafeRoll, sideRoll);
    }

    /** A strafe-release timer fires: that side's control is released. */
    method FireStrafeRelease(side: Side)
      requires side in strafeReleases
      modifies this`left, this`right, this`strafeReleases
      ensures strafeReleases == old(strafeReleases) - multiset{side}
      ensures side == Left ==> !left && right == old(right)
      ensures side == Right ==> !right && left == old(left)
    {
      strafeReleases := strafeReleases - multiset{side};
      if side == Left { left := false; } else { right := false; }
    }

    /** An `avoidDanger` timer fires: push forward only if the view is safe (the push re-checks it). */
    method FireAvoidTimer(view: View, strafeRoll: real, sideRoll: real)
      requires avoidTimers > 0
      modifies this`isMoving, this`forward, this`left, this`right, this`strafeReleases, this`avoidTimers
      ensures Hazard(view) ==>
        && avoidTimers == old(avoidTimers) - 1
        && unchanged(this`isMoving, this`forward, this`left, this`right, this`strafeReleases)
      ensures !Hazard(view) ==>
        && avoidTimers == old(avoidTimers) - 1 && isMoving && forward
        && Strafed(old(left), old(right), old(strafeReleases), strafeRoll, sideRoll)
    {
      avoidTimers := avoidTimers - 1;
      var safe := IsSafeToMove(view);
      if safe {
        StartForwardMovement(view, strafeRoll, sideRoll);
      }
    }

    /**
     * `cleanup()`: cancel the movement timer and the latest stop timer and
     * release every control. `isMoving` is left as it was, and older stop
     * timers, strafe releases and avoid-danger retries stay pending.
     */
    method Cleanup()
      requires Valid()
      modifies this`movementTimerArmed, this`stopTimers, this`forward, this`left, this`right
      ensures Valid()
      ensures !movementTimerArmed && !forward && !left && !right
      ensures stopTimers == old(stopTimers) - (if stopTimer.Some? then {stopTimer.value} else {})
      ensures isMoving == old(isMoving) && avoidTimers == old(avoidTimers)
    {
      movementTimerArmed := false;
      if stopTimer.Some? {
        stopTimers := stopTimers - {stopTimer.value};
      }
      forward, left, right := false, false, false;
    }
  }

  /** With the shipped limit of 3, a drop is too far exactly when the four blocks below the spot are open. */
  lemma ConfiguredFallLimit(column: nat -> Option<string>)
    ensures FallDistance(column) > 3 <==> forall i :: 0 <= i <= 3 ==> IsOpen(column(i))
  {
    FallExceeds(column, 3);
  }

  /** A limit of 10 or more never rejects a drop: the scan stops at 10. */
  lemma HighLimitNeverTrips(column: nat -> Option<string>, m: nat)
    requires m >= 10
    ensures FallDistance(column) <= m
  {
  }
}
