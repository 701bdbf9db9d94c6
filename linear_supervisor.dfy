/**
 * The reconnect supervisor of ai-bot.js, simple-bot.js, start.js and index.js.
 * All four keep a module-level `reconnectAttempts` counter, give up with exit
 * code 1 once it reaches `maxReconnectAttempts`, and otherwise wait
 * `min(reconnectDelay * n, maxReconnectDelay)` before quitting the old client and
 * creating a new one. None of them de-duplicates: `error`, `end` and `kicked`
 * each schedule their own reconnect.
 */
module LinearSupervisor {
  import opened Wrappers
  import opened Backoff

  /** The entry script a supervisor belongs to. */
  datatype Script = AiBot | SimpleBot | Start | Index

  /** The lifecycle events that end a session. */
  datatype Termination = Error | End | Kicked(reason: string)

  /**
   * ai-bot.js and simple-bot.js wrap the timer body in try/catch; in start.js and
   * index.js an exception from createBot is uncaught and ends the process with code 1.
   */
  predicate CatchesCreateFailure(script: Script) {
    script.AiBot? || script.SimpleBot?
  }

  class Supervisor {
    const script: Script
    const maxAttempts: nat
    const reconnectDelay: nat
    const maxReconnectDelay: nat

    /** `reconnectAttempts` */
    var attempts: nat
    /** The `bot` variable, as the generation number of the client it refers to. */
    var bot: Option<nat>
    /** How many clients were created; the next one gets this generation number. */
    var created: nat
    /** Generations on which `bot.quit()` was called. */
    var quit: set<nat>
    /** Reconnect timers scheduled and not yet fired. */
    var pendingTimers: nat
    /** Set by `process.exit(code)`; the process handles no event afterwards. */
    var exitCode: Option<int>

    ghost predicate Valid()
      reads this
    {
      && attempts <= maxAttempts
      && reconnectDelay <= maxReconnectDelay
      && (exitCode.None? ==> bot.Some? ==> bot.value < created && bot.value !in quit)
      && (forall g | g in quit :: g < created)
      && (exitCode.Some? ==> exitCode.value == 1)
    }

    /**
     * Start-up: the constants of the script (ai-bot.js:21-22, simple-bot.js:21-22,
     * config.js:14-16) and the first `createBot()`.
     */
    constructor (script: Script)
      ensures Valid() && this.script == script
      ensures maxAttempts == MaxLinearAttempts && reconnectDelay == ReconnectDelay
      ensures maxReconnectDelay == MaxReconnectDelay
      ensures attempts == 0 && bot == Some(0) && created == 1 && quit == {}
      ensures pendingTimers == 0 && exitCode.None?
    {
      this.script := script;
      maxAttempts, reconnectDelay, maxReconnectDelay := MaxLinearAttempts, ReconnectDelay, MaxReconnectDelay;
      attempts, bot, created, quit := 0, Some(0), 1, {};
      pendingTimers, exitCode := 0, None;
    }

    /** The `login` handler: the counter starts over. */
    method OnLogin()
      requires Valid() && exitCode.None?
      modifies this`attempts
      ensures Valid() && attempts == 0
    {
      attempts := 0;
    }

    /** `scheduleReconnect()`. */
    method ScheduleReconnect() returns (delay: Option<nat>)
      requires Valid() && exitCode.None?
      modifies this`attempts, this`pendingTimers, this`exitCode
      ensures Valid()
      ensures old(attempts) >= maxAttempts ==>
        exitCode == Some(1) && delay.None? && attempts == old(attempts) && pendingTimers == old(pendingTimers)
      ensures old(attempts) < maxAttempts ==>
        && exitCode.None? && attempts == old(attempts) + 1 && pendingTimers == old(pendingTimers) + 1
        && delay == Some(LinearDelay(attempts, reconnectDelay, maxReconnectDelay))
      ensures delay.Some? ==> reconnectDelay <= delay.value <= maxReconnectDelay
    {
      if attempts >= maxAttempts {
        exitCode := Some(1);
        return None;
      }
      attempts := attempts + 1;
      var d := LinearDelay(attempts, reconnectDelay, maxReconnectDelay);
      LinearDelayBounds(attempts, reconnectDelay, maxReconnectDelay);
      pendingTimers := pendingTimers + 1;
      delay := Some(d);
    }

    /** The `error`, `end` and `kicked` handlers: each logs and calls scheduleReconnect. */
    method OnTermination(event: Termination) returns (delay: Option<nat>)
      requires Valid() && exitCode.None?
      modifies this`attempts, this`pendingTimers, this`exitCode
      ensures Valid()
      ensures old(attempts) >= maxAttempts ==> exitCode == Some(1) && delay.None?
      ensures old(attempts) < maxAttempts ==>
        && exitCode.None? && attempts == old(attempts) + 1 && pendingTimers == old(pendingTimers) + 1
        && delay == Some(LinearDelay(attempts, reconnectDelay, maxReconnectDelay))
    {
      delay := ScheduleReconnect();
    }

    /**
     * The reconnect timer fires: quit the old client (if any), then create a new
     * one. `createOk` is false when client construction throws.
     */
    method FireReconnectTimer(createOk: bool)
      requires Valid() && exitCode.None? && pendingTimers > 0
      modifies this`bot, this`created, this`quit, this`pendingTimers, this`exitCode
      ensures Valid() && pendingTimers == old(pendingTimers) - 1
      ensures quit == if old(bot).Some? then old(quit) + {old(bot).value} else old(quit)
      ensures createOk ==> exitCode.None? && bot == Some(old(created)) && created == old(created) + 1
      ensures !createOk && CatchesCreateFailure(script) ==>
        exitCode.None? && bot.None? && created == old(created)
      ensures !createOk && !CatchesCreateFailure(script) ==> exitCode == Some(1) && created == old(created)
    {
      pendingTimers := pendingTimers - 1;
      if bot.Some? {
        quit := quit + {bot.value};
        if CatchesCreateFailure(script) {
          bot := None;
        }
      }
      if createOk {
        bot := Some(created);
        created := created + 1;
      } else if !CatchesCreateFailure(script) {
        exitCode := Some(1);
      }
    }
  }

  /**
   * One disconnect that raises `error`, `end` and `kicked` is counted three
   * times and schedules three reconnects (index.js:39-52, simple-bot.js:107-120).
   */
  method NoDeduplication(script: Script) returns (s: Supervisor)
    ensures s.Valid() && s.exitCode.None?
    ensures s.attempts == 3 && s.pendingTimers == 3
  {
    s := new Supervisor(script);
    var d1 := s.OnTermination(Error);
    var d2 := s.OnTermination(End);
    var d3 := s.OnTermination(Kicked("timed out"));
    assert d1 == Some(5000) && d2 == Some(10000) && d3 == Some(15000);
  }

  /**
   * Without a login in between, the supervisor schedules exactly
   * `maxAttempts` reconnects, the i-th after 5000 * i ms, and the next
   * termination ends the process with exit code 1.
   */
  method ExhaustBudget(s: Supervisor) returns (delays: seq<nat>)
    requires s.Valid() && s.exitCode.None? && s.attempts == 0
    requires s.reconnectDelay == ReconnectDelay && s.maxReconnectDelay == MaxReconnectDelay
    requires s.maxAttempts == MaxLinearAttempts
    modifies s
    ensures s.exitCode == Some(1)
    ensures |delays| == MaxLinearAttempts
    ensures forall i :: 0 <= i < |delays| ==> delays[i] == 5000 * (i + 1)
  {
    delays := [];
    while s.exitCode.None?
      invariant s.Valid() && s.maxAttempts == MaxLinearAttempts
      invariant s.reconnectDelay == ReconnectDelay && s.maxReconnectDelay == MaxReconnectDelay
      invariant s.exitCode.None? ==> s.attempts == |delays|
      invariant s.exitCode.Some? ==> s.exitCode == Some(1) && |delays| == MaxLinearAttempts
      invariant |delays| <= MaxLinearAttempts
      invariant forall i :: 0 <= i < |delays| ==> delays[i] == 5000 * (i + 1)
      decreases MaxLinearAttempts + 1 - |delays|, s.exitCode.None?
    {
      var d := s.OnTermination(End);
      if d.Some? {
        ConfiguredLinearDelayNeverCapped(s.attempts);
        delays := delays + [d.value];
      }
    }
  }
}
