/**
 * bot-with-database.js: the supervisor of the database-logging variant. It
 * differs from the web variant in three ways: a reconnect already in progress
 * swallows further disconnect events, the attempt counter is halved instead of
 * the process exiting once fifty attempts are reached, and every username used
 * or banned is appended to a history table.
 */
module DatabaseBot {
  import opened Wrappers
  import opened Strings
  import opened Identity
  import opened Backoff

  /** `maxReconnectAttempts` */
  const MaxAttempts: nat := 50
  /** Delay of the retry timer armed when creating a client throws, in milliseconds. */
  const RetryDelay: nat := 10000
  /** Minimum spacing of the bot's own chat messages, in milliseconds. */
  const ChatSpacing: nat := 3000

  /** One row of the `username_history` table. */
  datatype UsageRecord = UsageRecord(username: string, wasBanned: bool, banReason: Option<string>)

  datatype Termination = Error | End | Kicked(reason: string)

  class Supervisor {
    const baseUsername: string
    /** Whether a database URL was configured; without one nothing is logged. */
    const databaseEnabled: bool

    /** `reconnectAttempts` */
    var attempts: nat
    /** `isReconnecting` */
    var isReconnecting: bool
    /** `currentUsernameIndex` */
    var usernameIndex: nat
    /** `currentUsername` */
    var currentUsername: string
    /** Rows appended to `username_history`, oldest first. */
    var usageLog: seq<UsageRecord>
    /** `botStatus.isRunning`, `botStatus.currentUsername`, `botStatus.lastSeen` */
    var isRunning: bool
    var statusUsername: string
    var lastSeen: Option<nat>
    /** `botStatus.lastChatTime` (absent counts as 0) and the two message counters. */
    var lastChatTime: nat
    var totalChatMessages: nat
    var sessionChatMessages: nat
    /** The `bot` variable, as the generation number of the client it refers to. */
    var bot: Option<nat>
    var created: nat
    var quit: set<nat>
    /** Reconnect timers and retry timers scheduled and not yet fired. */
    var pendingReconnects: nat
    var pendingRetries: nat

    ghost predicate Valid()
      reads this
    {
      && attempts <= MaxAttempts
      && usernameIndex < |UsernamePool|
      && (isReconnecting ==> pendingReconnects > 0)
      && (bot.Some? ==> bot.value < created && bot.value !in quit)
      && (forall g | g in quit :: g < created)
    }

    /** Start-up state (bot-with-database.js:43-78) followed by the first `createBot()`. */
    constructor (baseUsername: string, databaseEnabled: bool)
      ensures Valid() && this.baseUsername == baseUsername && this.databaseEnabled == databaseEnabled
      ensures attempts == 0 && !isReconnecting && usernameIndex == 0 && currentUsername == baseUsername
      ensures usageLog == if databaseEnabled then [UsageRecord(baseUsername, false, None)] else []
      ensures !isRunning && statusUsername == "Not connected" && lastSeen.None?
      ensures lastChatTime == 0 && totalChatMessages == 0 && sessionChatMessages == 0
      ensures bot == Some(0) && created == 1 && quit == {} && pendingReconnects == 0 && pendingRetries == 0
    {
      this.baseUsername := baseUsername;
      this.databaseEnabled := databaseEnabled;
      attempts, isReconnecting, usernameIndex, currentUsername := 0, false, 0, baseUsername;
      usageLog := if databaseEnabled then [UsageRecord(baseUsername, false, None)] else [];
      isRunning, statusUsername, lastSeen := false, "Not connected", None;
      lastChatTime, totalChatMessages, sessionChatMessages := 0, 0, 0;
      bot, created, quit, pendingReconnects, pendingRetries := Some(0), 1, {}, 0, 0;
    }

    /** `logUsernameUsage(...)`: one row appended, when a database is configured. */
    method LogUsernameUsage(username: string, wasBanned: bool, banReason: Option<string>)
      modifies this`usageLog
      ensures usageLog == old(usageLog) + if databaseEnabled then [UsageRecord(username, wasBanned, banReason)] else []
    {
      if databaseEnabled {
        usageLog := usageLog + [UsageRecord(username, wasBanned, banReason)];
      }
    }

    /** `getNextUsername()`: as in the web variant, and every name handed out is logged as not banned. */
    method GetNextUsername(roll: real) returns (name: string)
      requires Valid() && 0.0 <= roll < 1.0
      modifies this`usernameIndex, this`currentUsername, this`usageLog
      ensures Valid() && name == currentUsername
      ensures attempts == 0 ==> name == baseUsername && usernameIndex == old(usernameIndex)
      ensures attempts != 0 ==>
        && usernameIndex == NextPoolIndex(old(usernameIndex))
        && name == RotatedName(usernameIndex, SuffixFromRoll(roll))
      ensures usageLog == old(usageLog) + if databaseEnabled then [UsageRecord(name, false, None)] else []
    {
      if attempts == 0 {
        currentUsername := baseUsername;
      } else {
        usernameIndex := NextPoolIndex(usernameIndex);
        currentUsername := RotatedName(usernameIndex, SuffixFromRoll(roll));
      }
      LogUsernameUsage(currentUsername, false, None);
      name := currentUsername;
    }

    /** `updateBotStatus(isConnected)` (the server-status row it writes is not modelled). */
    method UpdateBotStatus(isConnected: bool, now: nat)
      modifies this`isRunning, this`statusUsername, this`lastSeen
      ensures isRunning == isConnected && statusUsername == currentUsername && lastSeen == Some(now)
    {
      isRunning := isConnected;
      lastSeen := Some(now);
      statusUsername := currentUsername;
    }

    /** The `login` handler: counter and guard reset, status "running", session counters reset. */
    method OnLogin(now: nat)
      requires Valid()
      modifies this`attempts, this`isReconnecting, this`isRunning, this`statusUsername, this`lastSeen
      modifies this`sessionChatMessages
      ensures Valid() && attempts == 0 && !isReconnecting && sessionChatMessages == 0
      ensures isRunning && statusUsername == currentUsername && lastSeen == Some(now)
    {
      attempts := 0;
      isReconnecting := false;
      UpdateBotStatus(true, now);
      sessionChatMessages := 0;
    }

    /**
     * `scheduleReconnect()`: nothing while a reconnect is in progress; otherwise
     * the counter is halved to 25 once it has reached 50, then incremented, and
     * one timer is armed with the tiered delay.
     */
    method ScheduleReconnect() returns (delay: Option<nat>)
      requires Valid()
      modifies this`attempts, this`isReconnecting, this`pendingReconnects
      ensures Valid()
      ensures old(isReconnecting) ==>
        delay.None? && attempts == old(attempts) && isReconnecting && pendingReconnects == old(pendingReconnects)
      ensures !old(isReconnecting) ==>
        && isReconnecting && pendingReconnects == old(pendingReconnects) + 1
        && attempts == (if old(attempts) >= MaxAttempts then MaxAttempts / 2 else old(attempts)) + 1
        && delay == Some(TieredDelay(attempts))
      ensures 1 <= attempts <= MaxAttempts || attempts == old(attempts)
    {
      if isReconnecting {
        return None;
      }
      isReconnecting := true;
      if attempts >= MaxAttempts {
        attempts := MaxAttempts / 2;
      }
      attempts := attempts + 1;
      pendingReconnects := pendingReconnects + 1;
      delay := Some(TieredDelay(attempts));
    }

    /**
     * The `error`, `end` and `kicked` handlers. A kick whose reason passes the
     * ban test first logs the current name as banned.
     */
    method OnTermination(event: Termination, now: nat) returns (delay: Option<nat>)
      requires Valid()
      modifies this`usageLog, this`isRunning, this`statusUsername, this`lastSeen
      modifies this`attempts, this`isReconnecting, this`pendingReconnects
      ensures Valid()
      ensures event.Kicked? && IsBanReason(event.reason) ==>
        usageLog == old(usageLog) + if databaseEnabled then [UsageRecord(currentUsername, true, Some(event.reason))] else []
      ensures !(event.Kicked? && IsBanReason(event.reason)) ==> usageLog == old(usageLog)
      ensures !isRunning && statusUsername == currentUsername && lastSeen == Some(now)
      ensures old(isReconnecting) ==> delay.None? && attempts == old(attempts) && pendingReconnects == old(pendingReconnects)
      ensures !old(isReconnecting) ==>
        && pendingReconnects == old(pendingReconnects) + 1
        && attempts == (if old(attempts) >= MaxAttempts then MaxAttempts / 2 else old(attempts)) + 1
        && delay == Some(TieredDelay(attempts))
      ensures isReconnecting
    {
      if event.Kicked? && IsBanReason(event.reason) {
        LogUsernameUsage(currentUsername, true, Some(event.reason));
      }
      UpdateBotStatus(false, now);
      delay := ScheduleReconnect();
    }

    /**
     * The reconnect timer: quit and drop the old client, clear the guard and
     * `createBot()`. When constructing the client throws (`createOk` false),
     * the name has already been rotated and logged; the client stays absent
     * and a 10 s retry timer is armed instead of a new reconnect.
     */
    method FireReconnectTimer(roll: real, createOk: bool) returns (name: string)
      requires Valid() && pendingReconnects > 0 && 0.0 <= roll < 1.0
      modifies this`bot, this`created, this`quit, this`pendingReconnects, this`pendingRetries
      modifies this`isReconnecting, this`usernameIndex, this`currentUsername, this`usageLog
      ensures Valid() && !isReconnecting && pendingReconnects == old(pendingReconnects) - 1
      ensures quit == if old(bot).Some? then old(quit) + {old(bot).value} else old(quit)
      ensures name == currentUsername
      ensures attempts == 0 ==> name == baseUsername && usernameIndex == old(usernameIndex)
      ensures attempts != 0 ==>
        && usernameIndex == NextPoolIndex(old(usernameIndex))
        && name == RotatedName(usernameIndex, SuffixFromRoll(roll))
      ensures usageLog == old(usageLog) + if databaseEnabled then [UsageRecord(name, false, None)] else []
      ensures createOk ==> bot == Some(old(created)) && created == old(created) + 1 && pendingRetries == old(pendingRetries)
      ensures !createOk ==> bot.None? && created == old(created) && pendingRetries == old(pendingRetries) + 1
    {
      pendingReconnects := pendingReconnects - 1;
      if bot.Some? {
        quit := quit + {bot.value};
      }
      bot := None;
      isReconnecting := false;
      name := GetNextUsername(roll);
      if createOk {
        bot := Some(created);
        created := created + 1;
      } else {
        pendingRetries := pendingRetries + 1;
      }
    }

    /** The 10 s retry timer: a reconnect is scheduled unless one is already in progress. */
    method FireRetryTimer() returns (delay: Option<nat>)
      requires Valid() && pendingRetries > 0
      modifies this`pendingRetries, this`attempts, this`isReconnecting, this`pendingReconnects
      ensures Valid() && isReconnecting && pendingRetries == old(pendingRetries) - 1
      ensures old(isReconnecting) ==> delay.None? && attempts == old(attempts) && pendingReconnects == old(pendingReconnects)
      ensures !old(isReconnecting) ==>
        && pendingReconnects == old(pendingReconnects) + 1
        && attempts == (if old(attempts) >= MaxAttempts then MaxAttempts / 2 else old(attempts)) + 1
        && delay == Some(TieredDelay(attempts))
    {
      pendingRetries := pendingRetries - 1;
      delay := None;
      if !isReconnecting {
        delay := ScheduleReconnect();
      }
    }

    /** `sendIntelligentChat(message)`; `chatOk` is false when `bot.chat` throws. */
    method SendIntelligentChat(message: string, now: nat, chatOk: bool) returns (sent: bool)
      requires Valid()
      modifies this`lastChatTime, this`totalChatMessages, this`sessionChatMessages
      ensures sent <==> bot.Some? && message != "" && now - old(lastChatTime) >= ChatSpacing && chatOk
      ensures lastChatTime == if sent then now else old(lastChatTime)
      ensures totalChatMessages == old(totalChatMessages) + (if sent then 1 else 0)
      ensures sessionChatMessages == old(sessionChatMessages) + (if sent then 1 else 0)
    {
      if bot.None? || message == "" {
        return false;
      }
      if now - lastChatTime < ChatSpacing {
        return false;
      }
      sent := chatOk;
      if sent {
        lastChatTime := now;
        sessionChatMessages := sessionChatMessages + 1;
        totalChatMessages := totalChatMessages + 1;
      }
    }
  }

  /**
   * A client that reports both `error` and `end` for one failure is counted
   * once: the second event finds the reconnect guard set and schedules nothing
   * (bot-with-database.js:557-561).
   */
  method ErrorThenEndCountsOnce(s: Supervisor, now: nat) returns (first: Option<nat>, second: Option<nat>)
    requires s.Valid() && !s.isReconnecting && s.attempts < MaxAttempts
    modifies s
    ensures s.Valid() && s.isReconnecting
    ensures s.attempts == old(s.attempts) + 1 && s.pendingReconnects == old(s.pendingReconnects) + 1
    ensures first.Some? && second.None?
  {
    first := s.OnTermination(Error, now);
    second := s.OnTermination(End, now);
  }

  /** The counter `scheduleReconnect` leaves behind: 50 folds back to 25, then one is added. */
  function NextAttempt(a: nat): nat {
    (if a >= MaxAttempts then MaxAttempts / 2 else a) + 1
  }

  /** The counter after `k` more scheduled reconnects without a login. */
  function AttemptsAfter(a: nat, k: nat): nat {
    if k == 0 then a else NextAttempt(AttemptsAfter(a, k - 1))
  }

  /**
   * From a fresh start the counter runs 1, 2, ..., 50 and then cycles through
   * 26, ..., 50 for ever, so it never leaves 1..50 once a reconnect has been
   * scheduled.
   */
  lemma {:induction false} AttemptCycle(k: nat)
    ensures AttemptsAfter(0, k) == if k <= 50 then k else 26 + (k - 51) % 25
    ensures 1 <= k ==> 1 <= AttemptsAfter(0, k) <= MaxAttempts
  {
    if 1 <= k {
      AttemptCycle(k - 1);
      if 52 <= k {
        var r := (k - 52) % 25;
        assert k - 52 == (k - 52) / 25 * 25 + r;
        if r < 24 {
          assert (k - 51) % 25 == r + 1 by {
            assert k - 51 == (k - 52) / 25 * 25 + (r + 1);
          }
        } else {
          assert (k - 51) % 25 == 0 by {
            assert k - 51 == ((k - 52) / 25 + 1) * 25;
          }
        }
      }
    }
  }

  /**
   * Connections that fail by throwing from `createBot()`: the first reconnect
   * is scheduled by the disconnect, and each failed attempt arms the 10 s
   * retry, which finds no reconnect in progress and schedules the next. The
   * process never exits; the i-th delay is the tiered delay of the counter
   * after i + 1 schedules (bot-with-database.js:556-605).
   */
  method ReconnectForever(s: Supervisor, rounds: nat, rolls: seq<real>) returns (delays: seq<nat>)
    requires s.Valid() && !s.isReconnecting && |rolls| == rounds
    requires forall i :: 0 <= i < |rolls| ==> 0.0 <= rolls[i] < 1.0
    modifies s
    ensures s.Valid() && s.isReconnecting && |delays| == rounds + 1
    ensures s.attempts == AttemptsAfter(old(s.attempts), rounds + 1)
    ensures forall i :: 0 <= i < |delays| ==> delays[i] == TieredDelay(AttemptsAfter(old(s.attempts), i + 1))
  {
    var a0 := s.attempts;
    var d := s.ScheduleReconnect();
    delays := [d.value];
    var i := 0;
    while i < rounds
      invariant 0 <= i <= rounds && |delays| == i + 1
      invariant s.Valid() && s.isReconnecting && s.pendingReconnects > 0 && s.pendingRetries == old(s.pendingRetries)
      invariant s.attempts == AttemptsAfter(a0, i + 1)
      invariant forall j :: 0 <= j < |delays| ==> delays[j] == TieredDelay(AttemptsAfter(a0, j + 1))
    {
      var name := s.FireReconnectTimer(rolls[i], false);
      d := s.FireRetryTimer();
      delays := delays + [d.value];
      i := i + 1;
    }
  }

  /**
   * Three consecutive failed connections without a login between them: the
   * base name is used first, then three rotated names, each different from the
   * one before, and all four are logged (bot-with-database.js:381-397).
   */
  method ThreeFailedReconnects(base: string, r1: real, r2: real, r3: real) returns (s: Supervisor, names: seq<string>)
    requires 0.0 <= r1 < 1.0 && 0.0 <= r2 < 1.0 && 0.0 <= r3 < 1.0
    ensures s.Valid() && s.attempts == 3 && |names| == 3
    ensures names[0] == RotatedName(1, SuffixFromRoll(r1))
    ensures names[1] == RotatedName(2, SuffixFromRoll(r2))
    ensures names[2] == RotatedName(3, SuffixFromRoll(r3))
    ensures names[0] != names[1] && names[1] != names[2]
    ensures s.usageLog == [
      UsageRecord(base, false, None), UsageRecord(names[0], false, None),
      UsageRecord(names[1], false, None), UsageRecord(names[2], false, None)]
  {
    s := new Supervisor(base, true);
    var d := s.OnTermination(Error, 0);
    var n1 := s.FireReconnectTimer(r1, true);
    d := s.OnTermination(Error, 0);
    var n2 := s.FireReconnectTimer(r2, true);
    d := s.OnTermination(Error, 0);
    var n3 := s.FireReconnectTimer(r3, true);
    names := [n1, n2, n3];
    ConsecutiveRotatedNamesDiffer(1, SuffixFromRoll(r1), SuffixFromRoll(r2));
    ConsecutiveRotatedNamesDiffer(2, SuffixFromRoll(r2), SuffixFromRoll(r3));
  }
}
