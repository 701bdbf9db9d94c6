/**
 * bot-with-web.js: the supervisor of the web-monitored variant. It rotates the
 * username on every reconnect, waits 5 s after the first failure and up to two
 * minutes after later ones, exits with code 1 after fifty failed attempts, and
 * keeps the status record the monitoring endpoint reports.
 */
module WebBot {
  import opened Wrappers
  import opened Strings
  import opened Identity
  import opened Backoff

  /** `maxReconnectAttempts` */
  const MaxAttempts: nat := 50
  /** Minimum spacing of the bot's own chat messages, in milliseconds. */
  const ChatSpacing: nat := 3000

  datatype Termination = Error | End | Kicked(reason: string)

  class Supervisor {
    const baseUsername: string

    /** `reconnectAttempts` */
    var attempts: nat
    /** `currentUsernameIndex` */
    var usernameIndex: nat
    /** `currentUsername` */
    var currentUsername: string
    /** `botStatus.isRunning`, `botStatus.currentUsername`, `botStatus.lastSeen` */
    var isRunning: bool
    var statusUsername: string
    var lastSeen: Option<nat>
    /** `botState.lastChatTime` */
    var lastChatTime: nat
    /** The `bot` variable, as the generation number of the client it refers to. */
    var bot: Option<nat>
    var created: nat
    var quit: set<nat>
    /** Reconnect timers scheduled and not yet fired. */
    var pendingTimers: nat
    /** Set by `process.exit(1)`. */
    var exitCode: Option<int>

    ghost predicate Valid()
      reads this
    {
      && attempts <= MaxAttempts
      && usernameIndex < |UsernamePool|
      && (bot.Some? ==> bot.value < created && bot.value !in quit)
      && (forall g | g in quit :: g < created)
      && (exitCode.Some? ==> exitCode.value == 1)
    }

    /** Start-up state (bot-with-web.js:26-47) followed by the first `createBot()`. */
    constructor (baseUsername: string)
      ensures Valid() && this.baseUsername == baseUsername
      ensures attempts == 0 && usernameIndex == 0 && currentUsername == baseUsername
      ensures !isRunning && statusUsername == "Not connected" && lastSeen.None? && lastChatTime == 0
      ensures bot == Some(0) && created == 1 && quit == {} && pendingTimers == 0 && exitCode.None?
    {
      this.baseUsername := baseUsername;
      attempts, usernameIndex, currentUsername := 0, 0, baseUsername;
      isRunning, statusUsername, lastSeen, lastChatTime := false, "Not connected", None, 0;
      bot, created, quit, pendingTimers, exitCode := Some(0), 1, {}, 0, None;
    }

    /** `getNextUsername()`: the base name on a first connection, else the next pool name plus a suffix. */
    method GetNextUsername(roll: real) returns (name: string)
      requires Valid() && 0.0 <= roll < 1.0
      modifies this`usernameIndex, this`currentUsername
      ensures Valid() && name == currentUsername
      ensures attempts == 0 ==> name == baseUsername && usernameIndex == old(usernameIndex)
      ensures attempts != 0 ==>
        && usernameIndex == NextPoolIndex(old(usernameIndex))
        && name == RotatedName(usernameIndex, SuffixFromRoll(roll))
    {
      if attempts == 0 {
        currentUsername := baseUsername;
      } else {
        usernameIndex := NextPoolIndex(usernameIndex);
        currentUsername := RotatedName(usernameIndex, SuffixFromRoll(roll));
      }
      name := currentUsername;
    }

    /** `updateBotStatus(isConnected)`. */
    method UpdateBotStatus(isConnected: bool, now: nat)
      modifies this`isRunning, this`statusUsername, this`lastSeen
      ensures isRunning == isConnected && statusUsername == currentUsername && lastSeen == Some(now)
    {
      isRunning := isConnected;
      lastSeen := Some(now);
      statusUsername := currentUsername;
    }

    /** The `login` handler: counter reset, status "running". */
    method OnLogin(now: nat)
      requires Valid() && exitCode.None?
      modifies this`attempts, this`isRunning, this`statusUsername, this`lastSeen
      ensures Valid() && attempts == 0
      ensures isRunning && statusUsername == currentUsername && lastSeen == Some(now)
    {
      attempts := 0;
      UpdateBotStatus(true, now);
    }

    /** `scheduleReconnect()`. */
    method ScheduleReconnect() returns (delay: Option<nat>)
      requires Valid() && exitCode.None?
      modifies this`attempts, this`pendingTimers, this`exitCode
      ensures Valid()
      ensures old(attempts) >= MaxAttempts ==>
        exitCode == Some(1) && delay.None? && attempts == old(attempts) && pendingTimers == old(pendingTimers)
      ensures old(attempts) < MaxAttempts ==>
        && exitCode.None? && attempts == old(attempts) + 1 && pendingTimers == old(pendingTimers) + 1
        && delay == Some(WebDelay(attempts))
      ensures delay.Some? ==> 5000 <= delay.value <= 120000
    {
      if attempts >= MaxAttempts {
        exitCode := Some(1);
        return None;
      }
      attempts := attempts + 1;
      pendingTimers := pendingTimers + 1;
      delay := Some(WebDelay(attempts));
    }

    /**
     * The `error`, `end` and `kicked` handlers. A kick whose reason passes the
     * ban test is only reported in `banDetected`; the state changes exactly as
     * for any other kick.
     */
    method OnTermination(event: Termination, now: nat) returns (banDetected: bool, delay: Option<nat>)
      requires Valid() && exitCode.None?
      modifies this`isRunning, this`statusUsername, this`lastSeen
      modifies this`attempts, this`pendingTimers, this`exitCode
      ensures Valid()
      ensures banDetected <==> event.Kicked? && IsBanReason(event.reason)
      ensures !isRunning && statusUsername == currentUsername && lastSeen == Some(now)
      ensures old(attempts) >= MaxAttempts ==> exitCode == Some(1) && delay.None?
      ensures old(attempts) < MaxAttempts ==>
        && exitCode.None? && attempts == old(attempts) + 1 && pendingTimers == old(pendingTimers) + 1
        && delay == Some(WebDelay(attempts))
    {
      banDetected := event.Kicked? && IsBanReason(event.reason);
      UpdateBotStatus(false, now);
      delay := ScheduleReconnect();
    }

    /**
     * The reconnect timer: quit and drop the old client, then `createBot()`,
     * which picks the next username before constructing the client.
     * `createOk` is false when construction throws (the error is logged).
     */
    method FireReconnectTimer(roll: real, createOk: bool) returns (name: string)
      requires Valid() && exitCode.None? && pendingTimers > 0 && 0.0 <= roll < 1.0
      modifies this`bot, this`created, this`quit, this`pendingTimers
      modifies this`usernameIndex, this`currentUsername
      ensures Valid() && pendingTimers == old(pendingTimers) - 1
      ensures quit == if old(bot).Some? then old(quit) + {old(bot).value} else old(quit)
      ensures name == currentUsername
      ensures attempts == 0 ==> name == baseUsername && usernameIndex == old(usernameIndex)
      ensures attempts != 0 ==>
        && usernameIndex == NextPoolIndex(old(usernameIndex))
        && name == RotatedName(usernameIndex, SuffixFromRoll(roll))
      ensures createOk ==> bot == Some(old(created)) && created == old(created) + 1
      ensures !createOk ==> bot.None? && created == old(created)
    {
      pendingTimers := pendingTimers - 1;
      if bot.Some? {
        quit := quit + {bot.value};
        bot := None;
      }
      name := GetNextUsername(roll);
      if createOk {
        bot := Some(created);
        created := created + 1;
      }
    }

    /** `sendIntelligentChat(message)`; `chatOk` is false when `bot.chat` throws. */
    method SendIntelligentChat(message: string, now: nat, chatOk: bool) returns (sent: bool)
      requires Valid()
      modifies this`lastChatTime
      ensures sent <==> bot.Some? && message != "" && now - old(lastChatTime) >= ChatSpacing && chatOk
      ensures lastChatTime == if sent then now else old(lastChatTime)
    {
      if bot.None? || message == "" {
        return false;
      }
      if now - lastChatTime < ChatSpacing {
        return false;
      }
      sent := chatOk;
      if sent {
        lastChatTime := now;
      }
    }
  }

  /**
   * Every reconnect happens with the attempt counter above zero, so each one
   * takes a rotated name, and two reconnects in a row never reuse the
   * previous identity (bot-with-web.js:206-218, 319-348).
   */
  method ConsecutiveReconnectsRotate(s: Supervisor, now: nat, r1: real, r2: real, createOk: bool)
    returns (first: string, second: string)
    requires s.Valid() && s.exitCode.None? && s.attempts + 2 <= MaxAttempts
    requires 0.0 <= r1 < 1.0 && 0.0 <= r2 < 1.0
    modifies s
    ensures s.Valid() && s.exitCode.None? && s.attempts == old(s.attempts) + 2
    ensures first == RotatedName(NextPoolIndex(old(s.usernameIndex)), SuffixFromRoll(r1))
    ensures first != second && second == s.currentUsername
  {
    var banned, delay := s.OnTermination(Error, now);
    first := s.FireReconnectTimer(r1, createOk);
    var i := s.usernameIndex;
    banned, delay := s.OnTermination(End, now);
    second := s.FireReconnectTimer(r2, createOk);
    ConsecutiveRotatedNamesDiffer(i, SuffixFromRoll(r1), SuffixFromRoll(r2));
  }
}
