/**
 * ai-bot.js: the "intelligent player" agent. A global state record holds the
 * current task, three inventory flags, a movement flag, the chat and mining
 * timestamps and the player being followed. A periodic decision loop refreshes
 * the flags from the inventory, lets a priority chain pick the next task and
 * runs that task's handler; chat messages from players are answered from an
 * ordered keyword table whose first match wins and may change the task.
 */
module AiBot {
  import opened Wrappers
  import opened Strings

  datatype Task = Exploring | GatherWood | CraftTable | CraftPickaxe | MineStone | FollowPlayer | SeekFood

  /** `botState.goals`, which never changes. */
  const Goals: seq<Task> := [GatherWood, CraftTable, CraftPickaxe, MineStone]

  /** Minimum spacing of the bot's own messages, of replies to players, and of idle chatter (ms). */
  const ChatSpacing: nat := 3000
  const ReplyCooldown: nat := 1500
  const IdleChatSpacing: nat := 15000
  /** Minimum spacing between two mined blocks (ms). */
  const MiningCooldown: nat := 10000

  // ---------------------------------------------------------------------------
  // Inventory and task selection

  /** Some item name contains "log" or "wood" (so "wooden_pickaxe" counts). */
  predicate HasWood(items: seq<string>) {
    exists i | 0 <= i < |items| :: Contains(items[i], "log") || Contains(items[i], "wood")
  }

  predicate HasCraftingTable(items: seq<string>) {
    "crafting_table" in items
  }

  predicate HasPickaxe(items: seq<string>) {
    exists i | 0 <= i < |items| :: Contains(items[i], "pickaxe")
  }

  predicate HasFood(items: seq<string>) {
    exists i | 0 <= i < |items| ::
      || Contains(items[i], "bread") || Contains(items[i], "apple") || Contains(items[i], "carrot")
      || Contains(items[i], "potato") || Contains(items[i], "meat") || Contains(items[i], "fish")
  }

  /** The priority chain at the end of `updateBotState`. */
  function SelectTask(current: Task, hasWood: bool, hasTable: bool, hasPickaxe: bool): (t: Task)
  {
    if !hasWood && GatherWood !in Goals then GatherWood
    else if hasWood && !hasTable then CraftTable
    else if hasTable && !hasPickaxe then CraftPickaxe
    else if hasPickaxe then MineStone
    else current
  }

  /**
   * The chain's outcome: crafting a table first, then a pickaxe, then mining;
   * the current task is kept when no rule applies, and since `goals` always
   * lists gather_wood the chain never switches to gathering wood.
   */
  lemma SelectTaskPriority(current: Task, hasWood: bool, hasTable: bool, hasPickaxe: bool)
    ensures hasWood && !hasTable ==> SelectTask(current, hasWood, hasTable, hasPickaxe) == CraftTable
    ensures hasTable && !hasPickaxe ==> SelectTask(current, hasWood, hasTable, hasPickaxe) == CraftPickaxe
    ensures hasPickaxe && (hasTable || !hasWood) ==> SelectTask(current, hasWood, hasTable, hasPickaxe) == MineStone
    ensures !hasWood && !hasTable && !hasPickaxe ==> SelectTask(current, hasWood, hasTable, hasPickaxe) == current
    ensures SelectTask(current, hasWood, hasTable, hasPickaxe) == GatherWood ==> current == GatherWood
  {
  }

  /** Re-running the chain on unchanged flags changes nothing. */
  lemma SelectTaskIdempotent(current: Task, hasWood: bool, hasTable: bool, hasPickaxe: bool)
    ensures var t := SelectTask(current, hasWood, hasTable, hasPickaxe);
      SelectTask(t, hasWood, hasTable, hasPickaxe) == t
  {
  }

  /**
   * A wooden pickaxe alone counts as wood and as a pickaxe, and with no
   * crafting table the chain sends the bot to craft a table rather than mine.
   */
  lemma WoodenPickaxeCountsAsWood(current: Task)
    ensures HasWood(["wooden_pickaxe"]) && HasPickaxe(["wooden_pickaxe"]) && !HasCraftingTable(["wooden_pickaxe"])
    ensures SelectTask(current, true, false, true) == CraftTable
  {
    var name := "wooden_pickaxe";
    assert OccursAt(name, "wood", 0);
    assert OccursAt(name, "pickaxe", 7);
    assert Contains(["wooden_pickaxe"][0], "wood");
    assert Contains(["wooden_pickaxe"][0], "pickaxe");
  }

  // ---------------------------------------------------------------------------
  // Fixed texts

  /** `getActivityResponse()`: a missing target renders as "null"; seek_food has no entry. */
  function ActivityResponse(task: Task, target: Option<string>): (s: string)
    ensures s != ""
  {
    match task
    case GatherWood => "looking for trees to punch and get wood"
    case CraftTable => "trying to craft a crafting table"
    case CraftPickaxe => "working on making a pickaxe"
    case MineStone => "mining stone with my pickaxe"
    case Exploring => "just exploring the world and having fun"
    case FollowPlayer => "following " + (if target.Some? then target.value else "null") + " around"
    case SeekFood => "just playing minecraft like a normal player!"
  }

  /** Only seek_food falls back to the default activity text. */
  lemma ActivityDefaultOnlyForSeekFood(task: Task, target: Option<string>)
    ensures ActivityResponse(task, target) == "just playing minecraft like a normal player!" <==> task == SeekFood
  {
    if task == FollowPlayer {
      assert ActivityResponse(task, target)[0] == 'f';
    }
  }

  /** The keys of the `responses` table, in insertion order. */
  const Keywords: seq<string> := [
    "hello", "hi", "great", "good", "help", "what are you doing", "follow me",
    "stop following", "stop", "mine", "build", "food", "creative", "dig",
    "explore", "come here", "go", "wood", "craft", "jump", "dance"]

  /** How a keyword's handler changes `targetPlayer`. */
  datatype TargetChange = KeepTarget | SetTarget | ClearTarget

  /** The task a keyword's handler switches to, if any. */
  function KeywordTask(k: nat): Option<Task> {
    if k == 6 || k == 15 then Some(FollowPlayer)          // follow me, come here
    else if k == 7 || k == 8 || k == 14 || k == 16 then Some(Exploring)  // stop following, stop, explore, go
    else if k == 9 || k == 13 then Some(MineStone)        // mine, dig
    else if k == 17 then Some(GatherWood)                 // wood
    else if k == 18 then Some(CraftTable)                 // craft
    else None
  }

  function KeywordTarget(k: nat): TargetChange {
    if k == 6 || k == 15 then SetTarget
    else if k == 7 || k == 8 then ClearTarget
    else KeepTarget
  }

  /** Handlers that touch the client, and so throw when it is gone: hi, jump, dance. */
  predicate KeywordNeedsClient(k: nat) {
    k == 1 || k == 19 || k == 20
  }

  /** The candidate replies of keyword `k` for a message from `u`; one is drawn at random. */
  function KeywordReplies(k: nat, u: string, botName: string, activity: string): (r: seq<string>)
    requires k < |Keywords|
    ensures 0 < |r|
    ensures activity != "" ==> forall t | t in r :: t != ""
  {
    if k <= 5 then ConversationReplies(k, u, botName, activity) else CommandReplies(k, u)
  }

  /** The replies of the first six keywords, which answer small talk. */
  function ConversationReplies(k: nat, u: string, botName: string, activity: string): (r: seq<string>)
    requires k <= 5
    ensures 0 < |r|
    ensures activity != "" ==> forall t | t in r :: t != ""
  {
    if k == 0 then ["hey " + u + "! good to see you!", "hello " + u + "! how's it going?",
                    "hi there " + u + "! what's up?", "hey " + u + "! nice to meet you!"]
    else if k == 1 then ["hi " + u + "! how are you doing today?", "hey " + u + "! what brings you here?",
                         "hello " + u + "! having fun on the server?",
                         "hi there! i'm " + botName + ", nice to meet you " + u + "!"]
    else if k == 2 then ["that's awesome " + u + "!", "glad to hear that!",
                         "nice! i'm doing pretty good too", "that's great to hear!"]
    else if k == 3 then ["that's good to hear " + u + "! i'm having a great time too"]
    else if k == 4 then ["what do you need help with " + u + "? i'm always happy to help!"]
    else [activity]
  }

  /** The replies of keywords 6 to 20, which answer requests. */
  function CommandReplies(k: nat, u: string): (r: seq<string>)
    requires 6 <= k < |Keywords|
    ensures |r| == 1 && r[0] != ""
  {
    if k == 6 then ["sure thing " + u + "! i'll follow you around"]
    else if k == 7 then ["alright " + u + ", i'll go back to doing my own thing!"]
    else if k == 8 then ["okay! back to exploring and crafting"]
    else if k == 9 then ["sure " + u + "! let's go mining together!"]
    else if k == 10 then ["sounds amazing " + u + "! what kind of build are you working on?"]
    else if k == 11 then ["i'm a bit hungry too " + u + "! know any good food spots?"]
    else if k == 12 then ["yes " + u + "! i love creative mode for building amazing things!"]
    else if k == 13 then ["alright " + u + "! time to dig some blocks!"]
    else if k == 14 then ["great idea " + u + "! let's explore the world together!"]
    else if k == 15 then ["coming " + u + "! on my way!"]
    else if k == 16 then ["going " + u + "! adventure time!"]
    else if k == 17 then ["good thinking " + u + "! let's get some wood!"]
    else if k == 18 then ["yeah " + u + "! crafting is so much fun. currently working on my tools"]
    else if k == 19 then ["jumping for you " + u + "! :)"]
    else ["dancing time! this is fun " + u + "!"]
  }

  function MentionReplies(u: string): (r: seq<string>)
    ensures 0 < |r| && forall t | t in r :: t != ""
  {
    ["yes " + u + "? did you need something?", "hey " + u + "! you called?",
     "what's up " + u + "? how can i help?", "yes? i'm here " + u + "!"]
  }

  function GenericReplies(u: string): (r: seq<string>)
    ensures 0 < |r| && forall t | t in r :: t != ""
  {
    ["interesting " + u + "! tell me more", "i see what you mean " + u,
     "that sounds cool " + u + "!", "nice one " + u + "!",
     "what do you think about that " + u + "?", "i agree with you " + u,
     "that's a good point " + u + "!", "yeah " + u + ", exactly!",
     "cool " + u + "! want to team up?", "awesome " + u + "! how can i help?"]
  }

  const MiningMessages: seq<string> := [
    "found some good stone here!", "these blocks are perfect for building",
    "mining is relaxing, but exploring is more fun!", "gathering resources for future projects"]

  const IdleMessages: seq<string> := [
    "hey everyone! how is everyone doing today?", "this server has such a great community!",
    "anyone want to go mining together?", "just finished gathering some wood, feels productive!",
    "minecraft never gets old, love this game!", "working on my crafting skills, still learning!",
    "anyone found any cool caves or structures lately?", "thanks for making this such a fun server to play on!",
    "what are you all building today?", "exploring is so much fun, found some interesting spots!",
    "love meeting new players here!", "anyone need help with anything? i am happy to assist!"]

  // ---------------------------------------------------------------------------
  // Answering players

  /** What `handlePlayerChat` schedules. */
  datatype ChatPlan = NoReply | MentionReply | KeywordReply(index: nat) | GenericReply

  /**
   * `handlePlayerChat`: own messages and messages inside the 1.5 s cooldown
   * get nothing; a mention of the bot's name gets a mention reply and nothing
   * else; otherwise the first keyword the message contains gets its reply on
   * a 90% roll, and a message with no keyword a generic reply on a 70% roll.
   */
  function PlanPlayerChat(sender: string, message: string, botName: string, lastChatTime: int, now: int,
                          keywordRoll: real, genericRoll: real): (p: ChatPlan)
    ensures p.KeywordReply? ==> p.index < |Keywords|
  {
    if sender == botName || now - lastChatTime < ReplyCooldown then NoReply
    else
      var lower := ToLower(message);
      if Contains(lower, ToLower(botName)) then MentionReply
      else match FirstMatch(Keywords, lower)
        case Some(k) => if keywordRoll < 0.9 then KeywordReply(k) else NoReply
        case None => if genericRoll < 0.7 then GenericReply else NoReply
  }

  /** Precedence of the chat rules, stated rule by rule. */
  lemma PlayerChatPrecedence(sender: string, message: string, botName: string, lastChatTime: int, now: int,
                             keywordRoll: real, genericRoll: real)
    ensures var p := PlanPlayerChat(sender, message, botName, lastChatTime, now, keywordRoll, genericRoll);
      && (sender == botName || now - lastChatTime < ReplyCooldown ==> p == NoReply)
      && (p.MentionReply? <==>
            sender != botName && now - lastChatTime >= ReplyCooldown && Contains(ToLower(message), ToLower(botName)))
      && (p.KeywordReply? ==>
            && !Contains(ToLower(message), ToLower(botName))
            && FirstMatch(Keywords, ToLower(message)) == Some(p.index) && keywordRoll < 0.9)
      && (p.GenericReply? ==>
            && !Contains(ToLower(message), ToLower(botName))
            && FirstMatch(Keywords, ToLower(message)).None? && genericRoll < 0.7)
  {
  }

  /** "follow me to this" contains "hi" (in "this"), which precedes "follow me" in the table. */
  lemma FollowMeToThisMatchesHi()
    ensures FirstMatch(Keywords, "follow me to this") == Some(1)
    ensures KeywordTask(1).None? && KeywordTarget(1) == KeepTarget
  {
    var m := "follow me to this";
    assert Keywords[0] == "hello" && Keywords[1] == "hi";
    assert OccursAt(m, "hi", 14);
    assert Contains(m, Keywords[1]);
    NoOccurrenceBefore(m, "hello", 14);
    assert !Contains(m, Keywords[0]);
    FirstMatchUnique(Keywords, m, Some(1));
  }

  // ---------------------------------------------------------------------------
  // The agent

  datatype CraftOutcome = Crafted | NoRecipe | Threw

  /** What `followTargetPlayer` does with the movement controls. */
  datatype FollowAction = Hold | Walk | Sprint

  class Agent {
    /** `botState` */
    var currentTask: Task
    var hasWood: bool
    var hasCraftingTable: bool
    var hasPickaxe: bool
    var isMoving: bool
    var lastChatTime: int
    var lastMined: int
    var targetPlayer: Option<string>
    /** Messages passed to `bot.chat`, oldest first. */
    var chatLog: seq<string>
    /** Timers armed by `intelligentMovement` that will clear `isMoving`. */
    var pendingMoveResets: nat
    /**
     * Set when an exception escapes a timer callback: the uncaught-exception
     * handler of utils/logger.js logs it and ends the process with code 1.
     */
    var exitCode: Option<int>

    /**
     * The bot follows only while a target is recorded, and a movement is in
     * progress exactly while its reset timer is armed.
     */
    ghost predicate Valid()
      reads this
    {
      && (currentTask == FollowPlayer ==> targetPlayer.Some?)
      && pendingMoveResets == (if isMoving then 1 else 0)
    }

    constructor ()
      ensures Valid()
      ensures currentTask == Exploring && !hasWood && !hasCraftingTable && !hasPickaxe && !isMoving
      ensures lastChatTime == 0 && lastMined == 0 && targetPlayer.None? && chatLog == [] && pendingMoveResets == 0
      ensures exitCode.None?
    {
      currentTask := Exploring;
      hasWood, hasCraftingTable, hasPickaxe, isMoving := false, false, false, false;
      lastChatTime, lastMined, targetPlayer := 0, 0, None;
      chatLog, pendingMoveResets := [], 0;
      exitCode := None;
    }

    /**
     * `sendIntelligentChat(message)`: `online` is false when there is no
     * client, `chatOk` false when `bot.chat` throws.
     */
    method SendIntelligentChat(message: string, now: int, online: bool, chatOk: bool) returns (sent: bool)
      modifies this`lastChatTime, this`chatLog
      ensures sent <==> online && message != "" && now - old(lastChatTime) >= ChatSpacing && chatOk
      ensures lastChatTime == if sent then now else old(lastChatTime)
      ensures chatLog == old(chatLog) + if sent then [message] else []
    {
      if !online || message == "" {
        return false;
      }
      if now - lastChatTime < ChatSpacing {
        return false;
      }
      sent := chatOk;
      if sent {
        chatLog := chatLog + [message];
        lastChatTime := now;
      }
    }

    /** `updateBotState()`: flags from the inventory's item names, then the priority chain. */
    method UpdateBotState(items: seq<string>)
      requires Valid()
      modifies this`hasWood, this`hasCraftingTable, this`hasPickaxe, this`currentTask
      ensures Valid()
      ensures hasWood == HasWood(items) && hasCraftingTable == HasCraftingTable(items) && hasPickaxe == HasPickaxe(items)
      ensures currentTask == SelectTask(old(currentTask), hasWood, hasCraftingTable, hasPickaxe)
    {
      hasWood := HasWood(items);
      hasCraftingTable := HasCraftingTable(items);
      hasPickaxe := HasPickaxe(items);
      if !hasWood && Task.GatherWood !in Goals {
        // `goals` always lists gather_wood
        assert false;
      } else if hasWood && !hasCraftingTable {
        currentTask := CraftTable;
      } else if hasCraftingTable && !hasPickaxe {
        currentTask := Task.CraftPickaxe;
      } else if hasPickaxe {
        currentTask := Task.MineStone;
      }
    }

    /**
     * `aiDecisionLoop()`: nothing without a client entity; otherwise the state
     * is refreshed and the handler of the resulting task is the one to run.
     */
    method AiDecisionLoop(online: bool, items: seq<string>) returns (handler: Option<Task>)
      requires Valid()
      modifies this`hasWood, this`hasCraftingTable, this`hasPickaxe, this`currentTask
      ensures Valid()
      ensures !online ==> handler.None? && unchanged(this)
      ensures online ==>
        && hasWood == HasWood(items) && hasCraftingTable == HasCraftingTable(items) && hasPickaxe == HasPickaxe(items)
        && currentTask == SelectTask(old(currentTask), hasWood, hasCraftingTable, hasPickaxe)
        && handler == Some(currentTask)
    {
      if !online {
        return None;
      }
      UpdateBotState(items);
      handler := Some(currentTask);
    }

    /** The `health` handler: below 10 the bot goes looking for food. */
    method OnHealth(health: Option<real>)
      requires Valid()
      modifies this`currentTask
      ensures Valid()
      ensures currentTask == if health.Some? && health.value < 10.0 then Task.SeekFood else old(currentTask)
    {
      if health.Some? && health.value < 10.0 {
        currentTask := Task.SeekFood;
      }
    }

    /** `intelligentMovement()`: one movement at a time; which pattern is played is not modelled. */
    method IntelligentMovement()
      requires Valid()
      modifies this`isMoving, this`pendingMoveResets
      ensures Valid() && isMoving
      ensures pendingMoveResets == 1
      ensures old(isMoving) ==> pendingMoveResets == old(pendingMoveResets)
    {
      if isMoving {
        return;
      }
      isMoving := true;
      pendingMoveResets := pendingMoveResets + 1;
    }

    /** The timer armed by `intelligentMovement` fires. */
    method FireMoveReset()
      requires Valid() && pendingMoveResets > 0
      modifies this`isMoving, this`pendingMoveResets
      ensures Valid() && !isMoving && pendingMoveResets == 0
    {
      pendingMoveResets := pendingMoveResets - 1;
      isMoving := false;
    }

    /** `exploreWorld()`: a 40% chance to move, a 10% chance to switch to gathering wood or mining. */
    method ExploreWorld(moveRoll: real, taskRoll: real, pickRoll: real)
      requires Valid() && 0.0 <= pickRoll < 1.0
      modifies this`isMoving, this`pendingMoveResets, this`currentTask
      ensures Valid()
      ensures moveRoll < 0.4 ==> isMoving
      ensures moveRoll >= 0.4 ==> isMoving == old(isMoving) && pendingMoveResets == old(pendingMoveResets)
      ensures taskRoll < 0.1 ==> currentTask == [Task.GatherWood, Task.MineStone][PickIndex(pickRoll, 2)]
      ensures taskRoll >= 0.1 ==> currentTask == old(currentTask)
    {
      if moveRoll < 0.4 {
        IntelligentMovement();
      }
      if taskRoll < 0.1 {
        currentTask := [Task.GatherWood, Task.MineStone][PickIndex(pickRoll, 2)];
      }
    }

    /**
     * Whether `sendIntelligentChat` delivers a non-empty text: there is a
     * client, 3000 ms have passed since `last`, and `bot.chat` does not throw.
     */
    static predicate Delivered(online: bool, now: int, last: int, chatOk: bool) {
      online && now - last >= ChatSpacing && chatOk
    }

    /**
     * `gatherWood()`: with a tree in range and a successful dig the bot says
     * so; without a tree it moves. The 70% follow-up dig is not modelled.
     */
    method GatherWood(treeFound: bool, digOk: bool, now: int, online: bool, chatOk: bool)
      requires Valid()
      modifies this`isMoving, this`pendingMoveResets, this`lastChatTime, this`chatLog
      ensures Valid()
      ensures !treeFound ==> isMoving && unchanged(this`lastChatTime, this`chatLog)
      ensures treeFound ==> isMoving == old(isMoving)
      ensures var said := treeFound && digOk && Delivered(online, now, old(lastChatTime), chatOk);
        && chatLog == old(chatLog) + (if said then ["getting some wood for crafting"] else [])
        && lastChatTime == if said then now else old(lastChatTime)
    {
      if treeFound {
        if digOk {
          var sent := SendIntelligentChat("getting some wood for crafting", now, online, chatOk);
        }
      } else {
        IntelligentMovement();
      }
    }

    /**
     * `craftCraftingTable()`: only with wood and without a table. Success marks
     * the table and moves on to the pickaxe; a thrown error sends the bot back
     * to gathering wood; no recipe changes nothing.
     */
    method CraftCraftingTable(outcome: CraftOutcome, now: int, online: bool, chatOk: bool)
      requires Valid()
      modifies this`hasCraftingTable, this`currentTask, this`lastChatTime, this`chatLog
      ensures Valid()
      ensures !old(hasWood) || old(hasCraftingTable) || outcome == NoRecipe ==>
        unchanged(this`hasCraftingTable, this`currentTask, this`lastChatTime, this`chatLog)
      ensures old(hasWood) && !old(hasCraftingTable) && outcome == Crafted ==>
        hasCraftingTable && currentTask == Task.CraftPickaxe
      ensures var said := old(hasWood) && !old(hasCraftingTable) && outcome == Crafted
                          && Delivered(online, now, old(lastChatTime), chatOk);
        && chatLog == old(chatLog) + (if said then ["awesome! just made a crafting table. time to craft some tools!"] else [])
        && lastChatTime == if said then now else old(lastChatTime)
      ensures old(hasWood) && !old(hasCraftingTable) && outcome == Threw ==>
        currentTask == Task.GatherWood && unchanged(this`hasCraftingTable, this`lastChatTime, this`chatLog)
    {
      if !hasWood || hasCraftingTable {
        return;
      }
      match outcome {
        case Crafted =>
          var sent := SendIntelligentChat("awesome! just made a crafting table. time to craft some tools!", now, online, chatOk);
          hasCraftingTable := true;
          currentTask := Task.CraftPickaxe;
        case NoRecipe =>
        case Threw =>
          currentTask := Task.GatherWood;
      }
    }

    /** `craftPickaxe()`: only with a table; success marks the pickaxe. */
    method CraftPickaxe(outcome: CraftOutcome, now: int, online: bool, chatOk: bool)
      requires Valid()
      modifies this`hasPickaxe, this`lastChatTime, this`chatLog
      ensures Valid()
      ensures old(hasCraftingTable) && outcome == Crafted ==> hasPickaxe
      ensures var said := old(hasCraftingTable) && outcome == Crafted && Delivered(online, now, old(lastChatTime), chatOk);
        && chatLog == old(chatLog) + (if said then ["made a pickaxe! time to mine some stone"] else [])
        && lastChatTime == if said then now else old(lastChatTime)
      ensures !(old(hasCraftingTable) && outcome == Crafted) ==> unchanged(this`hasPickaxe, this`lastChatTime, this`chatLog)
    {
      if !hasCraftingTable {
        return;
      }
      if outcome == Crafted {
        var sent := SendIntelligentChat("made a pickaxe! time to mine some stone", now, online, chatOk);
        hasPickaxe := true;
      }
    }

    /**
     * `mineStone()` up to the dig: inside the 10 s cooldown (which only applies
     * once something was mined, `lastMined` being 0 before) the bot just moves;
     * below y = 50 it returns to exploring; otherwise it digs when a stone is
     * in range and the 40% roll succeeds, and moves when not.
     */
    method MineStone(now: int, y: real, stonesFound: bool, mineRoll: real) returns (digStarted: bool)
      requires Valid()
      modifies this`isMoving, this`pendingMoveResets, this`currentTask
      ensures Valid()
      ensures digStarted <==>
        !(old(lastMined) != 0 && now - old(lastMined) < MiningCooldown) && y >= 50.0 && stonesFound && mineRoll < 0.4
      ensures old(lastMined) != 0 && now - old(lastMined) < MiningCooldown ==> isMoving && currentTask == old(currentTask)
      ensures !(old(lastMined) != 0 && now - old(lastMined) < MiningCooldown) && y < 50.0 ==>
        currentTask == Exploring && isMoving == old(isMoving) && pendingMoveResets == old(pendingMoveResets)
      ensures y >= 50.0 ==> currentTask == old(currentTask)
      ensures !(old(lastMined) != 0 && now - old(lastMined) < MiningCooldown) && y >= 50.0 && !digStarted ==> isMoving
      ensures digStarted ==> isMoving == old(isMoving) && pendingMoveResets == old(pendingMoveResets)
    {
      if lastMined != 0 && now - lastMined < MiningCooldown {
        IntelligentMovement();
        return false;
      }
      if y < 50.0 {
        currentTask := Exploring;
        return false;
      }
      if stonesFound && mineRoll < 0.4 {
        return true;
      }
      IntelligentMovement();
      return false;
    }

    /** The rest of `mineStone()` after a successful dig at time `now`. */
    method CompleteMining(now: int, chatRoll: real, messageRoll: real, switchRoll: real, online: bool, chatOk: bool)
      requires Valid() && 0.0 <= messageRoll < 1.0
      modifies this`lastMined, this`currentTask, this`lastChatTime, this`chatLog
      ensures Valid() && lastMined == now
      ensures currentTask == if switchRoll < 0.6 then Exploring else old(currentTask)
      ensures var said := chatRoll < 0.1 && Delivered(online, now, old(lastChatTime), chatOk);
        && chatLog == old(chatLog) + (if said then [Pick(MiningMessages, messageRoll)] else [])
        && lastChatTime == if said then now else old(lastChatTime)
    {
      lastMined := now;
      if chatRoll < 0.1 {
        var sent := SendIntelligentChat(Pick(MiningMessages, messageRoll), now, online, chatOk);
      }
      if switchRoll < 0.6 {
        currentTask := Exploring;
      }
    }

    /**
     * `followTargetPlayer()`, given the distance to the target's entity (`None`
     * when it is not found). Without a target the bot explores; a lost target
     * is cleared; beyond 5 blocks the bot walks, beyond 8 it also sprints.
     * The "too far" branch sits under `distance <= 5` and cannot run.
     */
    method FollowTargetPlayer(distance: Option<real>) returns (action: FollowAction)
      requires Valid()
      modifies this`currentTask, this`targetPlayer
      ensures Valid()
      ensures old(targetPlayer).None? || old(targetPlayer).value == "" ==>
        currentTask == Exploring && targetPlayer == old(targetPlayer) && action == Hold
      ensures old(targetPlayer).Some? && old(targetPlayer).value != "" && distance.None? ==>
        currentTask == Exploring && targetPlayer.None? && action == Hold
      ensures old(targetPlayer).Some? && old(targetPlayer).value != "" && distance.Some? ==>
        && currentTask == old(currentTask) && targetPlayer == old(targetPlayer)
        && action == (if distance.value > 8.0 then Sprint else if distance.value > 5.0 then Walk else Hold)
    {
      if targetPlayer.None? || targetPlayer.value == "" {
        currentTask := Exploring;
        return Hold;
      }
      if distance.Some? {
        var d := distance.value;
        if d > 5.0 {
          action := if d > 8.0 then Sprint else Walk;
        } else if d > 25.0 {
          assert false;
        } else {
          action := Hold;
        }
      } else {
        currentTask := Exploring;
        targetPlayer := None;
        action := Hold;
      }
    }

    /**
     * `seekFood()`: with food the bot eats (once equipping succeeds) and goes
     * back to exploring; without food it moves and sometimes says it is hungry.
     */
    method SeekFood(items: seq<string>, equipOk: bool, chatRoll: real, now: int, online: bool, chatOk: bool)
      requires Valid()
      modifies this`currentTask, this`isMoving, this`pendingMoveResets, this`lastChatTime, this`chatLog
      ensures Valid()
      ensures HasFood(items) && equipOk ==>
        currentTask == Exploring && isMoving == old(isMoving) && pendingMoveResets == old(pendingMoveResets)
      ensures HasFood(items) && !equipOk ==> unchanged(this)
      ensures !HasFood(items) ==> isMoving && currentTask == old(currentTask)
      ensures var eats := HasFood(items) && equipOk && Delivered(online, now, old(lastChatTime), chatOk);
              var hungry := !HasFood(items) && chatRoll < 0.2 && Delivered(online, now, old(lastChatTime), chatOk);
        && chatLog == old(chatLog) +
             (if eats then ["eating some food to restore health"]
              else if hungry then ["looking for food, getting a bit hungry"] else [])
        && lastChatTime == if eats || hungry then now else old(lastChatTime)
    {
      if HasFood(items) {
        if equipOk {
          var sent := SendIntelligentChat("eating some food to restore health", now, online, chatOk);
          currentTask := Exploring;
        }
      } else {
        IntelligentMovement();
        if chatRoll < 0.2 {
          var sent := SendIntelligentChat("looking for food, getting a bit hungry", now, online, chatOk);
        }
      }
    }

    /** `randomChatting()`: at most once per 15 s, on a 40% roll. */
    method RandomChatting(now: int, online: bool, roll: real, pickRoll: real, chatOk: bool) returns (sent: bool)
      requires 0.0 <= pickRoll < 1.0
      modifies this`lastChatTime, this`chatLog
      ensures sent ==> online && now - old(lastChatTime) >= IdleChatSpacing && roll < 0.4
      ensures sent <==> online && now - old(lastChatTime) >= IdleChatSpacing && roll < 0.4 && chatOk
      ensures chatLog == old(chatLog) + if sent then [Pick(IdleMessages, pickRoll)] else []
      ensures lastChatTime == if sent then now else old(lastChatTime)
    {
      if !online || now - lastChatTime < IdleChatSpacing {
        return false;
      }
      sent := false;
      if roll < 0.4 {
        sent := SendIntelligentChat(Pick(IdleMessages, pickRoll), now, online, chatOk);
      }
    }

    /** `handlePlayerChat(sender, message)`: decides what to schedule; it changes no state. */
    method HandlePlayerChat(sender: string, message: string, botName: string, now: int,
                            keywordRoll: real, genericRoll: real) returns (plan: ChatPlan)
      ensures plan == PlanPlayerChat(sender, message, botName, lastChatTime, now, keywordRoll, genericRoll)
    {
      if sender == botName || now - lastChatTime < ReplyCooldown {
        return NoReply;
      }
      var lower := ToLower(message);
      if Contains(lower, ToLower(botName)) {
        return MentionReply;
      }
      var found := ScanKeywords(Keywords, lower);
      if found.Some? {
        plan := if keywordRoll < 0.9 then KeywordReply(found.value) else NoReply;
      } else {
        plan := if genericRoll < 0.7 then GenericReply else NoReply;
      }
    }

    /** The timer of a mention reply fires. */
    method FireMentionReply(sender: string, roll: real, now: int, online: bool, chatOk: bool)
      requires 0.0 <= roll < 1.0
      modifies this`lastChatTime, this`chatLog
      ensures var sent := online && now - old(lastChatTime) >= ChatSpacing && chatOk;
        && chatLog == old(chatLog) + (if sent then [Pick(MentionReplies(sender), roll)] else [])
        && lastChatTime == if sent then now else old(lastChatTime)
    {
      var sent := SendIntelligentChat(Pick(MentionReplies(sender), roll), now, online, chatOk);
    }

    /**
     * The timer of keyword `k`'s reply fires: the handler applies its task and
     * target changes and returns the text, which goes through the spam check,
     * and the chat time is set to `now` whether or not the text was sent.
     * Without a client the handlers of hi, jump and dance throw first; the
     * exception escapes the timer callback and ends the process with code 1.
     */
    method FireKeywordReply(k: nat, sender: string, botName: string, roll: real, now: int, online: bool, chatOk: bool)
      requires Valid() && k < |Keywords| && 0.0 <= roll < 1.0
      modifies this`currentTask, this`targetPlayer, this`lastChatTime, this`chatLog, this`exitCode
      ensures Valid()
      ensures !online && KeywordNeedsClient(k) ==>
        && exitCode == Some(1)
        && unchanged(this`currentTask, this`targetPlayer, this`lastChatTime, this`chatLog)
      ensures online || !KeywordNeedsClient(k) ==>
        && exitCode == old(exitCode)
        && currentTask == (if KeywordTask(k).Some? then KeywordTask(k).value else old(currentTask))
        && targetPlayer == (match KeywordTarget(k)
                            case KeepTarget => old(targetPlayer)
                            case SetTarget => Some(sender)
                            case ClearTarget => None)
        && lastChatTime == now
        && chatLog == old(chatLog) +
             (if online && now - old(lastChatTime) >= ChatSpacing && chatOk
              then [Pick(KeywordReplies(k, sender, botName, ActivityResponse(currentTask, targetPlayer)), roll)]
              else [])
    {
      if !online && KeywordNeedsClient(k) {
        exitCode := Some(1);
        return;
      }
      if KeywordTask(k).Some? {
        currentTask := KeywordTask(k).value;
      }
      match KeywordTarget(k) {
        case KeepTarget =>
        case SetTarget => targetPlayer := Some(sender);
        case ClearTarget => targetPlayer := None;
      }
      var text := Pick(KeywordReplies(k, sender, botName, ActivityResponse(currentTask, targetPlayer)), roll);
      var sent := SendIntelligentChat(text, now, online, chatOk);
      lastChatTime := now;
    }

    /** The timer of a generic reply fires; the chat time is set to `now` either way. */
    method FireGenericReply(sender: string, roll: real, now: int, online: bool, chatOk: bool)
      requires 0.0 <= roll < 1.0
      modifies this`lastChatTime, this`chatLog
      ensures lastChatTime == now
      ensures chatLog == old(chatLog) +
        (if online && now - old(lastChatTime) >= ChatSpacing && chatOk then [Pick(GenericReplies(sender), roll)] else [])
    {
      var sent := SendIntelligentChat(Pick(GenericReplies(sender), roll), now, online, chatOk);
      lastChatTime := now;
    }
  }

  /**
   * "follow me" followed by "stop" from the same player: the first reply makes
   * the bot follow the sender, the second sends it back to exploring with no
   * target, whatever the dice say about the reply texts.
   */
  method FollowThenStop(a: Agent, sender: string, botName: string, r1: real, r2: real, t1: int, t2: int)
    requires a.Valid() && 0.0 <= r1 < 1.0 && 0.0 <= r2 < 1.0
    modifies a
    ensures a.Valid() && a.currentTask == Exploring && a.targetPlayer.None? && a.lastChatTime == t2
  {
    a.FireKeywordReply(6, sender, botName, r1, t1, true, true);
    assert a.currentTask == FollowPlayer && a.targetPlayer == Some(sender);
    a.FireKeywordReply(8, sender, botName, r2, t2, true, true);
  }
}
