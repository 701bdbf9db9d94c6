# Minecraft auto-bot: a verified model of its decision logic

The repository runs unattended Minecraft players on top of the `mineflayer`
client. Around the client calls sit a few pieces of sequential logic, and this
project models those pieces in Dafny and proves what they promise:

- **Reconnection supervisors.** Six entry scripts keep an attempt counter and
  compute the delay before reconnecting. ai-bot.js, simple-bot.js, start.js and
  index.js use a linear, capped delay and give up after ten attempts.
  bot-with-web.js uses a two-tier delay and gives up after fifty.
  bot-with-database.js uses a three-tier delay, halves the counter instead of
  giving up, and has a guard that swallows duplicate disconnect events.
- **Identity rotation.** The web and database variants rotate the username
  through a pool of twenty names with a random numeric suffix. They classify
  kick reasons with a case-insensitive ban-keyword test.
- **Command-line settings.** start.js and index.js take settings from the
  argument, then the environment, then the default, and start.js validates them.
- **The AI player of ai-bot.js.** Inventory flags drive a task priority chain.
  A first-match keyword table answers chat and sets tasks. A distance rule
  drives following, and mining is throttled by a cooldown.
- **Chat responders** of behaviors/chat.js and simple-bot.js.
- **Grid A\* search** of utils/pathfinding.js.
- **The block-breaking and movement behaviours** of behaviors/.

The world outside the program is passed in as parameters:

- the current time is `now`;
- each `Math.random()` draw is a `roll` in [0, 1);
- block lookup is a function from position to block name;
- distances are given values;
- whether a client call succeeds or throws is a boolean.

Event handlers are methods called one after another. A timer firing is an
explicit `Fire…` method, and pending timers are counted in fields.
`process.exit(code)` sets an `exitCode` field. The supervisors' handlers
require `exitCode.None?`; the AI agent's handlers leave that convention to
their caller.

Modules:

| file | module | models |
|---|---|---|
| wrappers.dfy | Wrappers | `Option` |
| strings.dfy | Strings | `includes`, `toLowerCase`, decimal rendering, `parseInt`, `Math.floor(Math.random() * n)`, first-match keyword scans |
| identity.dfy | Identity | the username pool, rotation, the ban-keyword test |
| backoff.dfy | Backoff | the three reconnect-delay policies |
| linear_supervisor.dfy | LinearSupervisor | reconnection in ai-bot.js, simple-bot.js, start.js, index.js |
| web_bot.dfy | WebBot | bot-with-web.js |
| database_bot.dfy | DatabaseBot | bot-with-database.js |
| launch.dfy | Launch | argument precedence of start.js and index.js, start.js validation |
| ai_bot.dfy | AiBot | ai-bot.js |
| chat_behavior.dfy | Chat | behaviors/chat.js |
| simple_bot.dfy | SimpleBot | simple-bot.js's chat listener |
| pathfinding.dfy | Pathfinding | utils/pathfinding.js |
| block_breaking.dfy | BlockBreaking | behaviors/blockBreaking.js |
| movement.dfy | Movement | behaviors/movement.js |

## Model

| member | source | states |
|---|---|---|
| Strings.ToLowerIdempotent | bot-with-database.js:536-538 | Lower-casing twice equals lower-casing once, and no upper-case ASCII letter remains. |
| Strings.DecimalRoundTrip | bot-with-web.js:212-213 | The suffix's decimal rendering is digits only and reads back as the number it came from. |
| Strings.DecimalInjective | bot-with-web.js:212-213 | Different suffixes render differently. |
| Strings.DigitSuffixSeparates | bot-with-database.js:386-388 | A digit-free prefix followed by a decimal number splits back into that prefix and that number. |
| Strings.ParseIntDecimal | start.js:33 | `parseInt` reads back the decimal rendering of any natural number exactly. |
| Strings.ParseIntIgnoresSuffix | start.js:33 | `parseInt` returns the leading number and ignores whatever follows its last digit. |
| Strings.ParseIntNoDigit | start.js:33 | A string that starts with neither JavaScript white space, sign nor digit parses to NaN. |
| Strings.ParseIntSkipsUnicodeSpace | start.js:33 | Leading no-break spaces and byte order marks are skipped like ASCII white space. |
| Strings.Utf16Length | start.js:47 | `length` counts UTF-16 code units: between one and two per character, and exactly one per character iff none lies outside the Basic Multilingual Plane. |
| Strings.PickIndex | behaviors/chat.js:62-65 | `Math.floor(roll * n)` is a valid index for every draw in [0, 1). |
| Strings.Pick | behaviors/chat.js:62-65 | A random pick is an element of the list. |
| Strings.FirstMatch | behaviors/chat.js:103-113 | The result is the first keyword, in table order, that the message contains; when there is none, no keyword occurs in the message. |
| Strings.FirstMatchUnique | behaviors/chat.js:103-113 | Those three conditions determine the first match uniquely. |
| Strings.ScanKeywords | ai-bot.js:611-623 | The loop with its `break` returns exactly the first match. |
| Identity.NextPoolIndex | bot-with-database.js:385 | The next index stays in [0, 20), differs from the current one, and is one more except at the wrap. |
| Identity.SuffixFromRoll | bot-with-database.js:387 | The random suffix is at most 998. |
| Identity.PoolNamesHaveNoDigits | bot-with-database.js:38-44 | No pool name contains a digit. |
| Identity.PoolNeighboursDiffer | bot-with-database.js:38-44 | Adjacent pool slots hold different names, including at the wrap. |
| Identity.RotatedNameParts | bot-with-database.js:385-388 | Two rotated names are equal iff their pool names and their suffixes are equal. |
| Identity.ConsecutiveRotatedNamesDiffer | bot-with-web.js:209-213 | Two successive rotations never produce the same name, whatever the suffixes. |
| Identity.BanKeywordsReduce | bot-with-database.js:535-538 | "banned" is subsumed by "ban": the test equals one over the five other keywords. |
| Identity.BanTestIgnoresCase | bot-with-database.js:535-538 | The ban test gives the same answer on the lower-cased reason. |
| Identity.BannedKickIsDetected | bot-with-database.js:535-538 | A kick reading "You have been banned: blacklisted" is a ban. |
| Backoff.LinearDelay | ai-bot.js:800 | `min(base * n, max)` is at most the maximum, and equals `base * n` below the cap. |
| Backoff.LinearDelayBounds | start.js:117 | For n >= 1 and base <= max, the delay lies in [base, max]. |
| Backoff.LinearDelayMonotone | index.js:64 | The delay does not decrease as the attempt number grows. |
| Backoff.ConfiguredLinearDelayNeverCapped | config.js:14-16 | With 5000, 60000 and at most 10 attempts, the delay is 5000 * n and the cap is never reached. |
| Backoff.WebDelay | bot-with-web.js:328-335 | 5000 on the first attempt, else `min(120000, 30000 + 15000 n)`, always in [5000, 120000]. |
| Backoff.WebDelayMonotone | bot-with-web.js:328-335 | The two-tier delay does not decrease with n. |
| Backoff.WebDelayCeiling | bot-with-web.js:328-335 | From attempt 6 on, the delay is the 120000 ceiling. |
| Backoff.TieredDelay | bot-with-database.js:572-582 | Always in [5000, 300000]. |
| Backoff.TieredDelayMonotone | bot-with-database.js:572-582 | The three-tier delay does not decrease with n. |
| Backoff.TieredDelayCeiling | bot-with-database.js:572-582 | From attempt 24 on, the delay is the 300000 ceiling. |
| Backoff.TieredDelayTiers | bot-with-database.js:572-582 | 5000 for n <= 3, 30000 for 4..10, `min(300000, 60000 + 10000 n)` above. |
| LinearSupervisor.Supervisor.constructor | ai-bot.js:20-22 | Counter 0, one client, no timers, the configured 10 / 5000 / 60000. |
| LinearSupervisor.Supervisor.OnLogin | start.js:78-81 | The counter restarts at 0. |
| LinearSupervisor.Supervisor.ScheduleReconnect | simple-bot.js:125-148 | At the budget: exit code 1, nothing scheduled. Below it: counter + 1, one timer, delay `min(5000 n, 60000)` within [5000, 60000]. |
| LinearSupervisor.Supervisor.OnTermination | index.js:39-52 | `error`, `end` and `kicked` each schedule a reconnect on their own. |
| LinearSupervisor.Supervisor.FireReconnectTimer | index.js:68-73 | The old client is quit before a new one is created. A failed creation is caught by ai-bot.js and simple-bot.js and ends start.js and index.js with code 1. |
| LinearSupervisor.NoDeduplication | index.js:39-52 | One disconnect raising all three events counts three attempts and schedules three timers. |
| LinearSupervisor.ExhaustBudget | ai-bot.js:793-801 | Without a login, exactly ten reconnects are scheduled, the i-th after 5000 i ms, then the process exits with code 1. |
| WebBot.Supervisor.constructor | bot-with-web.js:26-48 | Start-up state: counter 0, index 0, base name, status "Not connected". |
| WebBot.Supervisor.GetNextUsername | bot-with-web.js:206-218 | Counter 0 gives the base name with the index untouched. Otherwise the index advances modulo 20 and the name is pool name plus suffix. |
| WebBot.Supervisor.UpdateBotStatus | bot-with-web.js:199-203 | The status records the connection flag, the current username and the time. |
| WebBot.Supervisor.OnLogin | bot-with-web.js:236-240 | The counter restarts at 0 and the status says running. |
| WebBot.Supervisor.ScheduleReconnect | bot-with-web.js:319-348 | At 50 attempts: exit code 1. Otherwise counter + 1 and the two-tier delay in [5000, 120000]. |
| WebBot.Supervisor.OnTermination | bot-with-web.js:287-314 | Ban detection holds iff the event is a kick whose reason passes the ban test. The state changes as for any termination. |
| WebBot.Supervisor.FireReconnectTimer | bot-with-web.js:337-347 | The old client is quit and dropped. The next name is chosen, then a client is created or the failure is logged. |
| WebBot.Supervisor.SendIntelligentChat | bot-with-web.js:351-364 | Sent iff there is a client, the message is non-empty, 3000 ms have passed and `bot.chat` succeeds. Only then does the clock move. |
| WebBot.ConsecutiveReconnectsRotate | bot-with-web.js:206-218 | Two reconnects in a row use rotated names that differ from each other. |
| DatabaseBot.Supervisor.constructor | bot-with-database.js:54-78 | Start-up state; the base name is logged when a database is configured. |
| DatabaseBot.Supervisor.LogUsernameUsage | bot-with-database.js:155-166 | With a database, one row is appended; without one, nothing. |
| DatabaseBot.Supervisor.GetNextUsername | bot-with-database.js:381-397 | Same rotation as the web variant, and every issued name is logged with `wasBanned = false`. |
| DatabaseBot.Supervisor.UpdateBotStatus | bot-with-database.js:371-378 | The status records the connection flag, the current username and the time. |
| DatabaseBot.Supervisor.OnLogin | bot-with-database.js:421-445 | Counter 0, guard cleared, session message count 0, status running. |
| DatabaseBot.Supervisor.ScheduleReconnect | bot-with-database.js:556-582 | Guard set: nothing changes. Otherwise 50 becomes 25, then + 1, so the counter lies in [1, 50], and the delay is the tiered one. |
| DatabaseBot.Supervisor.OnTermination | bot-with-database.js:518-551 | A ban kick logs the current name with `wasBanned = true` and the reason verbatim. Every termination marks the status stopped and calls the guarded scheduler. |
| DatabaseBot.Supervisor.FireReconnectTimer | bot-with-database.js:584-605 | The guard is cleared before the new client is created; a failure nulls the bot and arms a 10 s retry. |
| DatabaseBot.Supervisor.FireRetryTimer | bot-with-database.js:600-604 | The retry reschedules only when no reconnect is in progress. |
| DatabaseBot.Supervisor.SendIntelligentChat | bot-with-database.js:611-632 | Sent iff client, non-empty, 3000 ms spacing and success. A sent message bumps both message counters. |
| DatabaseBot.ErrorThenEndCountsOnce | bot-with-database.js:557-561 | `error` then `end` for one failure increments the counter once and arms one timer. |
| DatabaseBot.ReconnectForever | bot-with-database.js:556-605 | Creations that throw, each followed by the 10 s retry, schedule reconnects for ever; the counter after k schedules is `AttemptsAfter(a, k)` and each delay is its tiered delay. |
| DatabaseBot.AttemptCycle | bot-with-database.js:565-570 | From a fresh start the counter runs 1..50, then cycles 26..50 for ever, never leaving 1..50. |
| DatabaseBot.ThreeFailedReconnects | bot-with-database.js:381-397 | The base name is logged first, then three rotated names from slots 1, 2, 3, each differing from the one before. |
| Launch.Arg | start.js:32-34 | `args[i]` is defined exactly for indices inside the argument list. |
| Launch.FirstTruthy | start.js:32 | `a \|\| b \|\| fallback` takes the first non-empty defined string. |
| Launch.ParseOptional | start.js:33 | `parseInt(undefined)` is NaN, otherwise `parseInt` of the string. |
| Launch.FirstTruthyNumber | start.js:33 | `a \|\| b \|\| fallback` skips NaN and 0. |
| Launch.ResolvedSettingsAreTruthy | start.js:37-45 | Because the defaults are truthy, the host is never empty and the port never 0 or NaN: two of the validation checks cannot fail. |
| Launch.SettingsPrecedence | index.js:8-10 | Each setting comes from the argument, else the environment, else the config default. |
| Launch.TrailingGarbageIsIgnored | start.js:33 | A port argument "8080abc" selects port 8080. |
| Launch.StartOutcome | start.js:28-50 | Help exactly when `--help` or `-h` is present. A connection uses the resolved settings. The username length is counted in UTF-16 code units. |
| Launch.StartConnectsIffValid | start.js:37-50 | It connects iff no help flag, port in 1..65535 and a username of 3..16 UTF-16 code units; a missing host is never reported. |
| Launch.AstralUsernameRejected | start.js:47-50 | A username of nine emoji is nine characters but eighteen code units, and is rejected. |
| Launch.StartDefaults | config.js:2-11 | With no input the bot connects to localhost:25565 as AutoBot. |
| Launch.NumericPortArgument | start.js:33 | A numeric port argument 0 falls through to the default, and any other number is used as given. |
| Launch.StartRejectsLargePort | start.js:41-44 | A numeric port argument connects iff it is at most 65535. |
| AiBot.SelectTaskPriority | ai-bot.js:197-206 | Craft table, then craft pickaxe, then mine, else keep the task. gather_wood is never chosen because `goals` lists it. |
| AiBot.SelectTaskIdempotent | ai-bot.js:197-206 | Re-running the chain on the same flags changes nothing. |
| AiBot.WoodenPickaxeCountsAsWood | ai-bot.js:190-195 | A wooden pickaxe counts as wood and as a pickaxe, so without a table the bot crafts a table. |
| AiBot.ActivityResponse | ai-bot.js:646-657 | The activity text is never empty. |
| AiBot.ActivityDefaultOnlyForSeekFood | ai-bot.js:646-657 | Only seek_food gets the default text. |
| AiBot.KeywordReplies | ai-bot.js:498-594 | Every keyword has at least one reply. |
| AiBot.PlanPlayerChat | ai-bot.js:481-644 | A keyword reply names an index of the table. |
| AiBot.PlayerChatPrecedence | ai-bot.js:481-644 | Own messages and the 1500 ms cooldown give nothing. A mention gets only a mention reply. Otherwise the first keyword on a 90% roll, and without a keyword a generic reply on a 70% roll. |
| AiBot.FollowMeToThisMatchesHi | ai-bot.js:498-517 | "follow me to this" matches "hi" (inside "this") and does not change the task. |
| AiBot.Agent.constructor | ai-bot.js:25-37 | The initial `botState`: exploring, no flags, no target. |
| AiBot.Agent.SendIntelligentChat | ai-bot.js:683-696 | Sent iff client, non-empty, 3000 ms spacing and success. Only then do the clock and the chat log change. |
| AiBot.Agent.UpdateBotState | ai-bot.js:186-207 | The flags are the inventory predicates and the task is the chain's result. |
| AiBot.Agent.AiDecisionLoop | ai-bot.js:154-184 | Without a client nothing changes. Otherwise the state is refreshed and the handler run is the one for the new task. |
| AiBot.Agent.OnHealth | ai-bot.js:108-113 | Health below 10 switches to seek_food; otherwise the task is kept. |
| AiBot.Agent.IntelligentMovement | ai-bot.js:391-457 | At most one movement at a time, each with one pending reset. |
| AiBot.Agent.FireMoveReset | ai-bot.js:454-456 | The reset ends the movement. |
| AiBot.Agent.ExploreWorld | ai-bot.js:379-389 | Moves on a 40% roll. Switches to gather_wood or mine_stone on a 10% roll, else keeps the task. |
| AiBot.Agent.GatherWood | ai-bot.js:209-248 | No tree: move, no chat. When a tree exists and its dig succeeds, "getting some wood for crafting" is appended to the chat log and stamps the time exactly when the chat is delivered (client present, 3000 ms spacing, chat not throwing); otherwise log and time are unchanged. |
| AiBot.Agent.CraftCraftingTable | ai-bot.js:250-282 | Only with wood and no table. Success announces the table (exactly when delivered), then gives a table and the craft_pickaxe task; an error gives gather_wood; no recipe changes nothing. |
| AiBot.Agent.CraftPickaxe | ai-bot.js:284-308 | Only with a table; success announces the pickaxe (exactly when delivered) and gives a pickaxe, otherwise nothing changes. |
| AiBot.Agent.MineStone | ai-bot.js:310-377 | Within 10 s of the last mining (when there was one) the bot only moves. Below y = 50 the task becomes exploring and movement is untouched. A dig happens iff a stone is near and the 40% roll succeeds, leaving movement as it was; otherwise the bot moves. |
| AiBot.Agent.CompleteMining | ai-bot.js:350-367 | The mining time is recorded; on a chat roll below 0.1 the chosen mining message is appended exactly when delivered; a 60% roll returns the bot to exploring. |
| AiBot.Agent.FollowTargetPlayer | ai-bot.js:698-737 | No target: explore. Lost target: clear it and explore. Beyond 5 walk, beyond 8 sprint. The "too far" branch is unreachable. |
| AiBot.Agent.SeekFood | ai-bot.js:739-767 | With food and a successful equip, "eating some food to restore health" is appended exactly when delivered, the task returns to exploring, and movement is untouched. Without food, move, keep the task, and on a roll below 0.2 append "looking for food, getting a bit hungry" exactly when delivered. |
| AiBot.Agent.RandomChatting | ai-bot.js:659-681 | At most once per 15 s, on a 40% roll, an idle line. |
| AiBot.Agent.HandlePlayerChat | ai-bot.js:481-644 | The keyword loop plans exactly what `PlanPlayerChat` specifies and changes nothing. |
| AiBot.Agent.FireMentionReply | ai-bot.js:597-608 | A mention text is sent, and the chat time moves, exactly when there is a client, 3000 ms have passed and `bot.chat` succeeds. |
| AiBot.Agent.FireKeywordReply | ai-bot.js:611-623 | The handler's task and target changes happen even if the reply text is then dropped; the reply is logged exactly when there is a client, 3000 ms have passed and `bot.chat` succeeds, and the chat time is set regardless. Without a client the hi/jump/dance handlers throw, nothing else changes and the process exits with code 1. |
| AiBot.Agent.FireGenericReply | ai-bot.js:625-643 | A generic reply is logged exactly when there is a client, 3000 ms have passed and `bot.chat` succeeds; the chat time is set regardless. |
| AiBot.FollowThenStop | ai-bot.js:529-543 | "follow me" then "stop" from one player leaves the bot exploring with no target. |
| Chat.ContextualResponse | behaviors/chat.js:116-131 | Each of the four replies holds iff its word occurs and no earlier word does (good/great, then bad/stop, then help, then build); null iff none of the six words occurs. |
| Chat.MentionPrecedence | behaviors/chat.js:91-100 | A mention is answered from the contextual table (with the fallback) on a 70% roll. The keyword rolls play no part. |
| Chat.KeywordReplyFromFirstMatch | behaviors/chat.js:103-113 | Without a mention, a reply exists iff some keyword occurs and the 30% roll succeeds. It comes from the first such keyword's list. |
| Chat.HelloBeatsHi | behaviors/chat.js:81-84 | A message containing "hello" is answered from the "hello" list. |
| Chat.HiShadowsLaterKeywords | behaviors/chat.js:81-88 | Any message containing "hi" is answered from the "hello" or "hi" list. |
| Chat.ChatBehavior.constructor | behaviors/chat.js:4-9 | Last message at time 0, no timer, nothing pending. |
| Chat.ChatBehavior.SendMessage | behaviors/chat.js:67-75 | The message is said and the clock moves only when `bot.chat` does not throw. |
| Chat.ChatBehavior.AttemptSendMessage | behaviors/chat.js:45-60 | A line is chosen iff 10 s have passed and the roll is at most `messageChance`. It is one of the configured messages. |
| Chat.ChatBehavior.ScheduleNextMessage | behaviors/chat.js:34-43 | The chat timer is armed. |
| Chat.ChatBehavior.FireChatTimer | behaviors/chat.js:34-43 | One attempt with AttemptSendMessage's guarantees (the spacing, the roll, a configured line, said only when `bot.chat` does not throw), then the chat timer is re-armed. |
| Chat.ChatBehavior.OnChat | behaviors/chat.js:23-26 | The bot's own messages get no reply; others get the planned reply. |
| Chat.ChatBehavior.HandleIncomingMessage | behaviors/chat.js:77-114 | Schedules exactly the planned reply, at most one. |
| Chat.ChatBehavior.FireReply | behaviors/chat.js:95-97 | A reply goes straight to `sendMessage` and is not subject to the 10 s spacing. |
| Chat.ChatBehavior.Cleanup | behaviors/chat.js:133-137 | The chat timer is cancelled. |
| SimpleBot.GreetingReply | simple-bot.js:89-101 | The reply is "hello there!" iff the sender is not the bot, the lower-cased message contains "hello" or "hi", and the roll is below 0.3. |
| SimpleBot.ThisCountsAsGreeting | simple-bot.js:94 | "this is fun" is greeted, because "this" contains "hi". |
| SimpleBot.GreetingIgnoresCase | simple-bot.js:94 | The decision is the same for the lower-cased message. |
| Pathfinding.ManhattanMetric | utils/pathfinding.js:149-154 | Symmetric, zero iff equal, triangle inequality. |
| Pathfinding.Neighbors | utils/pathfinding.js:62-78 | Six positions, each at distance 1. |
| Pathfinding.NeighborsExact | utils/pathfinding.js:62-78 | A position is a neighbour iff it is at distance 1, and the six are distinct. |
| Pathfinding.PassableNeverDangerous | utils/pathfinding.js:112-147 | No passable block is dangerous: the two name lists share no entry. |
| Pathfinding.WalkableMeans | utils/pathfinding.js:80-110 | Walkable iff the position and the one above are clear or passable, the one below is solid, and neither it nor the position is dangerous. |
| Pathfinding.Chain | utils/pathfinding.js:156-166 | The parent chain ends at the node's position. |
| Pathfinding.ChainIsPath | utils/pathfinding.js:43-54 | The chain starts at the root, moves between neighbours over walkable positions, and is at most g + 1 long. |
| Pathfinding.ReconstructPath | utils/pathfinding.js:156-166 | The `unshift` loop returns exactly the parent chain. |
| Pathfinding.InBox | utils/pathfinding.js:43-48 | Every position within the distance budget lies in a finite box around the start. |
| Pathfinding.LowestF | utils/pathfinding.js:20-21 | The stable sort and `shift` take the first open node of least f. |
| Pathfinding.FindSafePath | utils/pathfinding.js:9-60 | A returned path starts at the floored start, ends at the floored target, steps between neighbours over walkable positions, and has at most `maxDistance + 1` positions. The search terminates. |
| Pathfinding.AppendKeepsArena | utils/pathfinding.js:50-54 | Pushing a node one step from its parent, within budget and walkable, keeps every node sound. |
| BlockBreaking.PreferredKindsAreNotProtected | config.js:29-35 | No configured preferred kind is air or protected, so a preferred block is breakable iff its hardness is defined and below 50. |
| BlockBreaking.GridBound | behaviors/blockBreaking.js:55-57 | The scan covers every grid value up to `reach`. |
| BlockBreaking.PickaxeIsAxe | behaviors/blockBreaking.js:138-141 | A name containing "pickaxe" contains "axe", so the "pickaxe" test never decides. |
| BlockBreaking.BlockBreakingBehavior.constructor | behaviors/blockBreaking.js:4-11 | Not breaking, no timer, the configured chance, reach and preferences. |
| BlockBreaking.BlockBreakingBehavior.ScheduleNextBreak | behaviors/blockBreaking.js:26-35 | The break timer is armed. |
| BlockBreaking.BlockBreakingBehavior.FindBreakableBlock | behaviors/blockBreaking.js:49-87 | The result is the block at one of the scanned grid positions, within reach with y offset in -2..2; it is never air, never one of the 16 protected kinds, and its hardness is defined and below 50. It is `None` exactly when no grid position qualifies. Otherwise no qualifying block sorts before it. |
| BlockBreaking.BlockBreakingBehavior.FirstInOrder | behaviors/blockBreaking.js:76-86 | The stable sort's head: nothing sorts before it, and it sorts strictly before every earlier entry. |
| BlockBreaking.BlockBreakingBehavior.AttemptBreakBlock | behaviors/blockBreaking.js:37-47 | Nothing while breaking or when the roll exceeds the chance. Otherwise a dig starts (setting the flag) on a scanned grid block that no qualifying grid position sorts before, and nothing starts only when no grid position qualifies. |
| BlockBreaking.BlockBreakingBehavior.BreakBlockStart | behaviors/blockBreaking.js:106-110 | The dig starts iff no dig is in flight; the flag is then set. |
| BlockBreaking.BlockBreakingBehavior.BreakBlockSettle | behaviors/blockBreaking.js:126-128 | The flag is released whether the dig succeeded or threw. |
| BlockBreaking.BlockBreakingBehavior.FireBreakTimer | behaviors/blockBreaking.js:31-34 | One attempt with the same guarantees as AttemptBreakBlock (a scanned grid block, minimal, none only when nothing qualifies), then the timer is re-armed. |
| BlockBreaking.BlockBreakingBehavior.Cleanup | behaviors/blockBreaking.js:160-165 | No timer and not breaking. |
| BlockBreaking.EquipBestTool | behaviors/blockBreaking.js:132-158 | The choice is the first tool with the strictly smallest dig time; it is `None` iff no tool qualifies. It is equipped iff it exists and is not already held. |
| Movement.FallFrom | behaviors/movement.js:139-155 | The count lies in [d, 10]. Every counted block is open, and a count below 10 stops at a real block. |
| Movement.FallExceeds | behaviors/movement.js:129-133 | The drop exceeds m iff m < 10 and the first m + 1 blocks below are open. |
| Movement.ConfiguredFallLimit | config.js:63-67 | With the limit 3, a drop is too far iff the four blocks below the spot are open. |
| Movement.HighLimitNeverTrips | behaviors/movement.js:143 | A limit of 10 or more never rejects a drop. |
| Movement.MovementBehavior.constructor | behaviors/movement.js:4-14 | Not moving, no controls pressed, no timers. |
| Movement.MovementBehavior.CalculateFallDistance | behaviors/movement.js:139-155 | The loop's count is at most 10, all counted blocks are open, and a count below 10 ends at a real block. |
| Movement.MovementBehavior.IsSafeToMove | behaviors/movement.js:104-137 | Unsafe iff the void check, the lava check or the fall check fires. |
| Movement.MovementBehavior.AvoidDanger | behaviors/movement.js:157-169 | One retry timer is armed. |
| Movement.MovementBehavior.StartForwardMovement | behaviors/movement.js:58-76 | Unsafe: only a retry is scheduled and the controls are unchanged. Safe: forward pressed and moving; on a strafe roll below 0.3 the side the second roll picks is pressed and its release is scheduled, otherwise the sides are unchanged. |
| Movement.MovementBehavior.StopMovement | behaviors/movement.js:78-89 | All controls released and not moving. A new stop timer is added and older ones are kept. |
| Movement.MovementBehavior.ChangeDirection | behaviors/movement.js:91-102 | After the turn, an unsafe view changes nothing; a safe one gives the forward push with its exact strafe effects. |
| Movement.MovementBehavior.UpdateMovement | behaviors/movement.js:43-56 | Stop iff roll1 < stop chance while moving. Otherwise forward iff roll2 < forward chance or standing, else turn. A stop releases every control; a safe push moves forward with the exact strafe effects; an unsafe forward schedules a retry and an unsafe turn changes nothing. |
| Movement.MovementBehavior.ScheduleNextMovement | behaviors/movement.js:30-41 | The movement timer is armed. |
| Movement.MovementBehavior.FireMovementTimer | behaviors/movement.js:37-40 | One update with all of UpdateMovement's effects, then the timer is re-armed; nothing else changes. |
| Movement.MovementBehavior.FireStopTimer | behaviors/movement.js:86-88 | The stop timer is consumed. A safe view gives the forward push with its exact strafe effects; a hazard schedules a retry and leaves the controls unchanged. |
| Movement.MovementBehavior.FireStrafeRelease | behaviors/movement.js:72-74 | The strafe side is released. |
| Movement.MovementBehavior.FireAvoidTimer | behaviors/movement.js:164-168 | The retry is consumed. A safe view gives the forward push with its exact strafe effects; a hazard leaves the controls and strafe releases unchanged. |
| Movement.MovementBehavior.Cleanup | behaviors/movement.js:175-187 | Controls released, the movement timer and the latest stop timer cancelled. `isMoving` and other pending timers are untouched. |

## Left out

- mineflayer calls (`createBot`, `dig`, `craft`, `equip`, `lookAt`, `look`, `setControlState`, `findBlocks`, `nearestEntity`): their outcomes are parameters (`createOk`, `chatOk`, `digOk`, `CraftOutcome`, `equipOk`, distances, probes).
- Timers are counted or armed flags fired by explicit methods. Their durations and jitter are not modelled, and neither is the order in which several pending timers fire.
- `Date.now()` is the `now` parameter, and `Math.random()` draws are `roll` parameters. The reply-delay and movement-interval draws are not modelled.
- Floating-point geometry: the "ahead" spot of `isSafeToMove` (sine and cosine of the yaw), turning angles, and `distanceTo`. The block-breaking order compares squared offsets instead of square roots, which orders alike in exact arithmetic; floating-point rounding is not modelled.
- BlockBreaking.BlockBreakingBehavior.FindBreakableBlock: the contract says no qualifying block sorts before the result. It does not say that ties go to the earliest block in scan order, which the stable sort guarantees.
- BlockBreaking.EquipBestTool: dig times are finite reals. A tool whose dig time is `Infinity` is never chosen by the source, but the model has no infinite value to give it.
- The HTTP dashboards of bot-with-web.js and bot-with-database.js, the database layer (sessions, interactions, server status), and the `handlePlayerChat`, `playerJoined` welcome and keep-alive routines of those two variants.
- ai-bot.js: the 70% repeat dig in `gatherWood`, the movement patterns of `intelligentMovement`, `naturalLooking`, `manageInventory`, the `playerJoined` welcome, and the `spawn` start-up timers.
- AiBot.Agent.AiDecisionLoop: the `default` case of the task switch is unreachable because `Task` is closed. `aiDecisionLoop` has no `try`: a synchronous throw from a handler would reach the uncaught-exception handler of utils/logger.js:39-41, which logs it and ends the process, and a rejected async handler is only logged (utils/logger.js:44-46), keeping whatever state it assigned before the throw. The handlers' client calls are parameters of the model, and such throws outside their own `catch` blocks are not modelled; only the keyword-reply throw is (`exitCode`).
- ai-bot.js reads `bot.entity` inside handlers. The model's `online` flag stands for both "client exists" and "entity exists".
- Strings.ToLowerIdempotent: `ToLower` folds the ASCII letters A-Z only. JavaScript's `toLowerCase` folds all of Unicode (the Kelvin sign U+212A becomes "k"), so the ban test, the keyword scans and the mention test may differ from the source on non-ASCII text.
- `parseInt` is modelled for decimal text only; hexadecimal `0x` prefixes and the radix argument are not modelled.
- Pathfinding.FindSafePath: the default argument `maxDistance = 10` is not modelled; every caller passes the budget explicitly.
- The pathfinding start position is floored by `Floored`. A world lookup that throws counts as not walkable, as the `catch` does.
- behaviors/antiIdle.js, bot.js, utils/logger.js, web-server.js and the diagnostic scripts are not part of this model.
- Process signal handlers are not modelled. `process.exit` is an exit-code field.
