/**
 * behaviors/chat.js: an ambient chatter that occasionally says a canned line
 * (never twice within ten seconds) and answers other players: a mention of
 * the bot's name first, otherwise the first greeting keyword the message
 * contains.
 */
module Chat {
  import opened Wrappers
  import opened Strings

  /** `minMessageInterval` */
  const MinMessageInterval: int := 10000

  /** config.behavior.chat.messages */
  const ConfigMessages: seq<string> := [
    "hey there!", "how is everyone doing?", "nice server", "anyone want to build something?",
    "this is fun", "hello", "what are you all up to?", "cool builds around here",
    "thanks for the server", "having a great time"]

  /** The keys of the `responses` table, in insertion order. */
  const ReplyKeywords: seq<string> := ["hello", "hi", "hey", "how are you", "what are you doing", "nice"]

  /** The reply lists of the `responses` table, aligned with `ReplyKeywords`. */
  const ReplyLists: seq<seq<string>> := [
    ["hello!", "hey there!", "hi!"],
    ["hello!", "hey!", "hi there!"],
    ["hey!", "hello!", "hi!"],
    ["doing great!", "pretty good!", "good, thanks!"],
    ["just exploring", "building stuff", "having fun"],
    ["thanks!", "yeah!", "appreciate it!"]]

  const MentionFallback: string := "thanks for mentioning me!"

  /** `getContextualResponse(message)`: fixed priority, good/great first, `None` for the source's `null`. */
  function ContextualResponse(msg: string): (r: Option<string>)
    ensures r == Some("thanks!") <==> Contains(msg, "good") || Contains(msg, "great")
    ensures r == Some("sorry about that") <==>
      !(Contains(msg, "good") || Contains(msg, "great")) && (Contains(msg, "bad") || Contains(msg, "stop"))
    ensures r == Some("what do you need help with?") <==>
      !Contains(msg, "good") && !Contains(msg, "great") && !Contains(msg, "bad") && !Contains(msg, "stop")
      && Contains(msg, "help")
    ensures r == Some("sounds like a cool project!") <==>
      !Contains(msg, "good") && !Contains(msg, "great") && !Contains(msg, "bad") && !Contains(msg, "stop")
      && !Contains(msg, "help") && Contains(msg, "build")
    ensures r.None? <==>
      !Contains(msg, "good") && !Contains(msg, "great") && !Contains(msg, "bad") && !Contains(msg, "stop")
      && !Contains(msg, "help") && !Contains(msg, "build")
  {
    if Contains(msg, "good") || Contains(msg, "great") then Some("thanks!")
    else if Contains(msg, "bad") || Contains(msg, "stop") then Some("sorry about that")
    else if Contains(msg, "help") then Some("what do you need help with?")
    else if Contains(msg, "build") then Some("sounds like a cool project!")
    else None
  }

  /** `getContextualResponse(msg) || 'thanks for mentioning me!'` */
  function MentionReply(msg: string): string {
    match ContextualResponse(msg)
    case Some(text) => text
    case None => MentionFallback
  }

  predicate Mentions(botName: string, message: string) {
    Contains(ToLower(message), ToLower(botName))
  }

  /**
   * The reply `handleIncomingMessage` schedules, if any: a mention answers on
   * a roll below 0.7 and ends there; otherwise the first keyword found
   * answers from its own list on a roll below 0.3, and the scan ends there
   * whether or not it answered.
   */
  function PlanReply(botName: string, message: string, mentionRoll: real, keywordRoll: real, pickRoll: real): Option<string>
    requires 0.0 <= pickRoll < 1.0
  {
    var lower := ToLower(message);
    if Contains(lower, ToLower(botName)) then
      if mentionRoll < 0.7 then Some(MentionReply(lower)) else None
    else match FirstMatch(ReplyKeywords, lower)
      case None => None
      case Some(k) => if keywordRoll < 0.3 then Some(Pick(ReplyLists[k], pickRoll)) else None
  }

  /** A mention is answered only from the contextual table; greeting keywords in it play no part. */
  lemma MentionPrecedence(botName: string, message: string, mentionRoll: real, keywordRoll: real, pickRoll: real)
    requires 0.0 <= pickRoll < 1.0
    requires Mentions(botName, message)
    ensures PlanReply(botName, message, mentionRoll, keywordRoll, pickRoll) ==
      (if mentionRoll < 0.7 then Some(MentionReply(ToLower(message))) else None)
    ensures forall k2, p2 | 0.0 <= p2 < 1.0 ::
      PlanReply(botName, message, mentionRoll, k2, p2) == PlanReply(botName, message, mentionRoll, keywordRoll, pickRoll)
  {
  }

  /**
   * Without a mention, a reply comes from the list of the first keyword the
   * message contains, and there is none when no keyword occurs.
   */
  lemma KeywordReplyFromFirstMatch(botName: string, message: string, mentionRoll: real, keywordRoll: real, pickRoll: real)
    requires 0.0 <= pickRoll < 1.0
    requires !Mentions(botName, message)
    ensures var r := PlanReply(botName, message, mentionRoll, keywordRoll, pickRoll);
      && (r.Some? <==> keywordRoll < 0.3 && exists k :: 0 <= k < |ReplyKeywords| && Contains(ToLower(message), ReplyKeywords[k]))
      && (r.Some? ==> exists k :: (0 <= k < |ReplyKeywords| && Contains(ToLower(message), ReplyKeywords[k])
            && (forall j :: 0 <= j < k ==> !Contains(ToLower(message), ReplyKeywords[j]))
            && r.value in ReplyLists[k]))
  {
    var lower := ToLower(message);
    var m := FirstMatch(ReplyKeywords, lower);
    if m.Some? {
      assert Contains(lower, ReplyKeywords[m.value]);
    }
  }

  /** "hello" heads the table, so "hi" never answers a message containing "hello". */
  lemma HelloBeatsHi(message: string)
    requires Contains(ToLower(message), "hello")
    ensures FirstMatch(ReplyKeywords, ToLower(message)) == Some(0)
  {
    assert ReplyKeywords[0] == "hello";
  }

  /** Any message containing "hi" (even inside "this") is answered from the "hello" or "hi" list. */
  lemma HiShadowsLaterKeywords(message: string)
    requires Contains(ToLower(message), "hi")
    ensures var m := FirstMatch(ReplyKeywords, ToLower(message)); m == Some(0) || m == Some(1)
  {
    assert ReplyKeywords[1] == "hi";
  }

  class ChatBehavior {
    /** The bot's own username. */
    const botUsername: string
    /** config.behavior.chat.messageChance */
    const messageChance: real

    var lastMessageTime: int
    /** Whether `chatTimer` is armed. */
    var chatTimerArmed: bool
    /** Replies waiting on their `setTimeout`, in scheduling order. */
    var pendingReplies: seq<string>
    /** Everything `bot.chat` accepted, oldest first. */
    var said: seq<string>

    constructor (botUsername: string, messageChance: real)
      ensures this.botUsername == botUsername && this.messageChance == messageChance
      ensures lastMessageTime == 0 && !chatTimerArmed && pendingReplies == [] && said == []
    {
      this.botUsername, this.messageChance := botUsername, messageChance;
      lastMessageTime, chatTimerArmed, pendingReplies, said := 0, false, [], [];
    }

    /** `sendMessage(message)`: the clock moves only when `bot.chat` does not throw. */
    method SendMessage(message: string, now: int, chatOk: bool)
      modifies this`lastMessageTime, this`said
      ensures said == old(said) + (if chatOk then [message] else [])
      ensures lastMessageTime == if chatOk then now else old(lastMessageTime)
    {
      if chatOk {
        said := said + [message];
        lastMessageTime := now;
      }
    }

    /**
     * `attemptSendMessage()`: nothing within ten seconds of the last message
     * or when the roll exceeds `messageChance`; otherwise a configured line.
     */
    method AttemptSendMessage(now: int, roll: real, pickRoll: real, chatOk: bool) returns (line: Option<string>)
      requires 0.0 <= pickRoll < 1.0
      modifies this`lastMessageTime, this`said
      ensures line.Some? <==> now - old(lastMessageTime) >= MinMessageInterval && roll <= messageChance
      ensures line.Some? ==> line.value in ConfigMessages
      ensures said == old(said) + (if line.Some? && chatOk then [line.value] else [])
      ensures lastMessageTime == if line.Some? && chatOk then now else old(lastMessageTime)
    {
      if now - lastMessageTime < MinMessageInterval {
        return None;
      }
      if roll > messageChance {
        return None;
      }
      var message := Pick(ConfigMessages, pickRoll);
      SendMessage(message, now, chatOk);
      line := Some(message);
    }

    /** `scheduleNextMessage()`: any armed chat timer is replaced. */
    method ScheduleNextMessage()
      modifies this`chatTimerArmed
      ensures chatTimerArmed
    {
      chatTimerArmed := true;
    }

    /** The chat timer fires: one attempt, then the next timer is armed. */
    method FireChatTimer(now: int, roll: real, pickRoll: real, chatOk: bool) returns (line: Option<string>)
      requires 0.0 <= pickRoll < 1.0
      modifies this`lastMessageTime, this`said, this`chatTimerArmed
      ensures chatTimerArmed
      ensures line.Some? <==> now - old(lastMessageTime) >= MinMessageInterval && roll <= messageChance
      ensures line.Some? ==> line.value in ConfigMessages
      ensures said == old(said) + (if line.Some? && chatOk then [line.value] else [])
      ensures lastMessageTime == if line.Some? && chatOk then now else old(lastMessageTime)
    {
      line := AttemptSendMessage(now, roll, pickRoll, chatOk);
      ScheduleNextMessage();
    }

    /** The `'chat'` listener: the bot's own lines are ignored, everything else goes to `handleIncomingMessage`. */
    method OnChat(username: string, message: string, mentionRoll: real, keywordRoll: real, pickRoll: real) returns (reply: Option<string>)
      requires 0.0 <= pickRoll < 1.0
      modifies this`pendingReplies
      ensures username == botUsername ==> reply.None?
      ensures username != botUsername ==> reply == PlanReply(botUsername, message, mentionRoll, keywordRoll, pickRoll)
      ensures pendingReplies == old(pendingReplies) + (if reply.Some? then [reply.value] else [])
    {
      if username == botUsername {
        return None;
      }
      reply := HandleIncomingMessage(message, mentionRoll, keywordRoll, pickRoll);
    }

    /** `handleIncomingMessage(username, message)`: at most one reply is scheduled. */
    method HandleIncomingMessage(message: string, mentionRoll: real, keywordRoll: real, pickRoll: real) returns (reply: Option<string>)
      requires 0.0 <= pickRoll < 1.0
      modifies this`pendingReplies
      ensures reply == PlanReply(botUsername, message, mentionRoll, keywordRoll, pickRoll)
      ensures pendingReplies == old(pendingReplies) + (if reply.Some? then [reply.value] else [])
    {
      var lower := ToLower(message);
      reply := None;
      if Contains(lower, ToLower(botUsername)) {
        if mentionRoll < 0.7 {
          var response := match ContextualResponse(lower) case Some(t) => t case None => MentionFallback;
          pendingReplies := pendingReplies + [response];
          reply := Some(response);
        }
        return;
      }
      var found := ScanKeywords(ReplyKeywords, lower);
      if found.Some? && keywordRoll < 0.3 {
        var response := Pick(ReplyLists[found.value], pickRoll);
        pendingReplies := pendingReplies + [response];
        reply := Some(response);
      }
    }

    /** A reply timer fires: the reply goes straight to `sendMessage`, bypassing the ten-second spacing. */
    method FireReply(i: nat, now: int, chatOk: bool)
      requires i < |pendingReplies|
      modifies this`pendingReplies, this`lastMessageTime, this`said
      ensures pendingReplies == old(pendingReplies[..i] + pendingReplies[i + 1..])
      ensures said == old(said) + (if chatOk then [old(pendingReplies[i])] else [])
      ensures lastMessageTime == if chatOk then now else old(lastMessageTime)
    {
      var message := pendingReplies[i];
      pendingReplies := pendingReplies[..i] + pendingReplies[i + 1..];
      SendMessage(message, now, chatOk);
    }

    /** `cleanup()` */
    method Cleanup()
      modifies this`chatTimerArmed
      ensures !chatTimerArmed
    {
      chatTimerArmed := false;
    }
  }
}
