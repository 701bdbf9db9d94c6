/**
 * simple-bot.js's chat listener. Its reconnection loop is the linear policy
 * shared with ai-bot.js, start.js and index.js (module LinearSupervisor).
 */
module SimpleBot {
  import opened Wrappers
  import opened Strings

  const Greeting: string := "hello there!"

  /**
   * The reply the `'chat'` listener schedules: the fixed greeting, for a
   * message from someone else that contains "hello" or "hi" in any case,
   * on a roll below 0.3.
   */
  function GreetingReply(botName: string, sender: string, message: string, roll: real): (r: Option<string>)
    ensures r.Some? ==> r.value == Greeting
    ensures r.Some? <==>
      sender != botName && roll < 0.3 && (Contains(ToLower(message), "hello") || Contains(ToLower(message), "hi"))
  {
    if sender == botName then None
    else if Contains(ToLower(message), "hello") || Contains(ToLower(message), "hi") then
      if roll < 0.3 then Some(Greeting) else None
    else None
  }

  /** The test is a substring test: "this is fun" holds "hi" inside "this" and is greeted. */
  lemma ThisCountsAsGreeting(botName: string, sender: string, roll: real)
    requires sender != botName && roll < 0.3
    ensures GreetingReply(botName, sender, "this is fun", roll) == Some(Greeting)
  {
    assert OccursAt(ToLower("this is fun"), "hi", 1);
  }

  /** Upper-case greetings are answered too. */
  lemma GreetingIgnoresCase(botName: string, sender: string, message: string, roll: real)
    ensures GreetingReply(botName, sender, ToLower(message), roll) == GreetingReply(botName, sender, message, roll)
  {
    ToLowerIdempotent(message);
  }
}
