/**
 * The reconnect-delay policies of the six entry scripts, as functions of the
 * attempt number `n` (the counter's value after it was incremented).
 */
module Backoff {

  /**
   * ai-bot.js, simple-bot.js, start.js, index.js:
   * `Math.min(reconnectDelay * n, maxReconnectDelay)`.
   */
  function LinearDelay(n: nat, reconnectDelay: nat, maxReconnectDelay: nat): (d: nat)
    ensures d <= maxReconnectDelay && d <= reconnectDelay * n
    ensures d == maxReconnectDelay || d == reconnectDelay * n
  {
    if reconnectDelay * n < maxReconnectDelay then reconnectDelay * n else maxReconnectDelay
  }

  /** Delay values of config.js (and the literals of ai-bot.js and simple-bot.js). */
  const ReconnectDelay: nat := 5000
  const MaxReconnectDelay: nat := 60000
  const MaxLinearAttempts: nat := 10

  /** From the first attempt on, the linear delay lies between the base delay and the ceiling. */
  lemma LinearDelayBounds(n: nat, reconnectDelay: nat, maxReconnectDelay: nat)
    requires 1 <= n && reconnectDelay <= maxReconnectDelay
    ensures reconnectDelay <= LinearDelay(n, reconnectDelay, maxReconnectDelay) <= maxReconnectDelay
  {
    assert reconnectDelay * n >= reconnectDelay * 1;
  }

  /** A later attempt never waits less. */
  lemma LinearDelayMonotone(n: nat, m: nat, reconnectDelay: nat, maxReconnectDelay: nat)
    requires n <= m
    ensures LinearDelay(n, reconnectDelay, maxReconnectDelay) <= LinearDelay(m, reconnectDelay, maxReconnectDelay)
  {
    assert reconnectDelay * n <= reconnectDelay * m by {
      assert reconnectDelay * m == reconnectDelay * n + reconnectDelay * (m - n);
    }
  }

  /**
   * With the configured values and the ten-attempt budget the ceiling is never
   * reached: attempt n waits exactly 5000 * n ms, at most 50000.
   */
  lemma ConfiguredLinearDelayNeverCapped(n: nat)
    requires 1 <= n <= MaxLinearAttempts
    ensures LinearDelay(n, ReconnectDelay, MaxReconnectDelay) == 5000 * n
    ensures 5000 <= LinearDelay(n, ReconnectDelay, MaxReconnectDelay) <= 50000
  {
  }

  /**
   * bot-with-web.js: 5000 for the first attempt, otherwise
   * `Math.min(120000, 30000 + n * 15000)`.
   */
  function WebDelay(n: nat): (d: nat)
    ensures 5000 <= d <= 120000
    ensures n <= 1 ==> d == 5000
  {
    if n > 1 then (if 30000 + n * 15000 < 120000 then 30000 + n * 15000 else 120000) else 5000
  }

  /** The two-tier delay grows with the attempt number ... */
  lemma WebDelayMonotone(n: nat, m: nat)
    requires n <= m
    ensures WebDelay(n) <= WebDelay(m)
  {
  }

  /** ... and sits at its 120 s ceiling from the sixth attempt on, not before. */
  lemma WebDelayCeiling(n: nat)
    ensures WebDelay(n) == 120000 <==> n >= 6
  {
  }

  /**
   * bot-with-database.js: 5000 for attempts 1-3, 30000 for attempts 4-10, then
   * `Math.min(300000, 60000 + n * 10000)`.
   */
  function TieredDelay(n: nat): (d: nat)
    ensures 5000 <= d <= 300000
  {
    if n <= 3 then 5000
    else if n <= 10 then 30000
    else if 60000 + n * 10000 < 300000 then 60000 + n * 10000
    else 300000
  }

  /** The three tiers never shorten the wait as the attempt number grows. */
  lemma TieredDelayMonotone(n: nat, m: nat)
    requires n <= m
    ensures TieredDelay(n) <= TieredDelay(m)
  {
  }

  /** The long tier reaches its five-minute ceiling exactly from attempt 24 on. */
  lemma TieredDelayCeiling(n: nat)
    ensures TieredDelay(n) == 300000 <==> n >= 24
  {
  }

  /** Each tier, stated on its own. */
  lemma TieredDelayTiers(n: nat)
    ensures n <= 3 ==> TieredDelay(n) == 5000
    ensures 4 <= n <= 10 ==> TieredDelay(n) == 30000
    ensures 11 <= n ==> TieredDelay(n) == if 60000 + 10000 * n < 300000 then 60000 + 10000 * n else 300000
    ensures 11 <= n ==> 170000 <= TieredDelay(n)
  {
  }
}
