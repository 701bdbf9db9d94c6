/**
 * Identity rotation shared by bot-with-database.js and bot-with-web.js: a fixed
 * pool of twenty base names, a random numeric suffix, and the ban-keyword test
 * applied to kick reasons.
 */
module Identity {
  import opened Strings

  /** `usernamePool`, in source order. */
  const UsernamePool: seq<string> := [
    "AIPlayer", "BotHelper", "AutoCrafter", "MineBot", "PlayerAI",
    "CraftBot", "ExploreBot", "BuildHelper", "GameBot", "ServerBot",
    "FriendlyAI", "HelpBot", "ChatBot", "WorkBot", "PlayBot",
    "SmartBot", "QuickBot", "FastBot", "CoolBot", "NiceBot"
  ]

  /** `(currentUsernameIndex + 1) % usernamePool.length`. */
  function NextPoolIndex(index: nat): (r: nat)
    ensures r < |UsernamePool|
    ensures index < |UsernamePool| ==> r != index
    ensures index + 1 < |UsernamePool| ==> r == index + 1
  {
    (index + 1) % |UsernamePool|
  }

  /** `Math.floor(Math.random() * 999)` for a draw `roll` in [0, 1). */
  function SuffixFromRoll(roll: real): (n: nat)
    requires 0.0 <= roll < 1.0
    ensures n <= 998
  {
    PickIndex(roll, 999)
  }

  /** `${usernamePool[index]}${suffix}`. */
  function RotatedName(index: nat, suffix: nat): (name: string)
    requires index < |UsernamePool|
  {
    UsernamePool[index] + DecimalString(suffix)
  }

  /** No pool name contains a digit, so the suffix is the only numeric part of a rotated name. */
  lemma PoolNamesHaveNoDigits()
    ensures forall i :: 0 <= i < |UsernamePool| ==> NoDigits(UsernamePool[i])
  {
  }

  /** Adjacent pool slots hold different names. */
  lemma PoolNeighboursDiffer(i: nat)
    requires i < |UsernamePool|
    ensures UsernamePool[i] != UsernamePool[NextPoolIndex(i)]
  {
  }

  /** A rotated name determines the pool slot and the suffix it was built from. */
  lemma RotatedNameParts(i: nat, a: nat, j: nat, b: nat)
    requires i < |UsernamePool| && j < |UsernamePool|
    ensures RotatedName(i, a) == RotatedName(j, b) <==> UsernamePool[i] == UsernamePool[j] && a == b
  {
    PoolNamesHaveNoDigits();
    DigitSuffixSeparates(UsernamePool[i], UsernamePool[j], a, b);
  }

  /**
   * Rotation never re-issues the immediately preceding rotated identity: the
   * next name comes from the next pool slot, whatever the two suffixes are.
   */
  lemma ConsecutiveRotatedNamesDiffer(i: nat, a: nat, b: nat)
    requires i < |UsernamePool|
    ensures RotatedName(i, a) != RotatedName(NextPoolIndex(i), b)
  {
    PoolNeighboursDiffer(i);
    RotatedNameParts(i, a, NextPoolIndex(i), b);
  }

  /** `banKeywords`, in source order. */
  const BanKeywords: seq<string> := ["ban", "banned", "blacklist", "prohibited", "blocked", "suspended"]

  /** `banKeywords.some(keyword => reason.toLowerCase().includes(keyword))`. */
  predicate IsBanReason(reason: string) {
    exists k | 0 <= k < |BanKeywords| :: Contains(ToLower(reason), BanKeywords[k])
  }

  /**
   * "banned" adds nothing to the list: every text containing it contains "ban".
   * The test is the same as one over the five remaining keywords.
   */
  lemma BanKeywordsReduce(reason: string)
    ensures var l := ToLower(reason);
      IsBanReason(reason) <==>
        Contains(l, "ban") || Contains(l, "blacklist") || Contains(l, "prohibited")
        || Contains(l, "blocked") || Contains(l, "suspended")
  {
    var l := ToLower(reason);
    if IsBanReason(reason) {
      var k :| 0 <= k < |BanKeywords| && Contains(l, BanKeywords[k]);
      if k == 1 {
        ContainsAt("banned", "ban", 0);
        ContainsTransitive(l, "banned", "ban");
      }
    }
    if Contains(l, "ban") { assert Contains(l, BanKeywords[0]); }
    if Contains(l, "blacklist") { assert Contains(l, BanKeywords[2]); }
    if Contains(l, "prohibited") { assert Contains(l, BanKeywords[3]); }
    if Contains(l, "blocked") { assert Contains(l, BanKeywords[4]); }
    if Contains(l, "suspended") { assert Contains(l, BanKeywords[5]); }
  }

  /** Matching ignores case: "BANNED" is a ban reason. */
  lemma BanTestIgnoresCase(reason: string)
    ensures IsBanReason(reason) <==> IsBanReason(ToLower(reason))
  {
    ToLowerIdempotent(reason);
  }

  /** A kick reading "You have been banned: blacklisted" is classified as a ban. */
  lemma BannedKickIsDetected()
    ensures IsBanReason("You have been banned: blacklisted")
  {
    var l := ToLower("You have been banned: blacklisted");
    assert l[14..17] == "ban";
    assert OccursAt(l, BanKeywords[0], 14);
  }
}
