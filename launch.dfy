/**
 * Command-line settings of start.js and index.js: each setting is the
 * positional argument, else the environment variable, else the default from
 * config.js, combined with JavaScript's `||`, so an empty string, and for the
 * port also 0 or NaN, falls through to the next source. start.js then
 * validates the result; index.js uses it as is.
 */
module Launch {
  import opened Wrappers
  import opened Strings

  /** config.js:3, 4 and 8. */
  const DefaultHost: string := "localhost"
  const DefaultPort: int := 25565
  const DefaultUsername: string := "AutoBot"

  datatype Settings = Settings(host: string, port: int, username: string)

  /** Where the process goes after argument handling. */
  datatype Outcome =
    | Help                        // exit code 0, nothing started
    | Invalid(problem: Problem)   // exit code 1, nothing started
    | Connect(settings: Settings)

  datatype Problem = MissingHost | BadPort | BadUsername

  /** The environment variables read at start-up; `None` when unset. */
  datatype Environment = Environment(host: Option<string>, port: Option<string>, username: Option<string>)

  /** `args[i]`, which is `undefined` past the end. */
  function Arg(args: seq<string>, i: nat): (r: Option<string>)
    ensures r.Some? <==> i < |args|
    ensures r.Some? ==> r.value == args[i]
  {
    if i < |args| then Some(args[i]) else None
  }

  /** A string is truthy when it is defined and not empty. */
  predicate Truthy(s: Option<string>) {
    s.Some? && s.value != ""
  }

  /** A number is truthy when it is neither NaN (`None`) nor 0. */
  predicate TruthyNumber(n: Option<int>) {
    n.Some? && n.value != 0
  }

  /** `a || b || fallback` on strings. */
  function FirstTruthy(a: Option<string>, b: Option<string>, fallback: string): (r: string)
    ensures Truthy(a) ==> r == a.value
    ensures !Truthy(a) && Truthy(b) ==> r == b.value
    ensures !Truthy(a) && !Truthy(b) ==> r == fallback
  {
    if Truthy(a) then a.value else if Truthy(b) then b.value else fallback
  }

  /** `parseInt(x)` where `x` may be undefined (which parses to NaN). */
  function ParseOptional(x: Option<string>): (r: Option<int>)
    ensures x.None? ==> r.None?
    ensures x.Some? ==> r == ParseInt(x.value)
  {
    if x.Some? then ParseInt(x.value) else None
  }

  /** `parseInt(a) || parseInt(b) || fallback`. */
  function FirstTruthyNumber(a: Option<int>, b: Option<int>, fallback: int): (r: int)
    ensures TruthyNumber(a) ==> r == a.value
    ensures !TruthyNumber(a) && TruthyNumber(b) ==> r == b.value
    ensures !TruthyNumber(a) && !TruthyNumber(b) ==> r == fallback
  {
    if TruthyNumber(a) then a.value else if TruthyNumber(b) then b.value else fallback
  }

  /** The three settings as both start.js:32-34 and index.js:8-10 compute them. */
  function ResolveSettings(args: seq<string>, env: Environment): (s: Settings)
  {
    Settings(
      FirstTruthy(Arg(args, 0), env.host, DefaultHost),
      FirstTruthyNumber(ParseOptional(Arg(args, 1)), ParseOptional(env.port), DefaultPort),
      FirstTruthy(Arg(args, 2), env.username, DefaultUsername))
  }

  /**
   * The defaults are truthy, so the resolved host is never empty and the
   * resolved port is never 0 or NaN; the host check and the NaN test of
   * start.js can never fail.
   */
  lemma ResolvedSettingsAreTruthy(args: seq<string>, env: Environment)
    ensures ResolveSettings(args, env).host != ""
    ensures ResolveSettings(args, env).port != 0
    ensures ResolveSettings(args, env).username != ""
  {
  }

  /** Each setting comes from the highest-priority source that supplies a usable value. */
  lemma SettingsPrecedence(args: seq<string>, env: Environment)
    ensures 0 < |args| && args[0] != "" ==> ResolveSettings(args, env).host == args[0]
    ensures (|args| == 0 || args[0] == "") && Truthy(env.host) ==> ResolveSettings(args, env).host == env.host.value
    ensures (|args| == 0 || args[0] == "") && !Truthy(env.host) ==> ResolveSettings(args, env).host == DefaultHost
    ensures 1 < |args| && TruthyNumber(ParseInt(args[1])) ==> ResolveSettings(args, env).port == ParseInt(args[1]).value
    ensures (|args| <= 1 || !TruthyNumber(ParseInt(args[1]))) && !TruthyNumber(ParseOptional(env.port)) ==>
      ResolveSettings(args, env).port == DefaultPort
    ensures 2 < |args| && args[2] != "" ==> ResolveSettings(args, env).username == args[2]
    ensures (|args| <= 2 || args[2] == "") && !Truthy(env.username) ==> ResolveSettings(args, env).username == DefaultUsername
  {
  }

  /** `parseInt` reads a leading number, so "8080abc" selects port 8080. */
  lemma TrailingGarbageIsIgnored(host: string)
    ensures ResolveSettings([host, "8080abc"], Environment(None, None, None)).port == 8080
  {
    assert DecimalString(8080) == "8080" by {
      assert DecimalString(8) == "8";
      assert DecimalString(80) == "80";
      assert DecimalString(808) == "808";
    }
    assert "8080abc" == DecimalString(8080) + "abc";
    ParseIntIgnoresSuffix(8080, "abc");
  }

  /** `args.includes('--help') || args.includes('-h')`. */
  predicate WantsHelp(args: seq<string>) {
    "--help" in args || "-h" in args
  }

  /**
   * start.js:28-50: the help check, then the three validations in order. The
   * username's length is JavaScript's, counted in UTF-16 code units.
   */
  function StartOutcome(args: seq<string>, env: Environment): (o: Outcome)
    ensures o.Help? <==> WantsHelp(args)
    ensures o.Connect? ==> o.settings == ResolveSettings(args, env)
  {
    if WantsHelp(args) then Help
    else
      var s := ResolveSettings(args, env);
      if s.host == "" then Invalid(MissingHost)
      else if s.port < 1 || s.port > 65535 then Invalid(BadPort)
      else if s.username == "" || Utf16Length(s.username) < 3 || Utf16Length(s.username) > 16 then Invalid(BadUsername)
      else Connect(s)
  }

  /**
   * start.js connects exactly when help was not asked for and the resolved
   * settings are in range; the host check never rejects anything.
   */
  lemma StartConnectsIffValid(args: seq<string>, env: Environment)
    ensures StartOutcome(args, env).Connect? <==>
      var s := ResolveSettings(args, env);
      !WantsHelp(args) && 1 <= s.port <= 65535 && 3 <= Utf16Length(s.username) <= 16
    ensures StartOutcome(args, env) != Invalid(MissingHost)
    ensures StartOutcome(args, env).Connect? ==> StartOutcome(args, env).settings.host != ""
  {
    ResolvedSettingsAreTruthy(args, env);
  }

  /** With no arguments and no environment, start.js connects to localhost:25565 as AutoBot. */
  lemma StartDefaults()
    ensures StartOutcome([], Environment(None, None, None)) == Connect(Settings("localhost", 25565, "AutoBot"))
  {
  }

  /** A numeric port argument: 0 falls through to the default, any other value is taken as given. */
  lemma NumericPortArgument(host: string, n: nat)
    ensures n == 0 ==> ResolveSettings([host, DecimalString(n)], Environment(None, None, None)).port == DefaultPort
    ensures n != 0 ==> ResolveSettings([host, DecimalString(n)], Environment(None, None, None)).port == n
  {
    var args := [host, DecimalString(n)];
    assert ParseOptional(Arg(args, 1)) == Some(n) by {
      ParseIntDecimal(n);
    }
  }

  /**
   * start.js accepts a numeric port argument only up to 65535. index.js
   * applies no such check, so an out-of-range port reaches the client there.
   */
  lemma StartRejectsLargePort(host: string, n: nat)
    requires host != "" && host != "--help" && host != "-h"
    ensures StartOutcome([host, DecimalString(n)], Environment(None, None, None)).Connect? <==> n <= 65535
  {
    var d := DecimalString(n);
    var args, env := [host, d], Environment(None, None, None);
    assert !WantsHelp(args) by {
      assert IsDigit(d[0]);
      assert d != "--help" && d != "-h";
    }
    var s := ResolveSettings(args, env);
    assert s.host == host && s.username == DefaultUsername;
    assert s.port == if n == 0 then DefaultPort else n by {
      NumericPortArgument(host, n);
    }
    assert StartOutcome(args, env) == if 1 <= s.port <= 65535 then Connect(s) else Invalid(BadPort);
  }

  /**
   * Nine emoji from outside the Basic Multilingual Plane are nine characters
   * but eighteen UTF-16 code units, so start.js rejects them as a username.
   */
  lemma AstralUsernameRejected()
    ensures var u := seq(9, _ => '\U{1F600}');
      |u| == 9 && StartOutcome([], Environment(None, None, Some(u))) == Invalid(BadUsername)
  {
    var u := seq(9, _ => '\U{1F600}');
    AllAstral(u);
    var s := ResolveSettings([], Environment(None, None, Some(u)));
    assert s == Settings(DefaultHost, DefaultPort, u);
  }

  lemma {:induction false} AllAstral(u: string)
    requires forall i :: 0 <= i < |u| ==> u[i] == '\U{1F600}'
    ensures Utf16Length(u) == 2 * |u|
  {
    if u != [] {
      AllAstral(u[1..]);
    }
  }
}
