/**
 * src/main.ts: the action's entry point. `authenticationSetup` writes the
 * credentials into the process environment, `uploadSecrets` resolves every
 * configured secret name through `getSecret` and logs the result, and `run`
 * sequences the two inside a try/catch that reports failure to the runner.
 *
 * The inputs read through @actions/core at module load become the `Config`
 * record; the process environment and everything written to the log are the
 * fields of an `Action` object.
 */
module Main {
  import opened Wrappers
  import opened Utils

  /** The `config` object of src/main.ts:16-22. */
  datatype Config = Config(
    apiToken: string,
    accountId: string,
    projectName: string,
    quiet: bool,
    secrets: seq<string>)

  const TokenVar := "CLOUDFLARE_API_TOKEN"
  const AccountVar := "CLOUDFLARE_ACCOUNT_ID"

  const CompletedMessage := "🏁 Wrangler Action completed"
  const FailedMessage := "🚨 Action Failed"
  const NoSecretsMessage := "🔑 No secrets to upload"
  const UploadGroupTitle := "🔑 Uploading secrets"
  const UploadFailedMessage := "Failed to upload secrets"

  function UploadingMessage(count: nat): string
  {
    "🔑 Uploading " + DecimalString(count) + " secrets to Cloudflare Pages"
  }

  /** `${n}` for a natural number: its decimal digits, most significant first. */
  function DecimalString(n: nat): (s: string)
    ensures |s| >= 1
    ensures forall i :: 0 <= i < |s| ==> '0' <= s[i] <= '9'
    decreases n
  {
    if n < 10 then ["0123456789"[n]]
    else DecimalString(n / 10) + ["0123456789"[n % 10]]
  }

  /** The number a string of decimal digits denotes, most significant digit first. */
  function DigitsValue(s: string): nat
    requires forall i :: 0 <= i < |s| ==> '0' <= s[i] <= '9'
    decreases |s|
  {
    if s == [] then 0
    else 10 * DigitsValue(s[..|s| - 1]) + (s[|s| - 1] - '0') as nat
  }

  /** `${n}` denotes n, and has no leading zero. */
  lemma {:induction false} DecimalStringValue(n: nat)
    ensures DigitsValue(DecimalString(n)) == n
    ensures DecimalString(n)[0] == '0' ==> n == 0
    decreases n
  {
    var s := DecimalString(n);
    if n >= 10 {
      DecimalStringValue(n / 10);
      assert s[..|s| - 1] == DecimalString(n / 10);
      assert s[0] == DecimalString(n / 10)[0];
    }
  }

  /** A value a JavaScript `throw` can carry: an `Error` with its message, or anything else. */
  datatype Thrown = ErrorValue(message: string) | OtherValue

  /** The environment after `authenticationSetup`: both credentials set, every other entry as it was. */
  function Authenticated(env: Env, config: Config): (r: Env)
    ensures r.Keys == env.Keys + {TokenVar, AccountVar}
    ensures r[TokenVar] == config.apiToken && r[AccountVar] == config.accountId
    ensures forall k :: k in env && k != TokenVar && k != AccountVar ==> r[k] == env[k]
  {
    env[TokenVar := config.apiToken][AccountVar := config.accountId]
  }

  /**
   * `Object.fromEntries(secrets.map((secret) => [secret, getSecret(secret)]))`:
   * the names are looked up in order and the first Error thrown ends the
   * comprehension; otherwise every name maps to its value.
   */
  function SecretValues(env: Env, names: seq<string>): (r: Result<map<string, string>, string>)
    ensures r.Ok? <==> forall i :: 0 <= i < |names| ==> GetSecret(env, names[i]).Ok?
    ensures r.Ok? ==> forall k :: k in r.value <==> k in names
    ensures r.Ok? ==> forall k :: k in r.value ==> GetSecret(env, k) == Ok(r.value[k])
    decreases |names|
  {
    if names == [] then Ok(map[])
    else match GetSecret(env, names[0])
      case Err(message) => Err(message)
      case Ok(value) =>
        match SecretValues(env, names[1..])
        case Err(message) => Err(message)
        case Ok(rest) => Ok(rest[names[0] := value])
  }

  /** When the comprehension fails, it fails with the message of the first name `getSecret` rejects. */
  lemma {:induction false} SecretValuesReportsFirstRejection(env: Env, names: seq<string>, i: nat)
    requires i < |names|
    requires GetSecret(env, names[i]).Err?
    requires forall j :: 0 <= j < i ==> GetSecret(env, names[j]).Ok?
    ensures SecretValues(env, names) == Err(GetSecret(env, names[i]).error)
    decreases i
  {
    if i > 0 {
      assert GetSecret(env, names[0]).Ok?;
      assert forall j :: 0 <= j < i - 1 ==> names[1..][j] == names[j + 1];
      SecretValuesReportsFirstRejection(env, names[1..], i - 1);
    }
  }

  /**
   * The `catch` of `uploadSecrets`: an Error is logged (its message through
   * the quiet-mode gate, its stack through the ungated `debug`) and
   * swallowed; anything else is rethrown as a new Error.
   */
  function CatchUpload(quiet: bool, caught: Thrown): (r: CatchOutcome)
    ensures r.rethrown.None? <==> caught.ErrorValue?
    ensures caught.OtherValue? ==> r.rethrown == Some(ErrorValue(UploadFailedMessage)) && r.logged == []
    ensures caught.ErrorValue? ==> DebugLine in r.logged && (ErrorLine(caught.message) in r.logged <==> !quiet)
  {
    match caught
    case ErrorValue(message) => CatchOutcome(LogError(quiet, message, false) + [DebugLine], None)
    case OtherValue => CatchOutcome([], Some(ErrorValue(UploadFailedMessage)))
  }

  /** What a `catch` block logs, and what it throws on. */
  datatype CatchOutcome = CatchOutcome(logged: seq<LogEvent>, rethrown: Option<Thrown>)

  /** What `uploadSecrets` throws, given the environment it reads. */
  function UploadThrown(config: Config, env: Env): Option<Thrown>
  {
    if config.secrets == [] then None
    else match SecretValues(env, config.secrets)
      case Ok(_) => None
      case Err(message) => CatchUpload(config.quiet, ErrorValue(message)).rethrown
  }

  /**
   * What `uploadSecrets` writes to the log, given the environment it reads:
   * never a failure, and in quiet mode nothing but the ungated debug line.
   */
  function UploadOutput(config: Config, env: Env): (r: seq<LogEvent>)
    ensures forall e :: e in r ==> !e.ActionFailed?
    ensures config.quiet ==> forall e :: e in r ==> e == DebugLine
    ensures !config.quiet ==> |r| > 0 && r[0] == InfoLine(UploadingMessage(|config.secrets|))
  {
    var quiet := config.quiet;
    LogInfo(quiet, UploadingMessage(|config.secrets|), false) +
    if config.secrets == [] then LogInfo(quiet, NoSecretsMessage, false)
    else
      StartGroup(quiet, UploadGroupTitle) +
      (match SecretValues(env, config.secrets)
       case Ok(values) => Emit(quiet, false, SecretValuesLine(values))
       case Err(message) => CatchUpload(quiet, ErrorValue(message)).logged) +
      EndGroup(quiet)
  }

  /** The try/catch of `run`, given how its try block ended: the bypassed completion line, or the error and `setFailed`. */
  function Settle(quiet: bool, thrown: Option<Thrown>): (out: seq<LogEvent>)
    ensures ActionFailed(FailedMessage) in out <==> thrown.Some?
    ensures thrown.None? ==> out == [InfoLine(CompletedMessage)]
    ensures thrown.Some? ==> out[|out| - 1] == ActionFailed(FailedMessage)
  {
    match thrown
    case None => LogInfo(quiet, CompletedMessage, true)
    case Some(t) =>
      (match t
       case ErrorValue(message) => LogError(quiet, message, false)
       case OtherValue => []) + [ActionFailed(FailedMessage)]
  }

  /** Everything `run` writes to the log, starting from environment `env`. */
  function RunOutput(config: Config, env: Env): seq<LogEvent>
  {
    var authenticated := Authenticated(env, config);
    UploadOutput(config, authenticated) + Settle(config.quiet, UploadThrown(config, authenticated))
  }

  /** `getSecret` throws only Errors, so the rethrow branch of `uploadSecrets` is dead and it never throws. */
  lemma UploadNeverThrows(config: Config, env: Env)
    ensures UploadThrown(config, env) == None
  {
  }

  /** `run` never reaches `setFailed` and always ends with the bypassed completion line. */
  lemma RunNeverFails(config: Config, env: Env)
    ensures ActionFailed(FailedMessage) !in RunOutput(config, env)
    ensures |RunOutput(config, env)| > 0
    ensures RunOutput(config, env)[|RunOutput(config, env)| - 1] == InfoLine(CompletedMessage)
  {
  }

  /**
   * In quiet mode `run` writes the bypassed completion line, preceded by the
   * ungated debug line exactly when a secret lookup failed.
   */
  lemma QuietRunOutput(config: Config, env: Env)
    requires config.quiet
    ensures var lookupFailed := config.secrets != [] && SecretValues(Authenticated(env, config), config.secrets).Err?;
      RunOutput(config, env)
      == if lookupFailed then [DebugLine, InfoLine(CompletedMessage)] else [InfoLine(CompletedMessage)]
  {
  }

  /** With no secret names configured, `uploadSecrets` looks nothing up: its output ignores the environment. */
  lemma EmptySecretsLookNothingUp(config: Config, env1: Env, env2: Env)
    requires config.secrets == []
    ensures UploadOutput(config, env1) == UploadOutput(config, env2)
    ensures UploadOutput(config, env1)
         == LogInfo(config.quiet, UploadingMessage(0), false) + LogInfo(config.quiet, NoSecretsMessage, false)
  {
  }

  /** A lookup failure logs the message of the first rejected name (outside quiet mode) and dumps no values. */
  lemma UploadLogsFirstRejection(config: Config, env: Env, i: nat)
    requires !config.quiet
    requires i < |config.secrets|
    requires GetSecret(env, config.secrets[i]).Err?
    requires forall j :: 0 <= j < i ==> GetSecret(env, config.secrets[j]).Ok?
    ensures ErrorLine(GetSecret(env, config.secrets[i]).error) in UploadOutput(config, env)
    ensures forall e :: e in UploadOutput(config, env) ==> !e.SecretValuesLine?
  {
    SecretValuesReportsFirstRejection(env, config.secrets, i);
    var message := GetSecret(env, config.secrets[i]).error;
    assert UploadOutput(config, env)
        == [InfoLine(UploadingMessage(|config.secrets|)), GroupStart(UploadGroupTitle), ErrorLine(message), DebugLine, GroupEnd];
  }

  /** The credentials `authenticationSetup` exports are visible to `getSecret` under their variable names. */
  lemma ExportedCredentialsResolve(env: Env, config: Config)
    ensures GetSecret(Authenticated(env, config), TokenVar)
         == if config.apiToken == "" then Err(MissingSecretMessage(TokenVar)) else Ok(config.apiToken)
    ensures GetSecret(Authenticated(env, config), AccountVar)
         == if config.accountId == "" then Err(MissingSecretMessage(AccountVar)) else Ok(config.accountId)
  {
  }

  /** Every group `uploadSecrets` opens is closed again, on success and on failure alike. */
  lemma UploadGroupsBalanced(config: Config, env: Env)
    ensures GroupsBalanced(UploadOutput(config, env))
  {
    var quiet := config.quiet;
    var head := LogInfo(quiet, UploadingMessage(|config.secrets|), false);
    DepthWithoutGroups(head, 0);
    if config.secrets == [] {
      var tail := LogInfo(quiet, NoSecretsMessage, false);
      DepthWithoutGroups(tail, 0);
      DepthConcat(head, tail, 0);
    } else {
      var body := match SecretValues(env, config.secrets)
        case Ok(values) => Emit(quiet, false, SecretValuesLine(values))
        case Err(message) => CatchUpload(quiet, ErrorValue(message)).logged;
      var open := StartGroup(quiet, UploadGroupTitle);
      var close := EndGroup(quiet);
      var d := if quiet then 0 else 1;
      assert Depth(open, 0) == Some(d) by {
        if !quiet { assert Depth(open, 0) == Depth([], 1); }
      }
      assert Depth(close, d) == Some(0) by {
        if !quiet { assert Depth(close, 1) == Depth([], 0); }
      }
      DepthWithoutGroups(body, d);
      DepthConcat(open, body, 0);
      DepthConcat(open + body, close, 0);
      DepthConcat(head, open + body + close, 0);
      assert UploadOutput(config, env) == head + (open + body + close);
    }
  }

  /** The whole of `run` leaves no group open and closes none it did not open. */
  lemma RunGroupsBalanced(config: Config, env: Env)
    ensures GroupsBalanced(RunOutput(config, env))
  {
    var authenticated := Authenticated(env, config);
    UploadNeverThrows(config, authenticated);
    UploadGroupsBalanced(config, authenticated);
    var settle := [InfoLine(CompletedMessage)];
    DepthWithoutGroups(settle, 0);
    DepthConcat(UploadOutput(config, authenticated), settle, 0);
  }

  /**
   * A run of the action: the process environment it shares with the tools it
   * sets up, and everything written to the job log so far.
   */
  class Action {
    const config: Config
    var env: Env
    var output: seq<LogEvent>

    constructor (config: Config, env: Env)
      ensures this.config == config && this.env == env && output == []
    {
      this.config := config;
      this.env := env;
      output := [];
    }

    /** `authenticationSetup`: export the API token and the account id. */
    method AuthenticationSetup()
      modifies this`env
      ensures env == Authenticated(old(env), config)
      ensures env[TokenVar] == config.apiToken && env[AccountVar] == config.accountId
      ensures forall k :: k in old(env) && k != TokenVar && k != AccountVar ==> k in env && env[k] == old(env)[k]
    {
      env := env[TokenVar := config.apiToken];
      env := env[AccountVar := config.accountId];
    }

    /** `uploadSecrets`: resolve every configured secret and log the outcome; nothing escapes it. */
    method UploadSecrets() returns (thrown: Option<Thrown>)
      modifies this`output
      ensures output == old(output) + UploadOutput(config, env)
      ensures thrown == UploadThrown(config, env)
      ensures thrown == None
    {
      var secrets := config.secrets;
      output := output + LogInfo(config.quiet, UploadingMessage(|secrets|), false);
      if |secrets| == 0 {
        output := output + LogInfo(config.quiet, NoSecretsMessage, false);
        return None;
      }
      output := output + StartGroup(config.quiet, UploadGroupTitle);
      thrown := None;
      match SecretValues(env, secrets) {
        case Ok(values) =>
          output := output + Emit(config.quiet, false, SecretValuesLine(values));
        case Err(message) =>
          var caught := CatchUpload(config.quiet, ErrorValue(message));
          output := output + caught.logged;
          thrown := caught.rethrown;
      }
      output := output + EndGroup(config.quiet);
    }

    /** `run`: set up the credentials, upload the secrets, and report the outcome. */
    method Run()
      modifies this
      ensures env == Authenticated(old(env), config)
      ensures output == old(output) + RunOutput(config, old(env))
      ensures ActionFailed(FailedMessage) !in output[|old(output)|..]
      ensures output[|output| - 1] == InfoLine(CompletedMessage)
    {
      AuthenticationSetup();
      var thrown := UploadSecrets();
      output := output + Settle(config.quiet, thrown);
      RunNeverFails(config, old(env));
      assert output[|old(output)|..] == RunOutput(config, old(env));
    }
  }
}
