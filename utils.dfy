/**
 * src/utils.ts: the environment lookups `getSecret` and `getEnvVar`, and the
 * quiet-mode gate that decides whether `error`, `info`, `startGroup` and
 * `endGroup` reach the GitHub Actions log.
 *
 * src/main.ts:24-46 and src/main.ts:64-86 are verbatim copies of these
 * functions; both files are modelled by the one definition here.
 */
module Utils {
  import opened Wrappers

  /** The process environment. A name that is not a key reads as `undefined`. */
  type Env = map<string, string>

  /** `process.env[name]` is truthy: present and not the empty string. */
  predicate Defined(env: Env, name: string)
  {
    name in env && env[name] != ""
  }

  const BlankSecretMessage := "Secret name cannot be blank."
  const BlankEnvVarMessage := "Environment variable name is required"

  function MissingSecretMessage(secret: string): string
  {
    "Value for secret " + secret + " not found in environment."
  }

  function MissingEnvVarMessage(name: string): string
  {
    "Environment variable " + name + " is not set"
  }

  /** `getSecret`: the non-empty value stored under a non-blank name, or the Error it throws. */
  function GetSecret(env: Env, secret: string): (r: Result<string, string>)
    ensures r.Ok? <==> secret != "" && Defined(env, secret)
    ensures r.Ok? ==> secret in env && r.value == env[secret] && r.value != ""
    ensures secret == "" ==> r == Err(BlankSecretMessage)
    ensures secret != "" && !Defined(env, secret) ==> r == Err(MissingSecretMessage(secret))
  {
    if secret == "" then Err(BlankSecretMessage)
    else if secret !in env || env[secret] == "" then Err(MissingSecretMessage(secret))
    else Ok(env[secret])
  }

  /** `getEnvVar`: the same guards as `getSecret`, with its own messages. */
  function GetEnvVar(env: Env, name: string): (r: Result<string, string>)
    ensures r.Ok? <==> name != "" && Defined(env, name)
    ensures r.Ok? ==> name in env && r.value == env[name] && r.value != ""
    ensures name == "" ==> r == Err(BlankEnvVarMessage)
    ensures name != "" && !Defined(env, name) ==> r == Err(MissingEnvVarMessage(name))
  {
    if name == "" then Err(BlankEnvVarMessage)
    else if name !in env || env[name] == "" then Err(MissingEnvVarMessage(name))
    else Ok(env[name])
  }

  /** The two lookups accept exactly the same names and return the same values; only the messages differ. */
  lemma GetSecretAgreesWithGetEnvVar(env: Env, name: string)
    ensures GetSecret(env, name).Ok? <==> GetEnvVar(env, name).Ok?
    ensures GetSecret(env, name).Ok? ==> GetSecret(env, name).value == GetEnvVar(env, name).value
  {
  }

  /** A lookup reads the environment at the requested name only. */
  lemma GetSecretReadsOnlyItsName(env1: Env, env2: Env, secret: string)
    requires secret in env1 <==> secret in env2
    requires secret in env1 ==> env1[secret] == env2[secret]
    ensures GetSecret(env1, secret) == GetSecret(env2, secret)
    ensures GetEnvVar(env1, secret) == GetEnvVar(env2, secret)
  {
  }

  /** The "not found" message of `getSecret` names the secret unambiguously. */
  lemma MissingSecretMessageNamesSecret(a: string, b: string)
    requires MissingSecretMessage(a) == MissingSecretMessage(b)
    ensures a == b
  {
    var m := MissingSecretMessage(a);
    assert |a| == |b|;
    assert a == m[17..17 + |a|];
    assert b == MissingSecretMessage(b)[17..17 + |b|];
  }

  /** A blank name and a missing value can always be told apart by the message. */
  lemma SecretFailuresDistinguishable(secret: string)
    ensures BlankSecretMessage != MissingSecretMessage(secret)
    ensures BlankEnvVarMessage != MissingEnvVarMessage(secret)
  {
    assert BlankSecretMessage[0] != MissingSecretMessage(secret)[0];
    var m := MissingEnvVarMessage(secret);
    assert m[|m| - 1] == 't';
    assert BlankEnvVarMessage[|BlankEnvVarMessage| - 1] == 'd';
  }

  // ---------------------------------------------------------------------
  // Log output
  // ---------------------------------------------------------------------

  /**
   * What reaches @actions/core: one event per call that is let through.
   * `SecretValuesLine` is the `info` line carrying `JSON.stringify` of the
   * secret map; `DebugLine` is a `debug` call of @actions/core, which quiet
   * mode does not gate (its text, a stack trace, is not modelled);
   * `ActionFailed` is `setFailed`.
   */
  datatype LogEvent =
    | ErrorLine(message: string)
    | InfoLine(message: string)
    | SecretValuesLine(values: map<string, string>)
    | GroupStart(title: string)
    | GroupEnd
    | DebugLine
    | ActionFailed(message: string)

  /** The quiet-mode gate of `error` and `info`: let through unless quiet, or when bypassed. */
  function Emit(quiet: bool, bypass: bool, event: LogEvent): (out: seq<LogEvent>)
    ensures out == [event] || out == []
    ensures out != [] <==> !quiet || bypass
  {
    if !quiet || bypass then [event] else []
  }

  /** `error`: the error line, unless quiet mode is on and the call does not bypass it. */
  function LogError(quiet: bool, message: string, bypass: bool): (out: seq<LogEvent>)
    ensures out == [ErrorLine(message)] || out == []
    ensures out != [] <==> !quiet || bypass
  {
    Emit(quiet, bypass, ErrorLine(message))
  }

  /** `info`: the info line, unless quiet mode is on and the call does not bypass it. */
  function LogInfo(quiet: bool, message: string, bypass: bool): (out: seq<LogEvent>)
    ensures out == [InfoLine(message)] || out == []
    ensures out != [] <==> !quiet || bypass
  {
    Emit(quiet, bypass, InfoLine(message))
  }

  /** `startGroup` has no bypass: it is shown only outside quiet mode. */
  function StartGroup(quiet: bool, title: string): (out: seq<LogEvent>)
    ensures out == [GroupStart(title)] || out == []
    ensures out != [] <==> !quiet
  {
    Emit(quiet, false, GroupStart(title))
  }

  /** `endGroup` has no bypass: it is shown only outside quiet mode. */
  function EndGroup(quiet: bool): (out: seq<LogEvent>)
    ensures out == [GroupEnd] || out == []
    ensures out != [] <==> !quiet
  {
    Emit(quiet, false, GroupEnd)
  }

  /** A group is opened in the log exactly when its closing call would be shown. */
  lemma GroupGatesAgree(quiet: bool, title: string)
    ensures StartGroup(quiet, title) != [] <==> EndGroup(quiet) != []
    ensures GroupsBalanced(StartGroup(quiet, title) + EndGroup(quiet))
  {
  }

  /** Depth of open groups after `trace`, starting from `open`; None when a group is closed that was never opened. */
  function Depth(trace: seq<LogEvent>, open: nat): Option<nat>
    decreases |trace|
  {
    if trace == [] then Some(open)
    else match trace[0]
      case GroupStart(_) => Depth(trace[1..], open + 1)
      case GroupEnd => if open == 0 then None else Depth(trace[1..], open - 1)
      case _ => Depth(trace[1..], open)
  }

  /** Every `GroupEnd` closes an earlier `GroupStart`, and every group is closed. */
  predicate GroupsBalanced(trace: seq<LogEvent>)
  {
    Depth(trace, 0) == Some(0)
  }

  /** Depth distributes over concatenation. */
  lemma {:induction false} DepthConcat(a: seq<LogEvent>, b: seq<LogEvent>, open: nat)
    ensures Depth(a + b, open) == match Depth(a, open) case None => None case Some(d) => Depth(b, d)
    decreases |a|
  {
    if a == [] {
      assert a + b == b;
    } else {
      assert (a + b)[0] == a[0];
      assert (a + b)[1..] == a[1..] + b;
      match a[0]
      case GroupStart(_) => DepthConcat(a[1..], b, open + 1);
      case GroupEnd => if open > 0 { DepthConcat(a[1..], b, open - 1); }
      case _ => DepthConcat(a[1..], b, open);
    }
  }

  /** A trace with no group events leaves the depth where it was. */
  lemma {:induction false} DepthWithoutGroups(trace: seq<LogEvent>, open: nat)
    requires forall i :: 0 <= i < |trace| ==> !trace[i].GroupStart? && !trace[i].GroupEnd?
    ensures Depth(trace, open) == Some(open)
    decreases |trace|
  {
    if trace != [] {
      DepthWithoutGroups(trace[1..], open);
    }
  }
}
