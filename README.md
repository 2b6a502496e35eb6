# cf-pages-secrets, modelled in Dafny

A GitHub Action that exports Cloudflare credentials into the process
environment, resolves a list of secret names against that environment, and
talks to the Cloudflare Pages API v4 to create or look up a project. This
project models its logic and proves what it promises:

- `wrappers.dfy` — `Option` and `Result`.
- `utils.dfy` (module `Utils`, src/utils.ts) — `getSecret` and `getEnvVar`
  over an environment `map<string, string>`, returning the value or the
  message of the Error they throw; the quiet-mode gate of `error`, `info`,
  `startGroup` and `endGroup`, which turns each call into zero or one
  `LogEvent`; and `GroupsBalanced`, the nesting of log groups.
  src/main.ts:24-46 and src/main.ts:64-86 are verbatim copies of these
  functions; the one definition in `Utils` models both copies.
- `main.dfy` (module `Main`, src/main.ts) — the `config` object as a
  `Config` record; the comprehension that builds the secret map
  (`SecretValues`); the pure descriptions of what `uploadSecrets` and `run`
  write to the log (`UploadOutput`, `UploadThrown`, `Settle`, `RunOutput`);
  and a class `Action` whose fields are the process environment and the job
  log, with methods `AuthenticationSetup`, `UploadSecrets` and `Run` that
  update them in place and are proved against those functions. The central
  results are that `run` never reaches `setFailed` (a missing secret is
  logged and swallowed inside `uploadSecrets`), that in quiet mode it writes
  only the bypassed completion line, preceded by the ungated `debug` line of
  the caught Error when a secret lookup failed, and that every log group it
  opens is closed.
- `cf_api.dfy` (module `CfApi`, src/cf-api.ts) — the endpoint URLs, the
  requests `createProject` and `getProject` send, and how each interprets
  the decoded response envelope. The network is the parameter
  `fetch: Request -> Envelope`.

The test `if (data.errors)` at src/cf-api.ts:115 is made explicit as
`ErrorsReading`: `AsWritten` is JavaScript truthiness (any array, the empty
one included), `NonEmpty` is what the test suite expects
(__tests__/cf-api.spec.ts:29-42 feeds `errors: []` to a successful create).
`CreateProject` takes the reading as a parameter; see Findings.

## Model

| member | source | states |
|---|---|---|
| `Utils.GetSecret` | src/utils.ts:33-44 | succeeds iff the name is non-blank and its value is present and non-empty; then returns exactly that stored value; a blank name fails with "Secret name cannot be blank." whatever the environment holds; otherwise fails with "Value for secret NAME not found in environment." |
| `Utils.GetEnvVar` | src/utils.ts:46-55 | succeeds iff the name is non-blank and its value is present and non-empty, returning the stored value; fails with "Environment variable name is required" on a blank name and "Environment variable NAME is not set" on an absent or empty value |
| `Utils.GetSecretAgreesWithGetEnvVar` | src/utils.ts:33-55 | the two lookups accept exactly the same names and return the same values; only the messages differ |
| `Utils.GetSecretReadsOnlyItsName` | src/utils.ts:38-50 | each lookup's outcome depends only on the environment entry of the requested name |
| `Utils.MissingSecretMessageNamesSecret` | src/utils.ts:38-41 | the "not found" message determines the secret name it reports |
| `Utils.SecretFailuresDistinguishable` | src/utils.ts:33-53 | the blank-name message never equals a "not found"/"not set" message, for either lookup |
| `Utils.Emit` | src/utils.ts:9-19 | `error` and `info` emit their line iff quiet mode is off or the call bypasses it, and emit nothing else |
| `Utils.LogError` | src/utils.ts:9-13 | `error` emits its error line iff quiet mode is off or the call bypasses it |
| `Utils.LogInfo` | src/utils.ts:15-19 | `info` emits its info line iff quiet mode is off or the call bypasses it |
| `Utils.StartGroup` | src/utils.ts:21-25 | `startGroup` emits its group start iff quiet mode is off (no bypass) |
| `Utils.EndGroup` | src/utils.ts:27-31 | `endGroup` emits its group end iff quiet mode is off (no bypass) |
| `Utils.GroupGatesAgree` | src/utils.ts:21-31 | a group start is shown exactly when the matching end is, so the pair is always balanced |
| `Main.Authenticated` | src/main.ts:59-62 | the environment after `authenticationSetup`: token and account id set to the config values, every other entry unchanged, no other key added |
| `Main.Action.AuthenticationSetup` | src/main.ts:59-62 | updates the object's environment in place to `Authenticated` of the old one, leaving the log alone |
| `Main.ExportedCredentialsResolve` | src/main.ts:59-75 | after `authenticationSetup`, `getSecret` of either credential variable returns the config value (or reports it missing when that value is empty) |
| `Main.UploadingMessage` | src/main.ts:90 | the first info line of `uploadSecrets`, with the number of configured names in decimal |
| `Main.DecimalString` | src/main.ts:90 | `${n}`: a non-empty string of decimal digits |
| `Main.DecimalStringValue` | src/main.ts:90 | the digits `${n}` writes denote n, with no leading zero |
| `Main.SecretValues` | src/main.ts:99 | the map exists iff every configured name resolves; its keys are exactly the configured names, each mapped to what `getSecret` returns for it |
| `Main.SecretValuesReportsFirstRejection` | src/main.ts:99 | when some name fails, the comprehension fails with the message of the first failing name, and produces no map |
| `Main.EmptySecretsLookNothingUp` | src/main.ts:92-95 | with no secret names, `uploadSecrets` writes the two info lines and its output does not depend on the environment |
| `Main.UploadLogsFirstRejection` | src/main.ts:99-107 | outside quiet mode, a failed lookup logs the first failing name's message as an error line and no secret values line |
| `Main.CatchUpload` | src/main.ts:101-107 | the catch swallows exactly the Errors, logging the message through the quiet gate and the stack through the ungated `debug`; anything else is rethrown as "Failed to upload secrets" with nothing logged |
| `Main.UploadThrown` | src/main.ts:88-111 | what `uploadSecrets` throws: nothing for an empty list or a resolved map, otherwise whatever its catch rethrows |
| `Main.UploadOutput` | src/main.ts:88-111 | what `uploadSecrets` writes: never a failure; outside quiet mode it starts with the uploading line; in quiet mode nothing but the ungated debug line |
| `Main.UploadNeverThrows` | src/main.ts:101-107 | `getSecret` throws only Errors, so the "Failed to upload secrets" rethrow is unreachable and `uploadSecrets` never throws |
| `Main.UploadGroupsBalanced` | src/main.ts:97-110 | on both the success and the failure path, every group `uploadSecrets` opens is closed (the `finally`) |
| `Main.Action.UploadSecrets` | src/main.ts:88-111 | appends exactly `UploadOutput` of the current environment to the log and returns without throwing |
| `Main.RunOutput` | src/main.ts:48-57 | what `run` writes: the output of `uploadSecrets` over the authenticated environment, then what its try/catch writes for how that call ended |
| `Main.Settle` | src/main.ts:48-57 | `setFailed` is reached iff the try block threw, and is then the last event; a normal completion writes only the bypassed completion line |
| `Main.RunNeverFails` | src/main.ts:48-57 | whatever the config and environment, `run` never reaches `setFailed` and ends with the completion line |
| `Main.QuietRunOutput` | src/main.ts:48-111 | in quiet mode `run` writes the ungated debug line and then the bypassed completion line when a lookup failed on a non-empty list, and only the completion line otherwise |
| `Main.RunGroupsBalanced` | src/main.ts:48-57 | the whole output of `run` has balanced log groups |
| `Main.Action.Run` | src/main.ts:48-57 | sets the credentials, appends `RunOutput` of the starting environment to the log, writes no failure and ends with the completion line |
| `CfApi.ProjectsUrl` | src/cf-api.ts:101 | the projects collection of an account: the API base, "/accounts/", the account id, "/pages/projects" |
| `CfApi.ProjectUrl` | src/cf-api.ts:127 | one project: the collection URL, "/", and the unescaped project name |
| `CfApi.ProjectsUrlIdentifiesAccount` | src/cf-api.ts:101 | distinct account ids give distinct collection URLs |
| `CfApi.ProjectUrlIdentifiesProject` | src/cf-api.ts:127 | within an account, distinct project names give distinct project URLs |
| `CfApi.Headers` | src/cf-api.ts:103-108 | the JSON content type, the API email as `X-Auth-Email` and the token as `X-Auth-Key` |
| `CfApi.CreateRequest` | src/cf-api.ts:100-111 | POST to the collection URL with those headers and a body of exactly `name` and `production_branch` |
| `CfApi.GetRequest` | src/cf-api.ts:126-136 | GET of the project URL with the same headers and no body |
| `CfApi.RequestsDifferOnlyInMethodPathBody` | src/cf-api.ts:99-136 | both calls send the same three headers; the get URL is the create URL plus "/" and the name; POST carries exactly `name` and `production_branch`, GET no body |
| `CfApi.ErrorMessages` | src/cf-api.ts:117 | one message per reported error, in order |
| `CfApi.Join` | src/cf-api.ts:117 | `Array.prototype.join`: "" for no parts, otherwise the parts in order with the separator between neighbours |
| `CfApi.JoinAppend` | src/cf-api.ts:117 | joining agrees with the left-to-right accumulation of `Array.prototype.join` |
| `CfApi.JoinEmptyExactly` | src/cf-api.ts:117 | the messages joined with ", " are empty exactly when there are none or one empty message |
| `CfApi.ErrorsReported` | src/cf-api.ts:115 | the errors test under each reading: `errors` present (JavaScript truthiness), or present and non-empty |
| `CfApi.ReadingsDifferOnlyOnEmptyErrors` | src/cf-api.ts:115 | the as-written and the intended errors test disagree exactly on an empty `errors` array |
| `CfApi.CreateProject` | src/cf-api.ts:99-123 | throws "Failed to create project, " plus the joined messages iff the errors test holds; otherwise returns `result.id` when there is a result, and throws (reading `result.name`) when there is none |
| `CfApi.CreateFailsBareExactly` | src/cf-api.ts:115-119 | when the errors test holds, the failure message is the bare prefix exactly when there are no errors or a single one with an empty message |
| `CfApi.CreateReportsSingleError` | src/cf-api.ts:115-119 | a single reported error fails with the prefix followed by that error's message |
| `CfApi.GetProject` | src/cf-api.ts:125-145 | returns `result.id` iff a result with a non-empty id is present, otherwise null; a returned id is never empty |
| `CfApi.GetProjectIgnoresErrors` | src/cf-api.ts:138-145 | `getProject` never depends on `errors`: responses with the same `result` give the same answer |
| `CfApi.CreateAndGetReadTheSameId` | src/cf-api.ts:99-145 | a response from which `createProject` returns a non-empty id makes `getProject` return that same id |
| `CfApi.CreateRejectsEmptyErrorsAsWritten` | src/cf-api.ts:115-119 | as written, a successful response with `errors: []` throws "Failed to create project, " |
| `CfApi.CreateSucceedsWithoutErrors` | src/cf-api.ts:115-122 | read as "errors non-empty", a response with no or empty errors and a result returns `result.id` |

## Left out

- Network transport (`fetch`, `response.json()`): replaced by the parameter `fetch`, a function from request to decoded envelope.
- JSON serialisation: the create body is the list of its fields, and the info line that prints `JSON.stringify` of the secret map is the event `SecretValuesLine` carrying the map itself.
- The response type declarations of src/cf-api.ts:5-97: only `errors[].message`, `result.id` and `result.name` are read, and only those are modelled.
- The creation log line of `createProject` (src/cf-api.ts:121): its output is not part of the model; only the TypeError that evaluating it raises when `result` is null is (`ResultMissing`).
- @actions/core: `getInput`, `getBooleanInput` and `getMultilineInput` become the `Config` record (so the trimming and blank-line filtering of `getMultilineInput` are not modelled, and a blank name can reach `getSecret`); `setFailed` is the `ActionFailed` log event, not a process exit code; `debug(err.stack)` is the payload-free `DebugLine` event, because stack text is engine-specific.
- `process.env` is a plain map: names inherited from `Object.prototype` (such as `toString`) and the case-insensitive environment of Windows are not modelled.
- Module wiring: src/main.ts exports only `run` although the other files import `config`, and src/cf-api.ts reads `CLOUDFLARE_API_EMAIL` and `productionBranch`, which `config` does not define; the client therefore takes its own `ApiConfig` record.
- `isObject`, `deepMerge`, `splitOnFirstOccurrence`, `determineProjectName`, `checkWranglerConfigPath`, `checkProjectExists`, `updateProject` and `deleteProject` are exercised by the tests but have no implementation in the source files; they are not part of this model.
- `createProject` tests the presence of `errors`, not its emptiness; the test suite expects emptiness, and both readings are modelled. `uploadSecrets` logs and swallows the lookup Error, so it never reaches `run`.
- `async`/`await`: every step is awaited in sequence, so the model is sequential.

## Findings

| source | as written | input that shows it | evidently intended | confidence | as-written member | corrected member |
|---|---|---|---|---|---|---|
| src/cf-api.ts:115 | `if (data.errors)` is true for every array, the empty one included, so `createProject` throws "Failed to create project, " | response `{result: {id: "test-project-id"}, errors: []}` | return "test-project-id" (throw only when `errors` is non-empty) | high; not executed | `CfApi.CreateRejectsEmptyErrorsAsWritten` | `CfApi.CreateSucceedsWithoutErrors` |
