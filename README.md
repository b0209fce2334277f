# drone-gke deployment pipeline, modelled in Dafny

drone-gke is a Drone CI plugin that deploys Kubernetes manifests to a Google
Kubernetes Engine cluster. A run does the following:

1. It validates its settings.
2. It finds the Google Cloud project.
3. It selects the kubectl binary.
4. It authenticates with `gcloud` and fetches the cluster credentials.
5. It renders the manifest template with built-in and user variables.
6. It drives `kubectl` through these stages, stopping at the first command that fails:
   - version;
   - namespace set-up;
   - validation and apply;
   - rollout waits.

This project models that pipeline. Commands go through a **runner**: a
recording fake that appends each call to a trace. A call is a
program, its arguments, and the text piped to its standard input. A
**failure oracle** (a function from the call's position in the trace and
the call to a bool) decides whether each call fails. Every behaviour of
the pipeline is then a property of the trace it leaves behind.

Modules:

- `Wrappers`: `Option`, `Result`, and `Outcome` (Go's `error` return: nil or not).
- `Inputs`: the plugin settings as a record, and the environment. The environment holds the results of the steps that touch files, standard input, or Go libraries, taken as given.
- `Exec`: the runner class, and `RunInOrder`. `RunInOrder` is the fail-fast reference: it issues a list of calls in order and stops right after the first one that fails. It comes with its laws.
- `Params`: `checkParams` and `validateKubectlVersion`. Each has a specification function and the method that follows the code.
- `Templates`: the template data. Eight built-ins, plus the user's variables, which may not shadow a built-in.
- `Namespaces`: the namespace sanitiser. It lower-cases the name, then replaces every maximal run of characters outside `[a-z0-9.-]` with one `-`.
- `Commands`: the exact command lines, as functions of the settings.
- `Pipeline`:
  - `RunSpec`, a functional specification of a whole run;
  - the full call plan, and the lemmas about it;
  - the class `Plugin`. Its field `kubectlCmd` is the package-level kubectl binary that `run` overwrites. Its methods follow the stages of `main.go` statement by statement. Each method is proved to leave exactly the trace, outcome and binary that the specification gives.

## Model

| member | source | states |
|---|---|---|
| Exec.Runner.constructor | exec.go:8-13 | a fresh runner has an empty trace and the given failure oracle |
| Exec.Runner.Run | exec.go:8-13 | a call without piped input is appended to the trace, and it fails exactly when the oracle says so |
| Exec.Runner.RunWithPipedInput | exec.go:8-13 | a call with its piped input is appended to the trace, and it fails exactly when the oracle says so |
| Exec.RunInOrder | main.go:178-263 | no ensures of its own: the fail-fast reference; its laws are stated by Exec.RunInOrderIssuesPrefix, Exec.RunInOrderOk, Exec.RunInOrderStopsAtFirstFailure, Exec.RunInOrderAllSucceed and Exec.RunInOrderAppend |
| Exec.RunInOrderIssuesPrefix | main.go:178-263 | a fail-fast run only appends. It issues a prefix of its calls: all of them when it succeeds, and, when it fails, the last call issued is a failing one |
| Exec.RunInOrderOk | main.go:178-263 | a fail-fast run succeeds if and only if none of its calls fails |
| Exec.RunInOrderStopsAtFirstFailure | main.go:178-263 | when call k is the first to fail, exactly calls 0..k are issued and nothing after them |
| Exec.RunInOrderAllSucceed | main.go:178-263 | when no call fails, every call is issued in order and the run succeeds |
| Exec.RunInOrderAppend | main.go:178-263 | running a + b is running a, then running b only if all of a succeeded (how sequential stages compose) |
| Params.VersionCheck | main.go:288-308 | an empty version passes; otherwise an empty list gives the "no extra versions" error, and the version passes if and only if it is in the list, else the "must be one of" error |
| Params.ParamsCheck | main.go:266-285 | passes if and only if exactly one of zone and region is set, the cluster name is set, and the version check passes. Each error corresponds exactly to its condition, in order: missing location, both locations, missing cluster name, then the version check |
| Params.ValidateKubectlVersion | main.go:288-308 | the membership loop with early return computes exactly the version verdict |
| Params.CheckParams | main.go:266-285 | the ordered checks compute exactly the settings verdict |
| Templates.Builtins | main.go:398-409 | the built-ins have exactly the eight keys, with the project and cluster name among them |
| Templates.MergedData | main.go:396-430 | with no shadowing: the keys are exactly the built-ins plus the variables; the built-ins keep their values; each variable holds its value, env-expanded only when expansion is on and the value is a string |
| Templates.TemplateData | main.go:396-430 | the in-place merge loop fails if and only if some variable shadows a built-in, and it reports such a key. Otherwise it returns exactly the merged data |
| Namespaces.LowerChar | main.go:464 | an ASCII upper-case letter becomes the lower-case letter at the same alphabet position; every other character is unchanged |
| Namespaces.ToLower | main.go:464 | same length, and each ASCII letter is lower-cased |
| Namespaces.ReplaceInvalidRuns | main.go:52 | the result contains only characters from `[a-z0-9.-]` and is no longer than the input |
| Namespaces.SanitizeNamespace | main.go:464-465 | the sanitised namespace contains only characters from `[a-z0-9.-]` and is no longer than the input |
| Namespaces.DropInvalidRunIsSuffix | main.go:52 | skipping a run of invalid characters drops only that leading run and keeps the rest |
| Namespaces.ReplaceKeepsValidName | main.go:465 | a name made only of valid characters is unchanged |
| Namespaces.ReplaceCopiesValidPrefix | main.go:465 | a valid stretch is copied through unchanged, character for character |
| Namespaces.ReplaceCollapsesInvalidRun | main.go:52 | any maximal run of invalid characters, however long, becomes exactly one `-` |
| Namespaces.DropsWholeRun | main.go:52 | the `+` of the pattern consumes a whole run of invalid characters up to the next valid one |
| Namespaces.SanitizeIdempotent | main.go:464-465 | sanitising a sanitised namespace changes nothing |
| Namespaces.SanitizeExample | main.go:464-465 | `My_NS!` is sanitised to `my-ns-` |
| Commands.Itoa | main.go:560 | the decimal text of the wait timeout is non-empty and starts with `-` exactly for negative numbers, otherwise with a digit |
| Commands.DigitsRoundTrip | main.go:560 | the digits written for a number denote that number |
| Commands.ApplyCmd | main.go:572-587 | no ensures of its own: the exact binary and argument list are stated by Commands.ApplyCmdShape |
| Commands.ApplyCmdShape | main.go:572-587 | the current kubectl binary with `apply --record`, then `--dry-run` exactly on a dry run, then `-f -` |
| Commands.CredentialCalls | main.go:344-373 | exactly two calls; their programs and argument lists are stated by Commands.CredentialCallsShape |
| Commands.VersionCall | main.go:452-454 | no ensures of its own: `<kubectl> version` without input; Pipeline.PlanStartsWithCredentials places it right after the gcloud calls |
| Commands.NamespaceManifest | main.go:44-50 | no ensures of its own: the Namespace object text with the name filled in; Commands.NamespaceCallsShape states it is what the namespace apply pipes in |
| Commands.CredentialCallsShape | main.go:344-373 | `gcloud auth activate-service-account --key-file <path>`, then `gcloud container clusters get-credentials <cluster> --project <project>`, followed by the one location flag, `--zone` or `--region` |
| Commands.ClusterLocation | main.go:472-479 | with exactly one location set, the context's location is that one |
| Commands.NamespaceCalls | main.go:457-498 | no ensures of its own: the calls are stated by Commands.NamespaceCallsShape |
| Commands.NamespaceCallsShape | main.go:457-498 | no calls without a namespace. Otherwise two calls: `config set-context gke_<project>_<location>_<cluster> --namespace <sanitised>`, then a piped apply of the Namespace manifest, with `--dry-run` exactly on a dry run |
| Commands.ApplyCalls | main.go:501-523 | no ensures of its own: the count, order and `--dry-run` placement are stated by Commands.ApplyCallsShape |
| Commands.ApplyCallsShape | main.go:501-523 | one piped apply of the manifest on a dry run, two otherwise. The first always has `--dry-run`, and off a dry run the second has none |
| Commands.RolloutTarget | main.go:532-539 | every target names a kind, and a spec that already contains `/` is unchanged |
| Commands.RolloutTargetIdempotent | main.go:535-537 | a spec without `/` becomes `deployment/<spec>`, and normalising twice changes nothing |
| Commands.RolloutTargets | main.go:532-539 | one target per spec, in the order given |
| Commands.WaitCall | main.go:548-563 | no ensures of its own: the exact argument list is stated by Commands.WaitCallShape |
| Commands.WaitCallShape | main.go:548-563 | `rollout status <target>`, followed by `--namespace <ns>` exactly when the raw namespace is set, behind `timeout <N> <kubectl>` exactly when the wait is not zero |
| Commands.WaitCalls | main.go:544-567 | one status check per target, in the targets' order |
| Pipeline.TemplateGateAsWritten | main.go:218-222 | as written, an empty template read without error reaches `err.Error()` on a nil error, and a read error stops the run |
| Pipeline.TemplateGate | main.go:218-222 | the corrected check lets the run go on if and only if a non-empty template was read, and passes it through unchanged |
| Pipeline.TemplateGateDiffersOnlyOnEmpty | main.go:218-222 | the code as written and the corrected check agree on every input except the empty template |
| Pipeline.ResolvedProject | main.go:184-195 | no ensures of its own: the explicit project, else the one read from the credentials; Pipeline.NothingRunsBeforeValidation states that a missing one stops the run before any command |
| Pipeline.SelectKubectl | main.go:197-201 | no ensures of its own: `kubectl.<version>` when a version is requested, else the current binary; Pipeline.RunFollowsPlan and Pipeline.Plugin.Run state that the run leaves this binary |
| Pipeline.ParseVars | main.go:330-341 | no ensures of its own: an empty setting means no variables, otherwise the decoding, which may fail; Pipeline.NothingRunsBeforeValidation states that a failure stops the run before any command |
| Pipeline.Manifest | main.go:218-240 | no ensures of its own: template check, template data, rendering; Pipeline.ManifestFailsAfterCredentials states that any of its failures stops the run after the gcloud calls |
| Pipeline.Deploy | main.go:242-260 | no ensures of its own: the kubectl stages; Pipeline.DeployFollowsPlan states that they are the fail-fast run of the deploy plan |
| Pipeline.RunSpec | main.go:178-263 | no ensures of its own: a whole run; Pipeline.RunFollowsPlan, Pipeline.NothingRunsBeforeValidation and Pipeline.ManifestFailsAfterCredentials state its trace and outcome, and Pipeline.Plugin.Run that the code leaves exactly this |
| Pipeline.DeployFollowsPlan | main.go:242-260 | the kubectl stages issue exactly the version, namespace, apply and wait calls, fail-fast, and succeed if and only if none of them fails |
| Pipeline.RunFollowsPlan | main.go:178-263 | once the settings, project, variables and manifest are good, a run issues exactly the full plan, stops after the first failing command, succeeds if and only if no command fails, and leaves the selected kubectl binary |
| Pipeline.NothingRunsBeforeValidation | main.go:178-207 | invalid settings, an unknown project or unparsable variables fail the run with no command issued. Invalid settings also leave the kubectl binary untouched and report the settings error |
| Pipeline.ManifestFailsAfterCredentials | main.go:213-240 | a missing or empty template, a shadowing variable or a failed render stops the run with that error, only after both gcloud calls have been issued (or with the gcloud error if one of them failed) |
| Pipeline.ShadowingFailsAfterCredentials | main.go:213-228 | a variable shadowing a built-in stops the run only after both gcloud calls have been issued |
| Pipeline.PlanStartsWithCredentials | main.go:213-245 | the plan has 3 + namespace calls + (1 or 2) applies + one wait per spec calls; it starts with the two `gcloud` calls (activate the service account, then get-credentials), then `kubectl version` |
| Pipeline.PlanValidatesBeforeApplying | main.go:252-255 | after the namespace calls comes a dry-run apply of the manifest, and off a dry run the real apply right after it |
| Pipeline.PlanEndsWithWaits | main.go:257-260 | the plan ends with one status check per wait spec, in list order |
| Pipeline.DryRunOnlyValidates | main.go:501-523 | on a dry run, every apply in the plan carries `--dry-run` |
| Pipeline.Plugin.constructor | main.go:42 | the kubectl binary starts as `kubectl` |
| Pipeline.Plugin.FetchCredentials | main.go:344-373 | issues exactly the two gcloud calls, fail-fast |
| Pipeline.Plugin.PrintKubectlVersion | main.go:452-454 | issues `<kubectl> version` |
| Pipeline.Plugin.SetNamespace | main.go:457-498 | issues exactly the namespace calls, fail-fast |
| Pipeline.Plugin.ApplyManifest | main.go:501-523 | issues exactly the validation and apply calls; a failed validation skips the real apply |
| Pipeline.Plugin.WaitForRollout | main.go:526-570 | normalises the targets in one loop, then issues exactly one status check per target in a second loop, stopping at the first failure |
| Pipeline.Plugin.Run | main.go:178-263 | the run leaves exactly the kubectl binary, trace and outcome of the run specification, including the switch to `kubectl.<version>` when a version is requested |

## Left out

- Process spawning and stream wiring in `BasicRunner` (exec.go:15-60): the runner is a recording fake with a failure oracle.
- Flag declaration and application bootstrap (`getAppFlags`, `wrapMain`): the settings arrive as a ready-made record.
- `readTemplate`, `projectFromServiceAccount` and the JSON decoding in `parseVars` are inputs that may be missing. The same holds for `renderTemplates` (Go's `text/template` with missing keys as errors) and `os.ExpandEnv`: each is an uninterpreted function.
- Logging, `printTrimmedError`, `dumpData` and the verbose dump: output only.
- Error message texts: errors are a datatype naming the failing check or stage, and the text is not modelled.
- Namespaces.ToLower: lower-cases ASCII letters only. Unicode case mapping in `strings.ToLower` is not modelled.
- Templates.TemplateData: Go visits map entries in an unspecified order. The model picks the next key nondeterministically, so when several variables shadow built-ins it states only that the reported key is one of them. At the run level, the error does not carry the key.
- Commands.Itoa: Go's `int` is 64 bits wide. The wait timeout is an unbounded integer, so overflow of the flag value is not modelled.
- The kube-template setting is not read by the pipeline itself: the template always comes from standard input.
- The "no extra kubectl versions" branch of `validateKubectlVersion` is modelled. It cannot be reached through `checkParams`, because splitting the environment variable always yields at least one element (possibly the empty string).

### Where the code differs from the plugin's documented intent

- A variable that shadows a built-in is rejected only after the two gcloud calls have run, not before any command (`Pipeline.ShadowingFailsAfterCredentials`). The model follows the code.
- The same holds for every failure of the manifest step: a template that cannot be read, an empty template, and a render that fails on a missing key. Each of them stops the run after both gcloud calls have run, not with no external command issued (`Pipeline.ManifestFailsAfterCredentials`). The model follows the code.
- `waitForRollout` passes the raw, unsanitised namespace to `--namespace`, while `setNamespace` configures the sanitised one. The model follows the code.
- `setNamespace` chooses the cluster location with two `if` statements, so the region wins when both are set. `checkParams` rules that combination out; `Commands.ClusterLocation` keeps the same order.

## Findings

| source | as written | input that shows it | evidently intended | confidence | as-written member | corrected member |
|---|---|---|---|---|---|---|
| main.go:218-222 | an empty template read without error is logged with `err.Error()` while `err` is nil | an empty manifest template piped to the plugin on standard input | stop the run with an "empty template" error | high (not executed) | Pipeline.TemplateGateAsWritten | Pipeline.TemplateGate |

The rest of the model (`Pipeline.Manifest`, `Pipeline.RunSpec`, `Pipeline.Plugin.Run`)
uses the corrected check. `Pipeline.TemplateGateDiffersOnlyOnEmpty` proves the two
agree everywhere else.
