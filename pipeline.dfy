/**
 * The deployment pipeline of main.go: `run` and the stages it drives through
 * the runner, with the kubectl binary the stages use held in a field.
 */
module Pipeline {
  import opened Wrappers
  import opened Inputs
  import opened Exec
  import opened Params
  import opened Templates
  import opened Namespaces
  import opened Commands

  datatype Stage = Credentials | KubectlVersion | Namespace | Apply | Rollout

  datatype RunError =
    | InvalidParams(cause: ConfigError)
    | ProjectInference
    | VarsParse
    | CommandFailed(stage: Stage)
    | TemplateRead
    | EmptyTemplate
    | VarShadows
    | Render

  // ----- reading the template -----

  /** What `run` does with the template it read, as the code is written. */
  datatype Gate = Proceed(text: string) | Stop(error: RunError) | NilDereference

  /**
   * The check after readTemplate as written: an empty template read without
   * error logs `err.Error()` on a nil error, which panics.
   */
  function TemplateGateAsWritten(read: Option<string>): (g: Gate)
    ensures read == Some("") ==> g == NilDereference
    ensures read.None? ==> g == Stop(TemplateRead)
  {
    match read
    case None => Stop(TemplateRead)
    case Some(text) => if text == "" then NilDereference else Proceed(text)
  }

  /** The check after readTemplate as intended: an empty template is an error. */
  function TemplateGate(read: Option<string>): (r: Result<string, RunError>)
    ensures r.Ok? <==> read.Some? && read.value != ""
    ensures r.Ok? ==> r.value == read.value
  {
    match read
    case None => Err(TemplateRead)
    case Some(text) => if text == "" then Err(EmptyTemplate) else Ok(text)
  }

  /** The two agree on every input but the empty template, where only the code as written panics. */
  lemma TemplateGateDiffersOnlyOnEmpty(read: Option<string>)
    ensures read == Some("") ==> TemplateGateAsWritten(read).NilDereference? && TemplateGate(read) == Err(EmptyTemplate)
    ensures read != Some("") ==>
            TemplateGateAsWritten(read) ==
            (match TemplateGate(read) case Ok(t) => Proceed(t) case Err(e) => Stop(e))
  {
  }

  // ----- the pure pieces run uses -----

  /** The project: the explicit one, else the one in the service-account credentials. */
  function ResolvedProject(c: Config, env: Environment): Option<string> {
    if c.project != "" then Some(c.project) else env.serviceAccountProject
  }

  /** parseVars: an empty flag means no variables. */
  function ParseVars(varsJson: string, decode: string -> Option<map<string, Value>>): Option<map<string, Value>> {
    if varsJson == "" then Some(map[]) else decode(varsJson)
  }

  /** The kubectl binary after `run` has looked at the kubectl-version setting. */
  function SelectKubectl(current: string, version: string): string {
    if version != "" then KubectlCmdName + "." + version else current
  }

  /** Template, template data and rendering: the steps between the gcloud and kubectl calls. */
  function Manifest(c: Config, env: Environment, project: string, vars: map<string, Value>): Result<string, RunError> {
    match TemplateGate(env.template)
    case Err(e) => Err(e)
    case Ok(text) =>
      if Shadows(vars) then Err(VarShadows)
      else match env.render(text, MergedData(c, project, vars, env.expandEnv))
        case None => Err(Render)
        case Some(manifest) => Ok(manifest)
  }

  // ----- what a run does -----

  /** The kubectl binary at the end of a run, the calls issued, and the result. */
  datatype Report = Report(kubectl: string, trace: seq<Call>, outcome: Outcome<RunError>)

  /** The kubectl stages, each issued only if the one before succeeded. */
  function Deploy(c: Config, project: string, kubectl: string, manifest: string, fails: Oracle, trace: seq<Call>): Report {
    var version := RunInOrder(fails, trace, [VersionCall(kubectl)]);
    if !version.ok then Report(kubectl, version.trace, Fail(CommandFailed(KubectlVersion)))
    else
      var ns := RunInOrder(fails, version.trace, NamespaceCalls(c, project, kubectl));
      if !ns.ok then Report(kubectl, ns.trace, Fail(CommandFailed(Namespace)))
      else
        var apply := RunInOrder(fails, ns.trace, ApplyCalls(kubectl, c.dryRun, manifest));
        if !apply.ok then Report(kubectl, apply.trace, Fail(CommandFailed(Apply)))
        else
          var waits := WaitCalls(kubectl, RolloutTargets(c.waitDeployments), c.namespace, c.waitSeconds);
          var wait := RunInOrder(fails, apply.trace, waits);
          Report(kubectl, wait.trace, if wait.ok then Pass else Fail(CommandFailed(Rollout)))
  }

  /** A whole run, from the settings, the environment, the runner's answers and the state before. */
  function RunSpec(c: Config, env: Environment, fails: Oracle, kubectl0: string, trace0: seq<Call>): Report {
    var params := ParamsCheck(c, env.extraKubectlVersions);
    if params.Fail? then Report(kubectl0, trace0, Fail(InvalidParams(params.error)))
    else match ResolvedProject(c, env)
      case None => Report(kubectl0, trace0, Fail(ProjectInference))
      case Some(project) =>
        var kubectl := SelectKubectl(kubectl0, c.kubectlVersion);
        match ParseVars(c.varsJson, env.decodeVars)
        case None => Report(kubectl, trace0, Fail(VarsParse))
        case Some(vars) =>
          var creds := RunInOrder(fails, trace0, CredentialCalls(c, env.credentialsPath, project));
          if !creds.ok then Report(kubectl, creds.trace, Fail(CommandFailed(Credentials)))
          else match Manifest(c, env, project, vars)
            case Err(e) => Report(kubectl, creds.trace, Fail(e))
            case Ok(manifest) => Deploy(c, project, kubectl, manifest, fails, creds.trace)
  }

  /** Every kubectl call of a run that gets that far, in order. */
  function DeployPlan(c: Config, project: string, kubectl: string, manifest: string): seq<Call> {
    [VersionCall(kubectl)] + NamespaceCalls(c, project, kubectl) + ApplyCalls(kubectl, c.dryRun, manifest) +
    WaitCalls(kubectl, RolloutTargets(c.waitDeployments), c.namespace, c.waitSeconds)
  }

  /** Every call of a run in which nothing fails, in the order the stages issue them. */
  function FullPlan(c: Config, credentialsPath: string, project: string, kubectl: string, manifest: string): seq<Call> {
    CredentialCalls(c, credentialsPath, project) + DeployPlan(c, project, kubectl, manifest)
  }

  /** The kubectl stages of a run issue exactly the calls of the deploy plan, fail-fast. */
  lemma {:induction false} DeployFollowsPlan(c: Config, project: string, kubectl: string, manifest: string, fails: Oracle, trace: seq<Call>)
    ensures var e := RunInOrder(fails, trace, DeployPlan(c, project, kubectl, manifest));
            var r := Deploy(c, project, kubectl, manifest, fails, trace);
            && r.kubectl == kubectl && r.trace == e.trace && (r.outcome.Pass? <==> e.ok)
  {
    var version := [VersionCall(kubectl)];
    var ns := NamespaceCalls(c, project, kubectl);
    var applies := ApplyCalls(kubectl, c.dryRun, manifest);
    var waits := WaitCalls(kubectl, RolloutTargets(c.waitDeployments), c.namespace, c.waitSeconds);
    RunInOrderAppend(fails, trace, version + ns + applies, waits);
    RunInOrderAppend(fails, trace, version + ns, applies);
    RunInOrderAppend(fails, trace, version, ns);
  }

  /**
   * Once the settings are valid, the project known, the variables parsed and
   * the manifest rendered, a run issues exactly the calls of the full plan,
   * stopping at the first that fails, and succeeds exactly when none fails.
   */
  lemma {:induction false} RunFollowsPlan(c: Config, env: Environment, fails: Oracle, kubectl0: string, trace0: seq<Call>)
    requires ParamsCheck(c, env.extraKubectlVersions).Pass?
    requires ResolvedProject(c, env).Some?
    requires ParseVars(c.varsJson, env.decodeVars).Some?
    requires Manifest(c, env, ResolvedProject(c, env).value, ParseVars(c.varsJson, env.decodeVars).value).Ok?
    ensures var project := ResolvedProject(c, env).value;
            var kubectl := SelectKubectl(kubectl0, c.kubectlVersion);
            var manifest := Manifest(c, env, project, ParseVars(c.varsJson, env.decodeVars).value).value;
            var e := RunInOrder(fails, trace0, FullPlan(c, env.credentialsPath, project, kubectl, manifest));
            var r := RunSpec(c, env, fails, kubectl0, trace0);
            && r.kubectl == kubectl && r.trace == e.trace && (r.outcome.Pass? <==> e.ok)
  {
    var project := ResolvedProject(c, env).value;
    var kubectl := SelectKubectl(kubectl0, c.kubectlVersion);
    var manifest := Manifest(c, env, project, ParseVars(c.varsJson, env.decodeVars).value).value;
    var creds := CredentialCalls(c, env.credentialsPath, project);
    RunInOrderAppend(fails, trace0, creds, DeployPlan(c, project, kubectl, manifest));
    var first := RunInOrder(fails, trace0, creds);
    if first.ok {
      DeployFollowsPlan(c, project, kubectl, manifest, fails, first.trace);
    }
  }

  /** Invalid settings, an unknown project or unparsable variables stop a run before any command. */
  lemma NothingRunsBeforeValidation(c: Config, env: Environment, fails: Oracle, kubectl0: string, trace0: seq<Call>)
    ensures var r := RunSpec(c, env, fails, kubectl0, trace0);
            (ParamsCheck(c, env.extraKubectlVersions).Fail? || ResolvedProject(c, env).None? ||
             ParseVars(c.varsJson, env.decodeVars).None?) ==>
            r.trace == trace0 && r.outcome.Fail?
    ensures var r := RunSpec(c, env, fails, kubectl0, trace0);
            ParamsCheck(c, env.extraKubectlVersions).Fail? ==>
            r.kubectl == kubectl0 && r.outcome == Fail(InvalidParams(ParamsCheck(c, env.extraKubectlVersions).error))
  {
  }

  /**
   * Every failure between the gcloud and kubectl calls (no template, an empty
   * one, a shadowing variable, a failed render) is only noticed after the two
   * gcloud calls have been issued: the run then stops with that error.
   */
  lemma ManifestFailsAfterCredentials(c: Config, env: Environment, fails: Oracle, kubectl0: string, trace0: seq<Call>)
    requires ParamsCheck(c, env.extraKubectlVersions).Pass?
    requires ResolvedProject(c, env).Some?
    requires ParseVars(c.varsJson, env.decodeVars).Some?
    requires Manifest(c, env, ResolvedProject(c, env).value, ParseVars(c.varsJson, env.decodeVars).value).Err?
    ensures var project := ResolvedProject(c, env).value;
            var manifest := Manifest(c, env, project, ParseVars(c.varsJson, env.decodeVars).value);
            var creds := RunInOrder(fails, trace0, CredentialCalls(c, env.credentialsPath, project));
            var r := RunSpec(c, env, fails, kubectl0, trace0);
            && r.trace == creds.trace
            && r.outcome == Fail(if creds.ok then manifest.error else CommandFailed(Credentials))
  {
  }

  /** In particular, a variable that shadows a built-in stops the run after the gcloud calls. */
  lemma ShadowingFailsAfterCredentials(c: Config, env: Environment, fails: Oracle, kubectl0: string, trace0: seq<Call>)
    requires ParamsCheck(c, env.extraKubectlVersions).Pass?
    requires ResolvedProject(c, env).Some?
    requires ParseVars(c.varsJson, env.decodeVars).Some? && Shadows(ParseVars(c.varsJson, env.decodeVars).value)
    requires TemplateGate(env.template).Ok?
    ensures var creds := RunInOrder(fails, trace0, CredentialCalls(c, env.credentialsPath, ResolvedProject(c, env).value));
            var r := RunSpec(c, env, fails, kubectl0, trace0);
            && r.trace == creds.trace
            && r.outcome == Fail(if creds.ok then VarShadows else CommandFailed(Credentials))
  {
    ManifestFailsAfterCredentials(c, env, fails, kubectl0, trace0);
  }

  /** The gcloud calls come first, then the kubectl version query. */
  lemma PlanStartsWithCredentials(c: Config, credentialsPath: string, project: string, kubectl: string, manifest: string)
    ensures var plan := FullPlan(c, credentialsPath, project, kubectl, manifest);
            && |plan| == 3 + |NamespaceCalls(c, project, kubectl)| + (if c.dryRun then 1 else 2) + |c.waitDeployments|
            && plan[0].name == GcloudCmd && plan[1].name == GcloudCmd
            && plan[0].args == ["auth", "activate-service-account", "--key-file", credentialsPath]
            && |plan[1].args| >= 3 && plan[1].args[..3] == ["container", "clusters", "get-credentials"]
            && plan[2] == VersionCall(kubectl)
  {
    CredentialCallsShape(c, credentialsPath, project);
    var creds := CredentialCalls(c, credentialsPath, project);
    var deploy := DeployPlan(c, project, kubectl, manifest);
    var plan := FullPlan(c, credentialsPath, project, kubectl, manifest);
    assert plan == creds + deploy;
    assert plan[1].args[..3] == creds[1].args[..6][..3];
    assert plan[2] == deploy[0];
  }

  /**
   * After the namespace stage the manifest is validated with a forced dry run
   * and, unless the run is a dry run, applied for real right after.
   */
  lemma PlanValidatesBeforeApplying(c: Config, credentialsPath: string, project: string, kubectl: string, manifest: string)
    ensures var plan := FullPlan(c, credentialsPath, project, kubectl, manifest);
            var k := 3 + |NamespaceCalls(c, project, kubectl)|;
            && k + (if c.dryRun then 1 else 2) <= |plan|
            && IsApply(plan[k]) && plan[k].input == Some(manifest) && "--dry-run" in plan[k].args
            && (!c.dryRun ==>
                  IsApply(plan[k + 1]) && plan[k + 1].input == Some(manifest) && "--dry-run" !in plan[k + 1].args)
  {
    ApplyCallsShape(kubectl, c.dryRun, manifest);
    var creds := CredentialCalls(c, credentialsPath, project);
    var ns := NamespaceCalls(c, project, kubectl);
    var applies := ApplyCalls(kubectl, c.dryRun, manifest);
    var waits := WaitCalls(kubectl, RolloutTargets(c.waitDeployments), c.namespace, c.waitSeconds);
    var deploy := DeployPlan(c, project, kubectl, manifest);
    var plan := FullPlan(c, credentialsPath, project, kubectl, manifest);
    var k := 3 + |ns|;
    assert plan == creds + deploy;
    assert deploy == (([VersionCall(kubectl)] + ns) + applies) + waits;
    assert plan[k] == deploy[k - 2] == applies[0];
    if !c.dryRun {
      assert plan[k + 1] == deploy[k - 1] == applies[1];
    }
  }

  /** The plan ends with one status check per target, in list order, and nothing after them. */
  lemma PlanEndsWithWaits(c: Config, credentialsPath: string, project: string, kubectl: string, manifest: string)
    ensures var plan := FullPlan(c, credentialsPath, project, kubectl, manifest);
            var start := |plan| - |c.waitDeployments|;
            && start == 3 + |NamespaceCalls(c, project, kubectl)| + (if c.dryRun then 1 else 2)
            && forall i :: 0 <= i < |c.waitDeployments| ==>
                 plan[start + i] == WaitCall(kubectl, RolloutTarget(c.waitDeployments[i]), c.namespace, c.waitSeconds)
  {
    var creds := CredentialCalls(c, credentialsPath, project);
    var ns := NamespaceCalls(c, project, kubectl);
    var applies := ApplyCalls(kubectl, c.dryRun, manifest);
    var waits := WaitCalls(kubectl, RolloutTargets(c.waitDeployments), c.namespace, c.waitSeconds);
    var deploy := DeployPlan(c, project, kubectl, manifest);
    var plan := FullPlan(c, credentialsPath, project, kubectl, manifest);
    var start := 3 + |ns| + |applies|;
    assert plan == creds + deploy;
    assert deploy == (([VersionCall(kubectl)] + ns) + applies) + waits;
    forall i | 0 <= i < |waits|
      ensures plan[start + i] == waits[i]
    {
      assert plan[start + i] == deploy[start - 2 + i];
    }
  }

  // ----- dry runs -----

  /** Every apply among `calls` carries `--dry-run`: nothing is changed on the cluster. */
  predicate OnlyValidates(calls: seq<Call>) {
    forall i :: 0 <= i < |calls| && IsApply(calls[i]) ==> "--dry-run" in calls[i].args
  }

  lemma OnlyValidatesConcat(a: seq<Call>, b: seq<Call>)
    requires OnlyValidates(a) && OnlyValidates(b)
    ensures OnlyValidates(a + b)
  {
    forall i | 0 <= i < |a + b| && IsApply((a + b)[i])
      ensures "--dry-run" in (a + b)[i].args
    {
      if i >= |a| {
        assert (a + b)[i] == b[i - |a|];
      }
    }
  }

  /** No status check is an apply: its first argument is `rollout` or the timeout in seconds. */
  lemma WaitsAreNotApplies(kubectl: string, targets: seq<string>, namespace: string, waitSeconds: int)
    ensures OnlyValidates(WaitCalls(kubectl, targets, namespace, waitSeconds))
  {
    var waits := WaitCalls(kubectl, targets, namespace, waitSeconds);
    forall i | 0 <= i < |waits|
      ensures !IsApply(waits[i])
    {
      WaitCallShape(kubectl, targets[i], namespace, waitSeconds);
      if waitSeconds != 0 {
        assert waits[i].args[0] == Itoa(waitSeconds);
        assert Itoa(waitSeconds)[0] != "apply"[0];
      }
    }
  }

  /** On a dry run, every apply a run can issue is a dry run: nothing reaches the cluster. */
  lemma {:induction false} DryRunOnlyValidates(c: Config, credentialsPath: string, project: string, kubectl: string, manifest: string)
    requires c.dryRun
    ensures OnlyValidates(FullPlan(c, credentialsPath, project, kubectl, manifest))
  {
    CredentialCallsShape(c, credentialsPath, project);
    NamespaceCallsShape(c, project, kubectl);
    ApplyCallsShape(kubectl, c.dryRun, manifest);
    var creds := CredentialCalls(c, credentialsPath, project);
    var version := [VersionCall(kubectl)];
    var ns := NamespaceCalls(c, project, kubectl);
    var applies := ApplyCalls(kubectl, c.dryRun, manifest);
    var waits := WaitCalls(kubectl, RolloutTargets(c.waitDeployments), c.namespace, c.waitSeconds);
    assert OnlyValidates(creds) && OnlyValidates(version) && OnlyValidates(ns) && OnlyValidates(applies);
    WaitsAreNotApplies(kubectl, RolloutTargets(c.waitDeployments), c.namespace, c.waitSeconds);
    OnlyValidatesConcat(version, ns);
    OnlyValidatesConcat(version + ns, applies);
    OnlyValidatesConcat(version + ns + applies, waits);
    OnlyValidatesConcat(creds, version + ns + applies + waits);
  }

  // ----- the imperative pipeline -----

  class Plugin {
    /** The kubectl binary every kubectl call uses: `kubectl`, or `kubectl.<version>`. */
    var kubectlCmd: string

    constructor ()
      ensures kubectlCmd == KubectlCmdName
    {
      kubectlCmd := KubectlCmdName;
    }

    /** fetchCredentials. */
    method FetchCredentials(c: Config, credentialsPath: string, project: string, runner: Runner) returns (ok: bool)
      modifies runner
      ensures Execution(runner.trace, ok) == RunInOrder(runner.fails, old(runner.trace), CredentialCalls(c, credentialsPath, project))
    {
      ghost var plan := CredentialCalls(c, credentialsPath, project);
      RunInOrderNext(runner.fails, runner.trace, plan);
      ok := runner.Run(GcloudCmd, ["auth", "activate-service-account", "--key-file", credentialsPath]);
      if !ok {
        return;
      }
      var getCredentialsArgs := ["container", "clusters", "get-credentials", c.clusterName, "--project", project];
      if c.zone != "" {
        getCredentialsArgs := getCredentialsArgs + ["--zone", c.zone];
      }
      if c.region != "" {
        getCredentialsArgs := getCredentialsArgs + ["--region", c.region];
      }
      assert plan[1..][0] == Call(GcloudCmd, getCredentialsArgs, None);
      RunInOrderNext(runner.fails, runner.trace, plan[1..]);
      ok := runner.Run(GcloudCmd, getCredentialsArgs);
      assert |plan[1..][1..]| == 0;
    }

    /** printKubectlVersion. */
    method PrintKubectlVersion(runner: Runner) returns (ok: bool)
      modifies runner
      ensures Execution(runner.trace, ok) == RunInOrder(runner.fails, old(runner.trace), [VersionCall(kubectlCmd)])
    {
      ok := runner.Run(kubectlCmd, ["version"]);
    }

    /** setNamespace: the namespace is lower-cased and its invalid runs replaced before use. */
    method SetNamespace(c: Config, project: string, runner: Runner) returns (ok: bool)
      modifies runner
      ensures Execution(runner.trace, ok) == RunInOrder(runner.fails, old(runner.trace), NamespaceCalls(c, project, kubectlCmd))
    {
      var namespace := c.namespace;
      if namespace == "" {
        return true;
      }
      namespace := SanitizeNamespace(namespace);
      var clusterLocation := ClusterLocation(c);
      var context := ClusterContext(project, clusterLocation, c.clusterName);
      ghost var plan := NamespaceCalls(c, project, kubectlCmd);
      RunInOrderNext(runner.fails, runner.trace, plan);
      ok := runner.Run(kubectlCmd, ["config", "set-context", context, "--namespace", namespace]);
      if !ok {
        return;
      }
      var nsManifest := NamespaceManifest(namespace);
      var (cmd, args) := ApplyCmd(kubectlCmd, c.dryRun);
      assert plan[1..][0] == Call(cmd, args, Some(nsManifest));
      RunInOrderNext(runner.fails, runner.trace, plan[1..]);
      ok := runner.RunWithPipedInput(nsManifest, cmd, args);
      assert |plan[1..][1..]| == 0;
    }

    /** applyManifest. */
    method ApplyManifest(c: Config, manifest: string, runner: Runner) returns (ok: bool)
      modifies runner
      ensures Execution(runner.trace, ok) == RunInOrder(runner.fails, old(runner.trace), ApplyCalls(kubectlCmd, c.dryRun, manifest))
    {
      ghost var rest := ApplyCalls(kubectlCmd, c.dryRun, manifest);
      if !c.dryRun {
        var (cmd, args) := ApplyCmd(kubectlCmd, true);
        RunInOrderNext(runner.fails, runner.trace, rest);
        ok := runner.RunWithPipedInput(manifest, cmd, args);
        if !ok {
          return;
        }
        rest := rest[1..];
      }
      var (cmd, args) := ApplyCmd(kubectlCmd, c.dryRun);
      assert rest[0] == Call(cmd, args, Some(manifest));
      RunInOrderNext(runner.fails, runner.trace, rest);
      ok := runner.RunWithPipedInput(manifest, cmd, args);
      assert |rest[1..]| == 0;
    }

    /** waitForRollout: normalise the targets, then check each in turn, stopping at the first failure. */
    method WaitForRollout(c: Config, runner: Runner) returns (ok: bool)
      modifies runner
      ensures Execution(runner.trace, ok) ==
              RunInOrder(runner.fails, old(runner.trace),
                         WaitCalls(kubectlCmd, RolloutTargets(c.waitDeployments), c.namespace, c.waitSeconds))
    {
      var namespace := c.namespace;
      var waitSeconds := c.waitSeconds;
      var specs := c.waitDeployments;
      var waitDeployments: seq<string> := [];
      var i := 0;
      while i < |specs|
        invariant 0 <= i <= |specs|
        invariant |waitDeployments| == i
        invariant forall k :: 0 <= k < i ==> waitDeployments[k] == RolloutTarget(specs[k])
      {
        var deployment := specs[i];
        if '/' !in specs[i] {
          deployment := "deployment/" + deployment;
        }
        waitDeployments := waitDeployments + [deployment];
        i := i + 1;
      }
      assert waitDeployments == RolloutTargets(specs);

      ghost var plan := WaitCalls(kubectlCmd, waitDeployments, namespace, waitSeconds);
      var counter := 0;
      while counter < |waitDeployments|
        invariant 0 <= counter <= |waitDeployments|
        invariant RunInOrder(runner.fails, old(runner.trace), plan) ==
                  RunInOrder(runner.fails, runner.trace, plan[counter..])
      {
        var deployment := waitDeployments[counter];
        var command := ["rollout", "status", deployment];
        if namespace != "" {
          command := command + ["--namespace", namespace];
        }
        var path := kubectlCmd;
        if waitSeconds != 0 {
          command := [Itoa(waitSeconds), path] + command;
          path := TimeoutCmd;
        }
        assert Call(path, command, None) == plan[counter];
        RunInOrderAt(runner.fails, runner.trace, plan, counter);
        ok := runner.Run(path, command);
        if !ok {
          return;
        }
        counter := counter + 1;
      }
      assert |plan[counter..]| == 0;
      ok := true;
    }

    /** run: validate, resolve the project, select kubectl, then drive the stages in order. */
    method Run(c: Config, env: Environment, runner: Runner) returns (r: Outcome<RunError>)
      modifies this, runner
      ensures Report(kubectlCmd, runner.trace, r) == RunSpec(c, env, runner.fails, old(kubectlCmd), old(runner.trace))
    {
      ghost var spec := RunSpec(c, env, runner.fails, kubectlCmd, runner.trace);
      var params := CheckParams(c, env.extraKubectlVersions);
      if params.Fail? {
        return Fail(InvalidParams(params.error));
      }
      var project := c.project;
      if project == "" {
        if env.serviceAccountProject.None? {
          return Fail(ProjectInference);
        }
        project := env.serviceAccountProject.value;
      }
      assert ResolvedProject(c, env) == Some(project);
      if c.kubectlVersion != "" {
        kubectlCmd := KubectlCmdName + "." + c.kubectlVersion;
      }
      assert kubectlCmd == SelectKubectl(old(kubectlCmd), c.kubectlVersion);
      var vars := ParseVars(c.varsJson, env.decodeVars);
      if vars.None? {
        return Fail(VarsParse);
      }
      var ok := FetchCredentials(c, env.credentialsPath, project, runner);
      if !ok {
        return Fail(CommandFailed(Credentials));
      }
      assert spec == match Manifest(c, env, project, vars.value)
        case Err(e) => Report(kubectlCmd, runner.trace, Fail(e))
        case Ok(manifest) => Deploy(c, project, kubectlCmd, manifest, runner.fails, runner.trace);
      var template := TemplateGate(env.template);
      if template.Err? {
        return Fail(template.error);
      }
      var data := TemplateData(c, project, vars.value, env.expandEnv);
      if data.Err? {
        return Fail(VarShadows);
      }
      var manifest := env.render(template.value, data.value);
      if manifest.None? {
        return Fail(Render);
      }
      assert Manifest(c, env, project, vars.value) == Ok(manifest.value);
      assert spec == Deploy(c, project, kubectlCmd, manifest.value, runner.fails, runner.trace);
      ok := PrintKubectlVersion(runner);
      if !ok {
        return Fail(CommandFailed(KubectlVersion));
      }
      ok := SetNamespace(c, project, runner);
      if !ok {
        return Fail(CommandFailed(Namespace));
      }
      ok := ApplyManifest(c, manifest.value, runner);
      if !ok {
        return Fail(CommandFailed(Apply));
      }
      ok := WaitForRollout(c, runner);
      if !ok {
        return Fail(CommandFailed(Rollout));
      }
      return Pass;
    }
  }
}
