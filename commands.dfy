/**
 * The command lines the pipeline issues, as pure functions of the settings:
 * the gcloud calls of fetchCredentials, the kubectl calls of setNamespace,
 * applyManifest and waitForRollout, and applyCmd that they share.
 */
module Commands {
  import opened Wrappers
  import opened Inputs
  import opened Exec
  import opened Params
  import opened Namespaces

  const GcloudCmd := "gcloud"
  const KubectlCmdName := "kubectl"
  const TimeoutCmd := "timeout"

  // ----- strconv.Itoa -----

  function DigitChar(d: nat): char
    requires d < 10
  {
    ('0' as int + d) as char
  }

  /** The decimal digits of `n`, most significant first, without leading zeros. */
  function Digits(n: nat): (r: string)
    ensures |r| > 0 && (r[0] != '0' || n == 0)
    ensures forall i :: 0 <= i < |r| ==> '0' <= r[i] <= '9'
    decreases n
  {
    if n < 10 then [DigitChar(n)] else Digits(n / 10) + [DigitChar(n % 10)]
  }

  /** strconv.Itoa: optional minus sign, then the digits. */
  function Itoa(n: int): (r: string)
    ensures |r| > 0
    ensures n < 0 <==> r[0] == '-'
    ensures n >= 0 ==> '0' <= r[0] <= '9'
  {
    if n < 0 then "-" + Digits(-n) else Digits(n)
  }

  /** The value a string of decimal digits denotes. */
  function DigitsValue(s: string): nat
    requires forall i :: 0 <= i < |s| ==> '0' <= s[i] <= '9'
  {
    if s == [] then 0 else 10 * DigitsValue(s[..|s| - 1]) + (s[|s| - 1] as int - '0' as int)
  }

  /** The digits Itoa writes denote the number it was given. */
  lemma {:induction false} DigitsRoundTrip(n: nat)
    ensures DigitsValue(Digits(n)) == n
    decreases n
  {
    if n >= 10 {
      DigitsRoundTrip(n / 10);
      var s := Digits(n);
      assert s[..|s| - 1] == Digits(n / 10);
    }
  }

  // ----- applyCmd -----

  /** applyCmd: the current kubectl binary and `apply --record [--dry-run] -f -`. */
  function ApplyCmd(kubectl: string, dryRun: bool): (string, seq<string>) {
    var args := ["apply", "--record"];
    var args := if dryRun then args + ["--dry-run"] else args;
    (kubectl, args + ["-f", "-"])
  }

  /** The apply command line: `apply --record`, then `--dry-run` exactly on a dry run, then `-f -`. */
  lemma ApplyCmdShape(kubectl: string, dryRun: bool)
    ensures var r := ApplyCmd(kubectl, dryRun);
            && r.0 == kubectl
            && |r.1| == (if dryRun then 5 else 4)
            && r.1[..2] == ["apply", "--record"] && r.1[|r.1| - 2..] == ["-f", "-"]
            && ("--dry-run" in r.1 <==> dryRun)
  {
  }

  /** A kubectl apply, whatever its flags. */
  predicate IsApply(call: Call) {
    |call.args| > 0 && call.args[0] == "apply"
  }

  /** An apply of `manifest`, piped to kubectl's standard input. */
  function PipedApply(kubectl: string, dryRun: bool, manifest: string): Call {
    var (cmd, args) := ApplyCmd(kubectl, dryRun);
    Call(cmd, args, Some(manifest))
  }

  // ----- fetchCredentials -----

  /** The arguments selecting the cluster's zone or region. */
  function LocationArgs(c: Config): seq<string> {
    (if c.zone != "" then ["--zone", c.zone] else []) +
    (if c.region != "" then ["--region", c.region] else [])
  }

  /** fetchCredentials: activate the service account, then fetch cluster credentials. */
  function CredentialCalls(c: Config, credentialsPath: string, project: string): (r: seq<Call>)
    ensures |r| == 2
  {
    var getCredentials := ["container", "clusters", "get-credentials", c.clusterName, "--project", project];
    [Call(GcloudCmd, ["auth", "activate-service-account", "--key-file", credentialsPath], None),
     Call(GcloudCmd, getCredentials + LocationArgs(c), None)]
  }

  /** The two gcloud calls: activate the service account from the key file, then fetch the
      cluster credentials for the project in exactly one location. */
  lemma CredentialCallsShape(c: Config, credentialsPath: string, project: string)
    ensures var r := CredentialCalls(c, credentialsPath, project);
            && r[0].name == GcloudCmd && r[1].name == GcloudCmd
            && r[0].args == ["auth", "activate-service-account", "--key-file", credentialsPath]
            && |r[1].args| >= 6
            && r[1].args[..6] == ["container", "clusters", "get-credentials", c.clusterName, "--project", project]
            && (OneLocation(c) ==>
                  r[1].args[6..] == if c.zone != "" then ["--zone", c.zone] else ["--region", c.region])
            && r[0].input.None? && r[1].input.None?
  {
  }

  // ----- printKubectlVersion -----

  function VersionCall(kubectl: string): Call {
    Call(kubectl, ["version"], None)
  }

  // ----- setNamespace -----

  /** The cluster location segment of the context name: region wins over zone. */
  function ClusterLocation(c: Config): (r: string)
    ensures OneLocation(c) ==> r == if c.zone != "" then c.zone else c.region
  {
    if c.region != "" then c.region else if c.zone != "" then c.zone else ""
  }

  /** The kubectl context gcloud writes for the cluster: gke_<project>_<location>_<cluster>. */
  function ClusterContext(project: string, location: string, cluster: string): string {
    "gke_" + project + "_" + location + "_" + cluster
  }

  /** The Namespace object applied to make sure the namespace exists. */
  function NamespaceManifest(name: string): string {
    "\n---\napiVersion: v1\nkind: Namespace\nmetadata:\n  name: " + name + "\n"
  }

  /**
   * setNamespace: nothing when no namespace is set; otherwise point the
   * cluster's context at the sanitised namespace, then apply a manifest for it.
   */
  function NamespaceCalls(c: Config, project: string, kubectl: string): seq<Call> {
    if c.namespace == "" then []
    else
      var name := SanitizeNamespace(c.namespace);
      var context := ClusterContext(project, ClusterLocation(c), c.clusterName);
      [Call(kubectl, ["config", "set-context", context, "--namespace", name], None),
       PipedApply(kubectl, c.dryRun, NamespaceManifest(name))]
  }

  /**
   * No calls without a namespace; otherwise the context switch to the sanitised
   * name, then an apply, dry-run exactly on a dry run, of the Namespace object.
   */
  lemma NamespaceCallsShape(c: Config, project: string, kubectl: string)
    ensures var r := NamespaceCalls(c, project, kubectl);
            && (c.namespace == "" <==> r == [])
            && (c.namespace != "" ==>
                  var name := SanitizeNamespace(c.namespace);
                  && |r| == 2
                  && r[0] == Call(kubectl, ["config", "set-context",
                                            ClusterContext(project, ClusterLocation(c), c.clusterName),
                                            "--namespace", name], None)
                  && IsApply(r[1]) && r[1].name == kubectl
                  && ("--dry-run" in r[1].args <==> c.dryRun)
                  && r[1].input == Some(NamespaceManifest(name)))
  {
    if c.namespace != "" {
      ApplyCmdShape(kubectl, c.dryRun);
    }
  }

  // ----- applyManifest -----

  /**
   * applyManifest: unless the run is a dry run, validate with a forced dry
   * run first; then apply with the run's own dry-run setting.
   */
  function ApplyCalls(kubectl: string, dryRun: bool, manifest: string): seq<Call> {
    (if dryRun then [] else [PipedApply(kubectl, true, manifest)]) + [PipedApply(kubectl, dryRun, manifest)]
  }

  /**
   * One apply on a dry run, two otherwise; each pipes the manifest to kubectl,
   * the first always with `--dry-run` and, off a dry run, the second without.
   */
  lemma ApplyCallsShape(kubectl: string, dryRun: bool, manifest: string)
    ensures var r := ApplyCalls(kubectl, dryRun, manifest);
            && |r| == (if dryRun then 1 else 2)
            && (forall i :: 0 <= i < |r| ==> IsApply(r[i]) && r[i].name == kubectl && r[i].input == Some(manifest))
            && "--dry-run" in r[0].args
            && (!dryRun ==> "--dry-run" !in r[1].args)
  {
    ApplyCmdShape(kubectl, true);
    ApplyCmdShape(kubectl, dryRun);
  }

  // ----- waitForRollout -----

  /** A wait spec without a kind defaults to a Deployment. */
  function RolloutTarget(spec: string): (r: string)
    ensures '/' in r
    ensures '/' in spec ==> r == spec
  {
    if '/' in spec then spec else "deployment/" + spec
  }

  lemma RolloutTargetIdempotent(spec: string)
    ensures RolloutTarget(RolloutTarget(spec)) == RolloutTarget(spec)
    ensures '/' !in spec ==> RolloutTarget(spec) == "deployment/" + spec
  {
  }

  /** The targets of the wait specs, in the order given. */
  function RolloutTargets(specs: seq<string>): (r: seq<string>)
    ensures |r| == |specs|
    ensures forall i :: 0 <= i < |specs| ==> r[i] == RolloutTarget(specs[i])
  {
    seq(|specs|, i requires 0 <= i < |specs| => RolloutTarget(specs[i]))
  }


  /**
   * The status check for one target: scoped to `namespace` when it is set,
   * and run under `timeout <waitSeconds>` when that is not zero.
   */
  function WaitCall(kubectl: string, target: string, namespace: string, waitSeconds: int): Call {
    var command := ["rollout", "status", target] +
                   (if namespace != "" then ["--namespace", namespace] else []);
    if waitSeconds != 0 then Call(TimeoutCmd, [Itoa(waitSeconds), kubectl] + command, None)
    else Call(kubectl, command, None)
  }

  /**
   * `kubectl rollout status <target>`, behind `timeout <seconds>` when the
   * timeout is not zero and followed by `--namespace <namespace>` when that is set.
   */
  lemma WaitCallShape(kubectl: string, target: string, namespace: string, waitSeconds: int)
    ensures var r := WaitCall(kubectl, target, namespace, waitSeconds);
            && r.input.None?
            && |r.args| == (if waitSeconds == 0 then 3 else 5) + (if namespace == "" then 0 else 2)
            && (waitSeconds == 0 ==> r.name == kubectl && r.args[..3] == ["rollout", "status", target])
            && (waitSeconds != 0 ==>
                  r.name == TimeoutCmd && r.args[..2] == [Itoa(waitSeconds), kubectl] &&
                  r.args[2..5] == ["rollout", "status", target])
            && (namespace != "" ==> r.args[|r.args| - 2..] == ["--namespace", namespace])
  {
  }

  /** One status check per target, in the targets' order. */
  function WaitCalls(kubectl: string, targets: seq<string>, namespace: string, waitSeconds: int): (r: seq<Call>)
    ensures |r| == |targets|
    ensures forall i :: 0 <= i < |targets| ==> r[i] == WaitCall(kubectl, targets[i], namespace, waitSeconds)
  {
    seq(|targets|, i requires 0 <= i < |targets| => WaitCall(kubectl, targets[i], namespace, waitSeconds))
  }

}
