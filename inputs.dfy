/**
 * What the pipeline reads from its surroundings: the plugin's settings
 * (command-line flags with their environment fallbacks) and the results of the
 * operations that touch the process environment, the file system or Go's
 * libraries, which the model takes as given.
 */
module Inputs {
  import opened Wrappers

  /** A decoded JSON value, as `json.Unmarshal` produces into `interface{}`.
      Only strings are ever inspected; numbers keep their literal text. */
  datatype Value =
    | Str(s: string)
    | Number(literal: string)
    | Boolean(b: bool)
    | Null
    | List(items: seq<Value>)
    | Object(fields: map<string, Value>)

  /** The plugin settings, one field per flag. */
  datatype Config = Config(
    dryRun: bool,
    verbose: bool,
    project: string,
    zone: string,
    region: string,
    clusterName: string,
    namespace: string,
    kubeTemplate: string,
    varsJson: string,
    expandEnvVars: bool,
    buildNumber: string,
    commit: string,
    branch: string,
    tag: string,
    waitDeployments: seq<string>,
    waitSeconds: int,
    kubectlVersion: string)

  /**
   * The process environment and the operations the model does not interpret:
   * - credentialsPath: GOOGLE_APPLICATION_CREDENTIALS;
   * - extraKubectlVersions: EXTRA_KUBECTL_VERSIONS split on spaces;
   * - serviceAccountProject: the `project_id` read from the credentials file,
   *   None when the file cannot be opened or decoded;
   * - decodeVars: JSON decoding of the vars flag, None on malformed JSON;
   * - template: the manifest template read from standard input, None on error;
   * - expandEnv: environment-variable expansion of a string;
   * - render: template execution with missing keys as errors, None on failure.
   */
  datatype Environment = Environment(
    credentialsPath: string,
    extraKubectlVersions: seq<string>,
    serviceAccountProject: Option<string>,
    decodeVars: string -> Option<map<string, Value>>,
    template: Option<string>,
    expandEnv: string -> string,
    render: (string, map<string, Value>) -> Option<string>)
}
