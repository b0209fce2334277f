/** Validation of the plugin settings before anything runs (checkParams). */
module Params {
  import opened Wrappers
  import opened Inputs

  datatype ConfigError =
    | MissingLocation
    | BothLocations
    | MissingClusterName
    | NoExtraVersions(version: string)
    | UnsupportedVersion(version: string, available: seq<string>)

  /** Exactly one of zone and region is set. */
  predicate OneLocation(c: Config) {
    (c.zone == "") != (c.region == "")
  }

  /** The verdict on a requested kubectl version against the available ones. */
  function VersionCheck(version: string, available: seq<string>): (r: Outcome<ConfigError>)
    ensures r.Pass? <==> version == "" || version in available
    ensures r.Fail? && |available| == 0 ==> r.error == NoExtraVersions(version)
    ensures r.Fail? && |available| != 0 ==> r.error == UnsupportedVersion(version, available)
  {
    if version == "" then Pass
    else if |available| == 0 then Fail(NoExtraVersions(version))
    else if version in available then Pass
    else Fail(UnsupportedVersion(version, available))
  }

  /** The verdict on the settings: location first, then cluster name, then version. */
  function ParamsCheck(c: Config, available: seq<string>): (r: Outcome<ConfigError>)
    ensures r.Pass? <==>
            OneLocation(c) && c.clusterName != "" &&
            (c.kubectlVersion == "" || c.kubectlVersion in available)
    ensures r == Fail(MissingLocation) <==> c.zone == "" && c.region == ""
    ensures r == Fail(BothLocations) <==> c.zone != "" && c.region != ""
    ensures r == Fail(MissingClusterName) <==> OneLocation(c) && c.clusterName == ""
    ensures r.Fail? && OneLocation(c) && c.clusterName != "" ==>
            r == VersionCheck(c.kubectlVersion, available)
  {
    if c.zone == "" && c.region == "" then Fail(MissingLocation)
    else if c.zone != "" && c.region != "" then Fail(BothLocations)
    else if c.clusterName == "" then Fail(MissingClusterName)
    else VersionCheck(c.kubectlVersion, available)
  }

  /** validateKubectlVersion: a membership scan with an early return. */
  method ValidateKubectlVersion(version: string, available: seq<string>) returns (r: Outcome<ConfigError>)
    ensures r == VersionCheck(version, available)
  {
    if version == "" {
      return Pass;
    }
    if |available| == 0 {
      return Fail(NoExtraVersions(version));
    }
    var i := 0;
    while i < |available|
      invariant 0 <= i <= |available|
      invariant version !in available[..i]
    {
      if version == available[i] {
        return Pass;
      }
      i := i + 1;
    }
    assert available[..i] == available;
    return Fail(UnsupportedVersion(version, available));
  }

  /** checkParams. */
  method CheckParams(c: Config, available: seq<string>) returns (r: Outcome<ConfigError>)
    ensures r == ParamsCheck(c, available)
  {
    if c.zone == "" && c.region == "" {
      return Fail(MissingLocation);
    }
    if c.zone != "" && c.region != "" {
      return Fail(BothLocations);
    }
    if c.clusterName == "" {
      return Fail(MissingClusterName);
    }
    r := ValidateKubectlVersion(c.kubectlVersion, available);
  }
}
