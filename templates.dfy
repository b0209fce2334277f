/**
 * The data the manifest template is rendered with (templateData): eight
 * built-in keys, then the user's variables, none of which may reuse a
 * built-in name.
 */
module Templates {
  import opened Wrappers
  import opened Inputs

  const BuiltinKeys: set<string> :=
    {"BUILD_NUMBER", "COMMIT", "BRANCH", "TAG", "project", "zone", "cluster-name", "namespace"}

  /** The built-in template variables; secrets are never among them. */
  function Builtins(c: Config, project: string): (m: map<string, Value>)
    ensures m.Keys == BuiltinKeys
    ensures m["project"] == Str(project) && m["cluster-name"] == Str(c.clusterName)
  {
    map[
      "BUILD_NUMBER" := Str(c.buildNumber),
      "COMMIT" := Str(c.commit),
      "BRANCH" := Str(c.branch),
      "TAG" := Str(c.tag),
      "project" := Str(project),
      "zone" := Str(c.zone),
      "cluster-name" := Str(c.clusterName),
      "namespace" := Str(c.namespace)
    ]
  }

  /** Some user variable reuses the name of a built-in. */
  predicate Shadows(vars: map<string, Value>) {
    exists k :: k in vars && k in BuiltinKeys
  }

  /** A user value as merged: strings are env-expanded when `expand` is set. */
  function Expanded(expand: bool, expandEnv: string -> string, v: Value): Value {
    if expand && v.Str? then Str(expandEnv(v.s)) else v
  }

  /** The merged template data when no variable shadows a built-in. */
  function MergedData(c: Config, project: string, vars: map<string, Value>, expandEnv: string -> string): (m: map<string, Value>)
    requires !Shadows(vars)
    ensures m.Keys == BuiltinKeys + vars.Keys
    ensures forall k :: k in BuiltinKeys ==> m[k] == Builtins(c, project)[k]
    ensures forall k :: k in vars ==> m[k] == Expanded(c.expandEnvVars, expandEnv, vars[k])
  {
    Builtins(c, project) + map k | k in vars :: Expanded(c.expandEnvVars, expandEnv, vars[k])
  }

  /** Adding a fresh key after a merge is merging with the key added. */
  lemma InsertAfterMerge(base: map<string, Value>, added: map<string, Value>, k: string, v: Value)
    ensures (base + added)[k := v] == base + added[k := v]
  {
  }

  /**
   * templateData: starts from the built-ins and adds the variables one at a
   * time, in no particular order, failing on the first that shadows an entry.
   */
  method TemplateData(c: Config, project: string, vars: map<string, Value>, expandEnv: string -> string)
    returns (r: Result<map<string, Value>, string>)
    ensures r.Err? <==> Shadows(vars)
    ensures r.Err? ==> r.error in vars && r.error in BuiltinKeys
    ensures r.Ok? ==> !Shadows(vars) && r.value == MergedData(c, project, vars, expandEnv)
  {
    var builtins := Builtins(c, project);
    var data := builtins;
    var todo := vars.Keys;
    ghost var added: map<string, Value> := map[];
    while todo != {}
      invariant todo <= vars.Keys && added.Keys == vars.Keys - todo
      invariant forall k :: k in added ==> k !in BuiltinKeys
      invariant forall k :: k in added ==> added[k] == Expanded(c.expandEnvVars, expandEnv, vars[k])
      invariant data == builtins + added
      decreases todo
    {
      var k :| k in todo;
      if k in data {
        assert k !in added && k in vars && k in BuiltinKeys;
        return Err(k);
      }
      var v := vars[k];
      if c.expandEnvVars && v.Str? {
        v := Str(expandEnv(v.s));
      }
      InsertAfterMerge(builtins, added, k, v);
      data := data[k := v];
      added := added[k := v];
      todo := todo - {k};
    }
    assert added == map k | k in vars :: Expanded(c.expandEnvVars, expandEnv, vars[k]);
    r := Ok(data);
  }
}
