/** The cloud integration settings (app/jvp_agent/config.py): identifiers
    read from the first set environment variable of each fallback list, and
    the Vertex AI Search serving-config path built from them. The process
    environment is passed in as a map. */
module Config {
  import opened Wrappers

  type Environment = map<string, string>

  const ProjectKeys: seq<string> := ["VERTEX_PROJECT_ID", "GCP_PROJECT_ID", "PROJECT_ID"]
  const LocationKeys: seq<string> := ["VERTEX_LOCATION", "REGION", "LOCATION"]
  const AgentEngineKeys: seq<string> := ["VERTEX_AGENT_ENGINE_ID", "AGENT_ENGINE_ID"]
  const SearchDataStoreKeys: seq<string> := ["VERTEX_SEARCH_DATA_STORE_ID", "SEARCH_DATA_STORE_ID"]

  /** `os.getenv(key)` is truthy: the variable exists and is not empty. */
  predicate IsSetIn(env: Environment, key: string) {
    key in env && env[key] != ""
  }

  /** The value of the first key that is set, if any. */
  function FirstSet(env: Environment, keys: seq<string>): Option<string> {
    if keys == [] then None
    else if IsSetIn(env, keys[0]) then Some(env[keys[0]])
    else FirstSet(env, keys[1..])
  }

  /** None exactly when no key is set; otherwise the non-empty value of a
      set key all of whose predecessors are unset. */
  lemma {:induction false} FirstSetFacts(env: Environment, keys: seq<string>)
    ensures FirstSet(env, keys).None? <==> forall k :: k in keys ==> !IsSetIn(env, k)
    ensures FirstSet(env, keys).Some? ==> FirstSet(env, keys).value != ""
    ensures FirstSet(env, keys).Some? ==>
      exists i :: 0 <= i < |keys| && IsSetIn(env, keys[i]) && FirstSet(env, keys).value == env[keys[i]] &&
        forall j :: 0 <= j < i ==> !IsSetIn(env, keys[j])
  {
    if keys != [] && !IsSetIn(env, keys[0]) {
      var rest := keys[1..];
      FirstSetFacts(env, rest);
      assert forall k :: k in keys ==> k == keys[0] || k in rest;
      if FirstSet(env, rest).Some? {
        var i :| 0 <= i < |rest| && IsSetIn(env, rest[i]) && FirstSet(env, rest).value == env[rest[i]] &&
          forall j :: 0 <= j < i ==> !IsSetIn(env, rest[j]);
        assert keys[i + 1] == rest[i];
        assert forall j :: 1 <= j < i + 1 ==> keys[j] == rest[j - 1];
      }
    }
  }

  /** `_env`: the keys are tried in order, and the first truthy value wins. */
  method Env(env: Environment, keys: seq<string>) returns (r: Option<string>)
    ensures r == FirstSet(env, keys)
  {
    var i := 0;
    while i < |keys|
      invariant 0 <= i <= |keys|
      invariant FirstSet(env, keys) == FirstSet(env, keys[i..])
    {
      assert keys[i..][1..] == keys[i + 1..];
      if IsSetIn(env, keys[i]) {
        return Some(env[keys[i]]);
      }
      i := i + 1;
    }
    return None;
  }

  /** The four optional identifiers of `Settings`. */
  datatype Settings = Settings(
    projectId: Option<string>,
    location: Option<string>,
    agentEngineId: Option<string>,
    searchDataStoreId: Option<string>)

  /** `Settings()` with its defaults, read from the environment. The defaults
      are evaluated once, when the class is defined, so `env` is the
      environment as it was at import time. */
  method FromEnvironment(env: Environment) returns (s: Settings)
    ensures s.projectId == FirstSet(env, ProjectKeys)
    ensures s.location == FirstSet(env, LocationKeys)
    ensures s.agentEngineId == FirstSet(env, AgentEngineKeys)
    ensures s.searchDataStoreId == FirstSet(env, SearchDataStoreKeys)
  {
    var projectId := Env(env, ProjectKeys);
    var location := Env(env, LocationKeys);
    var agentEngineId := Env(env, AgentEngineKeys);
    var searchDataStoreId := Env(env, SearchDataStoreKeys);
    s := Settings(projectId, location, agentEngineId, searchDataStoreId);
  }

  /** The truthiness of an optional string. */
  predicate Present(o: Option<string>) {
    o.Some? && o.value != ""
  }

  function HasRemoteAgentServices(s: Settings): bool {
    Present(s.projectId) && Present(s.location) && Present(s.agentEngineId)
  }

  function HasVertexSearch(s: Settings): bool {
    Present(s.projectId) && Present(s.location) && Present(s.searchDataStoreId)
  }

  /** Settings read from the environment hold no empty identifier, so each
      capability is on exactly when its identifiers were found. */
  lemma EnvironmentCapabilities(env: Environment)
    ensures HasVertexSearch(Settings(FirstSet(env, ProjectKeys), FirstSet(env, LocationKeys),
        FirstSet(env, AgentEngineKeys), FirstSet(env, SearchDataStoreKeys))) <==>
      (exists k :: k in ProjectKeys && IsSetIn(env, k)) &&
      (exists k :: k in LocationKeys && IsSetIn(env, k)) &&
      (exists k :: k in SearchDataStoreKeys && IsSetIn(env, k))
    ensures HasRemoteAgentServices(Settings(FirstSet(env, ProjectKeys), FirstSet(env, LocationKeys),
        FirstSet(env, AgentEngineKeys), FirstSet(env, SearchDataStoreKeys))) <==>
      (exists k :: k in ProjectKeys && IsSetIn(env, k)) &&
      (exists k :: k in LocationKeys && IsSetIn(env, k)) &&
      (exists k :: k in AgentEngineKeys && IsSetIn(env, k))
  {
    FirstSetFacts(env, ProjectKeys);
    FirstSetFacts(env, LocationKeys);
    FirstSetFacts(env, AgentEngineKeys);
    FirstSetFacts(env, SearchDataStoreKeys);
  }

  const ProjectsSegment := "projects/"
  const LocationsSegment := "/locations/"
  const DataStoresSegment := "/collections/default_collection/dataStores/"
  const ServingConfigSuffix := "/servingConfigs/default_serving_config"

  /** `serving_config_path`: the resource path of the default serving config
      of the search data store, when search is configured. */
  function ServingConfigPath(s: Settings): (r: Option<string>)
    ensures r.None? <==> !HasVertexSearch(s)
  {
    if !HasVertexSearch(s) then None
    else
      Some(ProjectsSegment + (s.projectId.value + (LocationsSegment + (s.location.value
        + (DataStoresSegment + (s.searchDataStoreId.value + ServingConfigSuffix))))))
  }

  /** In a slash-free string followed by a separator that starts with a
      slash, the string ends at the first slash. */
  lemma FirstSlash(a: string, sep: string, b: string)
    requires '/' !in a && sep != [] && sep[0] == '/'
    ensures (a + (sep + b))[|a|] == '/'
    ensures forall i :: 0 <= i < |a| ==> (a + (sep + b))[i] != '/'
  {
  }

  /** Strings joined at such a separator split back at the first slash. */
  lemma SplitAt(a: string, sep: string, b: string, c: string, d: string)
    requires '/' !in a && '/' !in c && sep != [] && sep[0] == '/'
    requires a + (sep + b) == c + (sep + d)
    ensures a == c && b == d
  {
    FirstSlash(a, sep, b);
    FirstSlash(c, sep, d);
    var x := a + (sep + b);
    assert |a| == |c|;
    assert a == x[..|a|] == c;
    assert b == x[|a| + |sep|..] == d;
  }

  /** Identifiers without a slash can be read back from the path: different
      configurations name different serving configs. */
  lemma ServingConfigPathInjective(s: Settings, t: Settings)
    requires HasVertexSearch(s) && HasVertexSearch(t)
    requires '/' !in s.projectId.value && '/' !in s.location.value && '/' !in s.searchDataStoreId.value
    requires '/' !in t.projectId.value && '/' !in t.location.value && '/' !in t.searchDataStoreId.value
    requires ServingConfigPath(s) == ServingConfigPath(t)
    ensures s.projectId == t.projectId && s.location == t.location && s.searchDataStoreId == t.searchDataStoreId
  {
    var p, l, d := s.projectId.value, s.location.value, s.searchDataStoreId.value;
    var p', l', d' := t.projectId.value, t.location.value, t.searchDataStoreId.value;
    var u := LocationsSegment + (l + (DataStoresSegment + (d + ServingConfigSuffix)));
    var u' := LocationsSegment + (l' + (DataStoresSegment + (d' + ServingConfigSuffix)));
    assert ProjectsSegment + (p + u) == ProjectsSegment + (p' + u');
    assert p + u == (ProjectsSegment + (p + u))[|ProjectsSegment|..];
    assert p' + u' == (ProjectsSegment + (p' + u'))[|ProjectsSegment|..];
    SplitAt(p, LocationsSegment, l + (DataStoresSegment + (d + ServingConfigSuffix)),
      p', l' + (DataStoresSegment + (d' + ServingConfigSuffix)));
    SplitAt(l, DataStoresSegment, d + ServingConfigSuffix, l', d' + ServingConfigSuffix);
    assert ServingConfigSuffix + [] == ServingConfigSuffix;
    SplitAt(d, ServingConfigSuffix, [], d', []);
  }
}
