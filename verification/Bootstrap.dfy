/** The template of a Job: its environment, and what it takes to build one. */
module Bootstrap {
  import opened Types

  datatype EnvValue = Plain(text: string) | FromSecret(secret: string, key: string)

  datatype EnvVar = EnvVar(name: string, value: EnvValue)

  datatype Template = Template(jobName: string, env: seq<EnvVar>, repoURL: string, ref: string)

  datatype BuildError = NoCloudBackend

  datatype Result<+T> = Ok(value: T) | Err(error: BuildError)

  predicate DistinctNames(env: seq<EnvVar>) {
    forall i, j | 0 <= i < j < |env| :: env[i].name != env[j].name
  }

  /* ---------- what the environment is to hold ---------- */

  function VarEntry(vars: map<string, Option<string>>, key: string): EnvVar
    requires key in vars && vars[key].Some?
  {
    EnvVar("TF_VAR_" + key, Plain(vars[key].value))
  }

  /** The non-null variables among these keys, with their raw values. */
  function VarEntries(vars: map<string, Option<string>>, keys: set<string>): set<EnvVar> {
    set key | key in keys && key in vars && vars[key].Some? :: VarEntry(vars, key)
  }

  function TokenName(hostname: string): string {
    "TF_TOKEN_" + seq(|hostname|, i requires 0 <= i < |hostname| => if hostname[i] == '.' then '_' else hostname[i])
  }

  /** The token's name has the host's characters behind its prefix, with every dot replaced. */
  lemma TokenNameIsHost(h: string)
    ensures var name := TokenName(h);
            && |name| == |h| + 9 && name[..9] == "TF_TOKEN_"
            && (forall i | 9 <= i < |name| :: name[i] == if h[i - 9] == '.' then '_' else h[i - 9])
            && '.' !in name
  {
  }

  /** Two hosts share a token's name exactly if they differ in nothing but dots and underscores. */
  lemma TokenNamesAgreeExactly(h: string, other: string)
    ensures TokenName(h) == TokenName(other) <==>
              |h| == |other| && forall i | 0 <= i < |h| :: h[i] == other[i] || {h[i], other[i]} == {'.', '_'}
  {
    var name, name' := TokenName(h), TokenName(other);
    TokenNameIsHost(h);
    TokenNameIsHost(other);
    if name == name' {
      forall i | 0 <= i < |h|
        ensures h[i] == other[i] || {h[i], other[i]} == {'.', '_'}
      {
        var j := i + 9;
        assert name[j] == name'[j];
      }
    }
  }

  function BackendEntries(c: CloudBackend, secret: string): set<EnvVar> {
    {EnvVar("TF_CLOUD_HOSTNAME", Plain(c.hostname)),
     EnvVar("TF_CLOUD_ORGANIZATION", Plain(c.organization)),
     EnvVar("TF_WORKSPACE", Plain(c.workspace))}
    + if secret == "" then {} else {EnvVar(TokenName(c.hostname), FromSecret(secret, "token"))}
  }

  function Entries(env: seq<EnvVar>): set<EnvVar> { set e | e in env }

  /** The entries of the environment that is built for this spec. */
  predicate IsEnvironment(spec: Spec, env: seq<EnvVar>) {
    && spec.backend.cloud.Some? && DistinctNames(env)
    && Entries(env) == VarEntries(spec.vars, spec.vars.Keys)
                       + BackendEntries(spec.backend.cloud.value, spec.credentialsSecretRef)
  }

  /** The names of variables: no entry of the backend is called like one. */
  predicate IsVarName(name: string) { |name| >= 7 && name[..7] == "TF_VAR_" }

  lemma NewEntryIsDistinct(vars: map<string, Option<string>>, keys: set<string>, env: seq<EnvVar>, key: string)
    requires Entries(env) == VarEntries(vars, keys) && DistinctNames(env)
    requires key !in keys && key in vars && vars[key].Some?
    ensures DistinctNames(env + [VarEntry(vars, key)])
    ensures Entries(env + [VarEntry(vars, key)]) == VarEntries(vars, keys + {key})
  {
    var entry := VarEntry(vars, key);
    forall i | 0 <= i < |env|
      ensures env[i].name != entry.name
    {
      assert env[i] in Entries(env);
      var other :| other in keys && other in vars && vars[other].Some? && env[i] == VarEntry(vars, other);
      assert entry.name[7..] == key && env[i].name[7..] == other;
    }
    assert Entries(env + [entry]) == Entries(env) + {entry};
  }

  /** The entries of two lists, one of variables and one without, stay distinct side by side. */
  lemma JoinedStayDistinct(a: seq<EnvVar>, b: seq<EnvVar>)
    requires DistinctNames(a) && DistinctNames(b)
    requires forall e | e in a :: IsVarName(e.name)
    requires forall e | e in b :: !IsVarName(e.name)
    ensures DistinctNames(a + b)
  {
    forall i, j | 0 <= i < j < |a + b|
      ensures (a + b)[i].name != (a + b)[j].name
    {
      if i < |a| <= j {
        assert a[i] in a && b[j - |a|] in b;
      }
    }
  }

  lemma VarsHaveVarNames(vars: map<string, Option<string>>, env: seq<EnvVar>)
    requires Entries(env) == VarEntries(vars, vars.Keys)
    ensures forall e | e in env :: IsVarName(e.name)
  {
    forall e | e in env
      ensures IsVarName(e.name)
    {
      assert e in Entries(env);
    }
  }

  /* ---------- the loops and the list building ---------- */

  /** In whatever order the map is walked. */
  method BuildEnvVars(vars: map<string, Option<string>>) returns (env: seq<EnvVar>)
    ensures DistinctNames(env) && Entries(env) == VarEntries(vars, vars.Keys)
  {
    env := [];
    var keys := vars.Keys;
    ghost var seen := {};
    while keys != {}
      invariant keys + seen == vars.Keys && keys !! seen
      invariant DistinctNames(env) && Entries(env) == VarEntries(vars, seen)
      decreases |keys|
    {
      var key :| key in keys;
      var val := vars[key];
      if val.Some? {
        NewEntryIsDistinct(vars, seen, env, key);
        env := env + [EnvVar("TF_VAR_" + key, Plain(val.value))];
      }
      keys, seen := keys - {key}, seen + {key};
    }
  }

  lemma BackendNamesDiffer(hostname: string)
    ensures var a, b, c, d := "TF_CLOUD_HOSTNAME", "TF_CLOUD_ORGANIZATION", "TF_WORKSPACE", TokenName(hostname);
            && a != b && a != c && a != d && b != c && b != d && c != d
            && !IsVarName(a) && !IsVarName(b) && !IsVarName(c) && !IsVarName(d)
  {
    var a, b, c, d := "TF_CLOUD_HOSTNAME", "TF_CLOUD_ORGANIZATION", "TF_WORKSPACE", TokenName(hostname);
    assert a[3] == 'C' && b[3] == 'C' && c[3] == 'W' && d[3] == 'T' && a[9] == 'H' && b[9] == 'O';
    assert "TF_VAR_"[3] == 'V';
  }

  predicate WithoutVars(env: seq<EnvVar>) { forall e | e in env :: !IsVarName(e.name) }

  lemma EntryAdded(env: seq<EnvVar>, e: EnvVar)
    requires DistinctNames(env) && forall other | other in env :: other.name != e.name
    ensures DistinctNames(env + [e]) && Entries(env + [e]) == Entries(env) + {e}
  {
    assert forall i | 0 <= i < |env| :: env[i] in env;
  }

  lemma ThreeEntries(a: EnvVar, b: EnvVar, c: EnvVar)
    requires a.name != b.name && a.name != c.name && b.name != c.name
    ensures DistinctNames([a, b, c]) && Entries([a, b, c]) == {a, b, c}
  {
  }

  method CloudBackendEnv(spec: Spec) returns (r: Result<seq<EnvVar>>)
    ensures r.Ok? <==> spec.backend.cloud.Some?
    ensures r.Err? ==> r.error == NoCloudBackend
    ensures r.Ok? ==> DistinctNames(r.value) && WithoutVars(r.value)
    ensures r.Ok? ==> Entries(r.value) == BackendEntries(spec.backend.cloud.value, spec.credentialsSecretRef)
  {
    if spec.backend.cloud.None? {
      return Err(NoCloudBackend);
    }
    var c := spec.backend.cloud.value;
    BackendNamesDiffer(c.hostname);
    var hostname := EnvVar("TF_CLOUD_HOSTNAME", Plain(c.hostname));
    var organization := EnvVar("TF_CLOUD_ORGANIZATION", Plain(c.organization));
    var workspace := EnvVar("TF_WORKSPACE", Plain(c.workspace));
    ThreeEntries(hostname, organization, workspace);
    var env := [hostname, organization, workspace];
    if spec.credentialsSecretRef != "" {
      var token := EnvVar(TokenName(c.hostname), FromSecret(spec.credentialsSecretRef, "token"));
      EntryAdded(env, token);
      env := env + [token];
    }
    r := Ok(env);
  }

  /** The repository with the token in front of its host, for https only. */
  function AuthenticatedURL(repo: string, token: string): string {
    if token != "" && |repo| > 8 && repo[..8] == "https://" then "https://" + token + "@" + repo[8..] else repo
  }

  /** A token changes the address exactly for https, and there the scheme, the token and the rest of the address are
      read back from it. */
  lemma TokenIsCutOut(repo: string, token: string)
    ensures var url, n := AuthenticatedURL(repo, token), |token|;
            && (url != repo <==> token != "" && |repo| > 8 && repo[..8] == "https://")
            && (url != repo ==>
                  && |url| == |repo| + n + 1
                  && url[..8] == "https://" && url[8..8 + n] == token && url[8 + n] == '@'
                  && url[..8] + url[9 + n..] == repo)
  {
    var url := AuthenticatedURL(repo, token);
    if token != "" && |repo| > 8 && repo[..8] == "https://" {
      assert |url| == |repo| + |token| + 1;
      assert url[..8] == "https://" && url[8..8 + |token|] == token && url[9 + |token|..] == repo[8..];
      assert repo == repo[..8] + repo[8..];
    }
  }

  /** The environment of a Job: each non-null variable and each backend setting under a name of its own, and nothing
      else; there is none without a cloud backend. */
  method BuildEnv(spec: Spec) returns (r: Result<seq<EnvVar>>)
    ensures r.Ok? <==> spec.backend.cloud.Some?
    ensures r.Err? ==> r.error == NoCloudBackend
    ensures r.Ok? ==> IsEnvironment(spec, r.value)
  {
    var vars := BuildEnvVars(spec.vars);
    var envVars := [] + vars;
    var backend := CloudBackendEnv(spec);
    if backend.Err? {
      return Err(backend.error);
    }
    VarsHaveVarNames(spec.vars, vars);
    JoinedStayDistinct(vars, backend.value);
    envVars := envVars + backend.value;
    assert Entries(envVars) == Entries(vars) + Entries(backend.value);
    r := Ok(envVars);
  }

  /** What a program finds under this name. */
  function Lookup(env: seq<EnvVar>, name: string): Option<EnvValue> {
    if env == [] then None else if env[0].name == name then Some(env[0].value) else Lookup(env[1..], name)
  }

  lemma {:induction false} LookupFinds(env: seq<EnvVar>, name: string)
    requires DistinctNames(env)
    ensures forall e | e in env && e.name == name :: Lookup(env, name) == Some(e.value)
    ensures Lookup(env, name).Some? ==> EnvVar(name, Lookup(env, name).value) in env
  {
    if env != [] {
      LookupFinds(env[1..], name);
      assert env == [env[0]] + env[1..];
    }
  }

  lemma FoundAmongEntries(spec: Spec, env: seq<EnvVar>, name: string)
    requires IsEnvironment(spec, env) && Lookup(env, name).Some?
    ensures var e := EnvVar(name, Lookup(env, name).value);
            e in VarEntries(spec.vars, spec.vars.Keys)
            || e in BackendEntries(spec.backend.cloud.value, spec.credentialsSecretRef)
  {
    LookupFinds(env, name);
    assert EnvVar(name, Lookup(env, name).value) in Entries(env);
  }

  lemma EntryIsFound(env: seq<EnvVar>, e: EnvVar)
    requires DistinctNames(env) && e in Entries(env)
    ensures Lookup(env, e.name) == Some(e.value)
  {
    LookupFinds(env, e.name);
  }

  /** What a program finds in the environment: the backend's settings, and the token where there is a secret. */
  lemma BackendIsSeen(spec: Spec, env: seq<EnvVar>)
    requires IsEnvironment(spec, env)
    ensures var c, secret := spec.backend.cloud.value, spec.credentialsSecretRef;
            && Lookup(env, "TF_CLOUD_HOSTNAME") == Some(Plain(c.hostname))
            && Lookup(env, "TF_CLOUD_ORGANIZATION") == Some(Plain(c.organization))
            && Lookup(env, "TF_WORKSPACE") == Some(Plain(c.workspace))
            && Lookup(env, TokenName(c.hostname)) == (if secret == "" then None else Some(FromSecret(secret, "token")))
  {
    var c, secret := spec.backend.cloud.value, spec.credentialsSecretRef;
    BackendNamesDiffer(c.hostname);
    EntryIsFound(env, EnvVar("TF_CLOUD_HOSTNAME", Plain(c.hostname)));
    EntryIsFound(env, EnvVar("TF_CLOUD_ORGANIZATION", Plain(c.organization)));
    EntryIsFound(env, EnvVar("TF_WORKSPACE", Plain(c.workspace)));
    if secret != "" {
      EntryIsFound(env, EnvVar(TokenName(c.hostname), FromSecret(secret, "token")));
    } else if Lookup(env, TokenName(c.hostname)).Some? {
      FoundAmongEntries(spec, env, TokenName(c.hostname));
    }
  }

  /** And every variable that is not null, with its raw value under its own name, and no other variable. */
  lemma VariablesAreSeen(spec: Spec, env: seq<EnvVar>, key: string)
    requires IsEnvironment(spec, env)
    ensures Lookup(env, "TF_VAR_" + key) ==
              if key in spec.vars && spec.vars[key].Some? then Some(Plain(spec.vars[key].value)) else None
  {
    var name := "TF_VAR_" + key;
    assert name[..7] == "TF_VAR_" && name[7..] == key;
    BackendNamesDiffer(spec.backend.cloud.value.hostname);
    if key in spec.vars && spec.vars[key].Some? {
      EntryIsFound(env, EnvVar(name, Plain(spec.vars[key].value)));
    } else if Lookup(env, name).Some? {
      FoundAmongEntries(spec, env, name);
    }
  }

  /** Nothing is found under any other name. */
  lemma NothingElseIsSeen(spec: Spec, env: seq<EnvVar>, name: string)
    requires IsEnvironment(spec, env) && name !in ["TF_CLOUD_HOSTNAME", "TF_CLOUD_ORGANIZATION", "TF_WORKSPACE"]
    requires name != TokenName(spec.backend.cloud.value.hostname) && (|name| >= 7 ==> name[..7] != "TF_VAR_")
    ensures Lookup(env, name).None?
  {
    if Lookup(env, name).Some? {
      FoundAmongEntries(spec, env, name);
    }
  }
}
