/** The objects the controller handles: the TfRun custom resource, the Jobs it owns,
    and the two names that a controller fixes per TfRun. */
module Types {

  datatype Option<+T> = None | Some(value: T)

  /* ---------- the custom resource ---------- */

  datatype CloudBackend = CloudBackend(provider: string, hostname: string, organization: string, workspace: string,
                                       environmentId: string, agentPoolId: string, deleteProtection: bool)

  datatype StorageAccount = StorageAccount(accountName: string, containerName: string, key: string)

  datatype Backend = Backend(cloud: Option<CloudBackend>, storageAccount: Option<StorageAccount>)

  datatype Source = Source(repo: string, ref: string, path: string, credentialsSecretRef: string)

  // A variable whose value is None is a null entry of the vars map.
  datatype Spec = Spec(source: Source, vars: map<string, Option<string>>, arguments: map<string, string>,
                       backend: Backend, engine: string, runInterval: Option<int>, credentialsSecretRef: string)

  datatype Phase = NoPhase | Pending | Running | Succeeded | Failed | Destroying

  datatype Status = Status(observedGeneration: nat, phase: Phase, activeJobName: string, activeDestroyJobName: string,
                           workspaceID: string, workspaceReady: bool, workspaceImport: bool, runID: string,
                           lastSpecHash: string, pendingExecHash: string, pendingReason: string,
                           lastRunTime: Option<int>, nextRunTime: Option<int>)

  const EMPTY_STATUS := Status(0, NoPhase, "", "", "", false, false, "", "", "", "", None, None)

  // importId is the value of the import annotation, empty when it is not there.
  datatype TfRun = TfRun(resourceVersion: nat, generation: nat, spec: Spec, status: Status,
                         importId: string, finalizer: bool, deleting: bool)

  /** The generation without the bump of a deletion request: it counts the spec edits. */
  function SpecVersion(t: TfRun): nat {
    if t.deleting && t.generation > 0 then t.generation - 1 else t.generation
  }

  /* ---------- Jobs ---------- */

  datatype JobKind = Apply | Destroy

  // hash is the hash the Job was created for, built the hash of the spec it was built from.
  // The three counts are what the cluster reports; finished is the Job's real fate.
  datatype Job = Job(kind: JobKind, generation: nat, hash: string, built: string,
                     active: nat, succeeded: nat, failed: nat, finished: bool)

  predicate IsJobActive(j: Job) { j.active > 0 }
  predicate IsJobSucceeded(j: Job) { j.succeeded > 0 }
  predicate IsJobFailed(j: Job) { j.failed > 0 }

  /* ---------- spec hash ---------- */

  datatype HashInput = HashInput(repo: string, ref: string, path: string, vars: map<string, Option<string>>,
                                 arguments: map<string, string>, backend: Backend)

  predicate IsHex(c: char) { '0' <= c <= '9' || 'a' <= c <= 'f' }

  predicate IsHash(s: string) { |s| == 16 && forall c | c in s :: IsHex(c) }

  type Hash = s: string | IsHash(s) witness "0000000000000000"

  /** What is fixed for one TfRun: the digest, and the Job names it gives rise to. */
  datatype Config = Config(hash: HashInput -> Hash, jobName: (nat, string) -> string, runId: (nat, string) -> string,
                           destroyName: string)

  function HashInputOf(spec: Spec): HashInput {
    HashInput(spec.source.repo, spec.source.ref, spec.source.path, spec.vars, spec.arguments, spec.backend)
  }

  /** What a new Job is run for: module, ref, path, variables, arguments and backend. */
  predicate SameHashedFields(s: Spec, u: Spec) {
    && s.source.repo == u.source.repo && s.source.ref == u.source.ref && s.source.path == u.source.path
    && s.vars == u.vars && s.arguments == u.arguments && s.backend == u.backend
  }

  /** Exactly these fields are hashed. */
  lemma HashedFieldsExactly(s: Spec, u: Spec)
    ensures HashInputOf(s) == HashInputOf(u) <==> SameHashedFields(s, u)
  {
  }

  function SpecHash(cfg: Config, spec: Spec): Hash {
    cfg.hash(HashInputOf(spec))
  }

  /* ---------- admission and the pure switches ---------- */

  const MIN_INTERVAL := 45 * 60

  function ToLowerChar(c: char): char {
    if 'A' <= c <= 'Z' then (c as int - 'A' as int + 'a' as int) as char else c
  }

  function ToLower(s: string): (r: string)
    ensures |r| == |s| && forall i | 0 <= i < |s| :: r[i] == ToLowerChar(s[i])
  {
    seq(|s|, i requires 0 <= i < |s| => ToLowerChar(s[i]))
  }

  /** The check both webhook validators make on the interval. */
  predicate Admitted(spec: Spec) {
    spec.runInterval.Some? ==> spec.runInterval.value >= MIN_INTERVAL
  }

  predicate EngineSupported(spec: Spec) {
    ToLower(spec.engine) in ["opentofu", "terraform"]
  }

  predicate ProviderSupported(c: CloudBackend) {
    c.provider == "" || ToLower(TrimSpace(c.provider)) == "scalr"
  }

  /** A Job can be built and a workspace asked for. */
  predicate Supported(spec: Spec) {
    EngineSupported(spec) && spec.backend.cloud.Some? && ProviderSupported(spec.backend.cloud.value)
  }

  /** The white space of Unicode. */
  predicate IsSpace(c: char) {
    || c in [' ', '\t', '\n', '\r', '\U{0B}', '\U{0C}', '\U{85}', '\U{A0}', '\U{1680}']
    || '\U{2000}' <= c <= '\U{200A}'
    || c in ['\U{2028}', '\U{2029}', '\U{202F}', '\U{205F}', '\U{3000}']
  }

  function TrimSpace(s: string): string {
    if s != "" && IsSpace(s[0]) then TrimSpace(s[1..])
    else if s != "" && IsSpace(s[|s|-1]) then TrimSpace(s[..|s|-1])
    else s
  }
}
