/** The reconciler: its handlers update their copy of the TfRun in place and talk to the cluster.  Every handler is
    proved to make exactly the calls the state machine makes, with the statuses it makes them with: each call of the
    cluster asks for that, and a reconcile that ends elsewhere than the machine's does not meet its contract. */
module Controller {
  import opened Types
  import opened Machine
  import opened AllInvariants
  import opened Names
  import opened Bootstrap
  import opened Turns
  import opened Theorems
  import opened Replies
  import opened LiveCluster

  // after is the delay of a requeue in seconds, zero for none.
  datatype Result = Result(requeue: bool, after: nat, failed: bool)

  const NOTHING := Result(false, 0, false)

  /** The outcome of a step that ends the reconcile. */
  predicate Ends(r: Result) { r.failed || r.requeue || r.after > 0 }

  /** No reachable controller is about to slice a hash that is too short. */
  lemma NeverPanics(c: Cluster)
    requires c.Valid()
    ensures !c.worker.call.Panicked?
  {
    ControllerIsWellNamed(c.name, c.digest);
    CoreHolds(c.cfg, c.genesis, c.past);
  }

  /** A stored status as every reader may rely on it. */
  predicate SoundStatus(t: TfRun) {
    var s := t.status;
    && (s.pendingExecHash != "" <==> s.pendingReason != "")
    && (s.pendingExecHash != "" ==> IsHash(s.pendingExecHash) && s.pendingExecHash != s.lastSpecHash)
    && (s.workspaceReady ==> s.workspaceID != "") && !s.phase.Destroying?
    && s.observedGeneration <= t.generation
  }

  lemma StoredStatusIsSound(c: Cluster)
    requires c.Valid() && c.stored.Some?
    ensures SoundStatus(c.stored.value)
  {
    ControllerIsWellNamed(c.name, c.digest);
    PendingState(c.cfg, c.genesis, c.past);
    WorkspaceAndPhase(c.cfg, c.genesis, c.past);
    ObservedGenerationGrows(c.cfg, c.genesis, c.past, []);
  }

  lemma RunIsReady(c: Cluster, t: TfRun, hash: string, cause: Cause)
    requires c.Valid() && EngineSupported(t.spec) && c.Stands(t, StartRun(t, hash, cause))
    ensures 8 <= |hash|
    ensures if t.spec.backend.cloud.None? then c.Stands(t, Write(t.status.(phase := Failed), Note))
            else c.worker.call == FetchSecret(hash, cause) && c.worker.mem == t
  {
    NeverPanics(c);
  }

  lemma NamesAreBuilt(c: Cluster, generation: nat, hash: string)
    requires c.Valid() && 8 <= |hash|
    ensures c.cfg.runId(generation, hash) == BuildRunID(generation, hash)
    ensures c.cfg.jobName(generation, hash) == BuildJobName(c.name, BuildRunID(generation, hash))
    ensures c.cfg.destroyName == DestroyName(c.name)
  {
  }

  /** The machine's record, field by field. */
  lemma RecordIsSpelled(cfg: Config, t: TfRun, hash: string, now: int)
    ensures RecordsRun(cfg, t, Machine.RecordRun(cfg, t, hash, now), hash, now)
  {
  }

  class TfRunReconciler {
    const client: Cluster

    constructor (client: Cluster)
      ensures this.client == client
    {
      this.client := client;
    }

    /** The object is there with this status. */
    predicate Stored(s: Status)
      reads client
    {
      client.stored.Some? && client.stored.value.status == s
    }

    /** The object is stored with the record of a Job that was created for this hash. */
    ghost predicate Recorded(t: TfRun, hash: string)
      reads client
    {
      client.stored.Some? && exists now: int :: RecordsRun(client.cfg, t, client.stored.value.status, hash, now)
    }

    /** The seconds until then, if it is set and has not come. */
    function Wait(next: Option<int>): nat
      reads client
    {
      if next.Some? && client.clock < next.value then next.value - client.clock else 0
    }

    /** A Job that was created, if one was, is recorded, and the reconcile comes back when the next run is due. */
    ghost predicate RunReturned(t: TfRun, hash: string, r: Result)
      reads client
    {
      Recorded(t, hash) && r == Result(false, Wait(client.stored.value.status.nextRunTime), false)
    }

    method UpdateStatus(t: LiveTfRun) returns (r: Result)
      requires client.Valid() && client.worker.call.WriteStatus? && t.Value() == client.worker.mem
      requires !client.worker.call.purpose.Cleanup?
      modifies client, t
      ensures client.Valid() && old(client.past) <= client.past && client.hist.runs == old(client.hist.runs)
      ensures r == NOTHING || r == Result(false, 5, true)
      ensures t.Value() == if Ends(r) then old(t.Value()) else Bump(old(t.Value()))
      ensures r == NOTHING ==> Stored(old(t.status))
      ensures Ends(r) || EndsReconcile(old(client.worker.call.purpose)) ==> client.worker.call.Idle?
      ensures !Ends(r) && ResumesAfterWorkspace(old(client.worker.call)) ==>
                client.Stands(t.Value(), AfterWorkspace(client.cfg, t.Value(), client.clock))
    {
      var ok := client.UpdateStatus(t);
      r := if ok then NOTHING else Result(false, 5, true);
    }

    method EnsureFinalizer(t: LiveTfRun) returns (ok: bool)
      requires client.Valid()
      requires client.Stands(t.Value(), if t.finalizer then Start(client.cfg, t.Value(), client.clock)
                                        else Go(t.Value(), AddFinalizer))
      modifies client, t
      ensures client.Valid() && old(client.past) <= client.past && client.hist.runs == old(client.hist.runs)
      ensures if ok then client.Stands(t.Value(), Start(client.cfg, t.Value(), client.clock))
              else client.worker.call.Idle?
    {
      ok := true;
      if !t.finalizer {
        t.finalizer := true;
        var reply := client.UpdateFinalizer(t);
        ok := reply.Updated?;
      }
    }

    /* ---------- the workspace ---------- */

    predicate HasBackend(t: LiveTfRun)
      reads t
    {
      t.spec.backend.cloud.Some? && ProviderSupported(t.spec.backend.cloud.value)
    }

    method EnsureWorkspaceIfNeeded(t: LiveTfRun) returns (r: Result)
      requires client.Valid()
      requires client.Stands(t.Value(), Machine.EnsureWorkspaceIfNeeded(client.cfg, t.Value(), client.clock))
      modifies client, t
      ensures client.Valid() && old(client.past) <= client.past && client.hist.runs == old(client.hist.runs)
      ensures if Ends(r) then client.worker.call.Idle?
              else client.Stands(t.Value(), AfterWorkspace(client.cfg, t.Value(), client.clock))
      ensures r == NOTHING || (r == Result(false, 60, true) && old(t.status.workspaceID) != "")
              || (r == Result(false, 5, true) && old(t.status.workspaceID) == "")
      ensures t.spec == old(t.spec)
    {
      hide IsHistory;
      if t.spec.backend.cloud.None? {
        return NOTHING;
      }
      if t.status.workspaceID != "" {
        if !HasBackend(t) {
          t.status := t.status.(phase := Failed, workspaceReady := false);
          var _ := client.UpdateStatus(t);
          return Result(false, 60, true);
        }
        var found := client.GetWorkspace(t.status.workspaceID);
        if found.None? {
          t.status := t.status.(phase := Failed, workspaceID := "", workspaceReady := false);
          var _ := client.UpdateStatus(t);
          return Result(false, 60, true);
        }
        return NOTHING;
      }
      r := ReconcileWorkspace(t);
    }

    method ReconcileWorkspace(t: LiveTfRun) returns (r: Result)
      requires client.Valid() && t.spec.backend.cloud.Some? && t.status.workspaceID == ""
      requires client.Stands(t.Value(), Machine.EnsureWorkspaceIfNeeded(client.cfg, t.Value(), client.clock))
      modifies client, t
      ensures client.Valid() && old(client.past) <= client.past && client.hist.runs == old(client.hist.runs)
      ensures if Ends(r) then client.worker.call.Idle?
              else client.Stands(t.Value(), AfterWorkspace(client.cfg, t.Value(), client.clock))
      ensures r == NOTHING || r == Result(false, 5, true)
      ensures r == NOTHING ==> Stored(t.status)
      ensures t.spec == old(t.spec)
    {
      hide IsHistory;
      if !HasBackend(t) {
        t.status := t.status.(phase := Failed, workspaceReady := false);
        r := UpdateStatus(t);
        return;
      }
      if t.importId != "" {
        r := ImportScalrWorkspace(t);
        return;
      }
      var workspaceId := client.EnsureWorkspace();
      if workspaceId.None? {
        t.status := t.status.(phase := Failed, workspaceReady := false);
        r := UpdateStatus(t);
        return;
      }
      if workspaceId.value == "" {
        t.status := t.status.(phase := Pending, workspaceReady := false, observedGeneration := t.generation);
        r := UpdateStatus(t);
        return;
      }
      t.status := t.status.(workspaceID := workspaceId.value, workspaceReady := true, phase := Pending,
                            observedGeneration := t.generation);
      r := UpdateStatus(t);
    }

    method ImportScalrWorkspace(t: LiveTfRun) returns (r: Result)
      requires client.Valid() && t.importId != ""
      requires client.worker.call.ImportWorkspace? && t.Value() == client.worker.mem
      modifies client, t
      ensures client.Valid() && old(client.past) <= client.past && client.hist.runs == old(client.hist.runs)
      ensures if Ends(r) then client.worker.call.Idle?
              else client.Stands(t.Value(), AfterWorkspace(client.cfg, t.Value(), client.clock))
      ensures r == NOTHING || r == Result(false, 5, true)
      ensures r == NOTHING ==> Stored(t.status)
      ensures t.spec == old(t.spec)
    {
      hide IsHistory;
      var existing := client.GetWorkspace(t.importId);
      if existing.None? {
        t.status := t.status.(phase := Failed, workspaceReady := false);
        r := UpdateStatus(t);
        return;
      }
      t.status := t.status.(workspaceID := existing.value);
      t.status := t.status.(workspaceReady := true, workspaceImport := true);
      t.status := t.status.(phase := Pending, observedGeneration := t.generation);
      r := UpdateStatus(t);
    }

    /* ---------- the apply side ---------- */

    method GetActiveJobIfAny(t: LiveTfRun) returns (job: Option<Job>, running: bool)
      requires client.Valid() && client.Stands(t.Value(), AfterWorkspace(client.cfg, t.Value(), client.clock))
      modifies client
      ensures client.Valid() && old(client.past) <= client.past && client.hist.runs == old(client.hist.runs)
      ensures client.Stands(t.Value(), Decide(client.cfg, t.Value(), job, client.clock))
      ensures running <==> job.Some? && IsJobActive(job.value)
    {
      if t.status.activeJobName == "" {
        return None, false;
      }
      var reply := client.GetJob(t.status.activeJobName);
      if !reply.Found? {
        return None, false;
      }
      if IsJobActive(reply.job) {
        return Some(reply.job), true;
      }
      return Some(reply.job), false;
    }

    method HandleSpecChange(t: LiveTfRun, currentSpecHash: string, activeJob: Option<Job>, running: bool)
        returns (r: Result, handled: bool)
      requires client.Valid() && client.Stands(t.Value(), Decide(client.cfg, t.Value(), activeJob, client.clock))
      requires currentSpecHash == SpecHash(client.cfg, t.spec)
      requires running <==> activeJob.Some? && IsJobActive(activeJob.value)
      modifies client, t
      ensures client.Valid() && old(client.past) <= client.past && |client.hist.runs| <= |old(client.hist.runs)| + 1
      ensures handled ==> client.worker.call.Idle?
      ensures handled <==> old(t.status.lastSpecHash) != currentSpecHash
      ensures !handled ==> r == NOTHING && unchanged(client) && unchanged(t)
      ensures !r.failed && |client.hist.runs| > |old(client.hist.runs)| ==>
                RunReturned(old(t.Value()), currentSpecHash, r)
      ensures handled && running ==>
                client.hist.runs == old(client.hist.runs) && (r.failed || r == Result(false, 60, false))
      ensures handled && running && !r.failed ==>
                Stored(old(t.status).(pendingExecHash := currentSpecHash, pendingReason := "SpecChange"))
    {
      var specChanged := t.status.lastSpecHash != currentSpecHash;
      if !specChanged {
        return NOTHING, false;
      }
      if running {
        t.status := t.status.(pendingExecHash := currentSpecHash);
        t.status := t.status.(pendingReason := "SpecChange");
        var ok := client.UpdateStatus(t);
        return if ok then Result(false, 60, false) else Result(false, 0, true), true;
      }
      r := CreateNewJob(t, currentSpecHash, SpecChange);
      handled := true;
    }

    method UpdateStatusBasedOnCompletedJob(t: LiveTfRun, job: Job) returns (r: Result)
      requires client.Valid() && client.Stands(t.Value(), ReportCompletion(t.Value(), job, client.clock))
      modifies client, t
      ensures client.Valid() && old(client.past) <= client.past && client.hist.runs == old(client.hist.runs)
      ensures client.worker.call.Idle?
      ensures r == Result(false, 300, false) || r == Result(false, 0, true)
      ensures !r.failed ==>
                Stored(old(t.status).(phase := if job.failed > 0 then Failed
                                               else if job.succeeded > 0 then Succeeded
                                               else old(t.status.phase),
                                      lastRunTime := if job.succeeded > 0 then Some(old(client.clock))
                                                     else old(t.status.lastRunTime)))
    {
      if IsJobSucceeded(job) {
        t.status := t.status.(phase := Succeeded);
        t.status := t.status.(lastRunTime := Some(client.clock));
      }
      if IsJobFailed(job) {
        t.status := t.status.(phase := Failed);
      }
      var ok := client.UpdateStatus(t);
      r := if ok then Result(false, 300, false) else Result(false, 0, true);
    }

    method HandlePendingExecution(t: LiveTfRun) returns (r: Result, handled: bool)
      requires client.Valid() && client.Stands(t.Value(), Decide(client.cfg, t.Value(), None, client.clock))
      requires t.status.lastSpecHash == SpecHash(client.cfg, t.spec)
      modifies client, t
      ensures client.Valid() && old(client.past) <= client.past && |client.hist.runs| <= |old(client.hist.runs)| + 1
      ensures handled ==> client.worker.call.Idle?
      ensures var pending := old(t.status.pendingExecHash);
              handled <==> pending != "" && pending != old(t.status.lastSpecHash)
      ensures !handled ==> unchanged(client) && unchanged(t)
      ensures !r.failed && |client.hist.runs| > |old(client.hist.runs)| ==>
                RunReturned(old(t.Value()), old(t.status.pendingExecHash), r)
    {
      var pendingExists := t.status.pendingExecHash != "" && t.status.pendingExecHash != t.status.lastSpecHash;
      if !pendingExists {
        return Result(true, 0, false), false;
      }
      r := CreateNewJob(t, t.status.pendingExecHash, PendingRun);
      handled := true;
    }

    method HandleIntervalRun(t: LiveTfRun, currentSpecHash: string) returns (r: Result)
      requires client.Valid() && client.Stands(t.Value(), AfterInterval(client.cfg, t.Value(), client.clock))
      requires currentSpecHash == SpecHash(client.cfg, t.spec)
      modifies client, t
      ensures client.Valid() && old(client.past) <= client.past && |client.hist.runs| <= |old(client.hist.runs)| + 1
      ensures client.worker.call.Idle?
      ensures var interval, next := old(t.spec.runInterval), old(t.status.nextRunTime);
              && (interval.None? && next.None? ==> r == NOTHING && unchanged(client))
              && (interval.None? && next.Some? && r == NOTHING ==> Stored(old(t.status).(nextRunTime := None)))
              && (interval.Some? && interval.value < 45 * 60 ==> r == NOTHING)
              && (interval.Some? && interval.value >= 45 * 60 && next.Some? && old(client.clock) < next.value ==>
                    r == Result(false, next.value - old(client.clock), false) && unchanged(client))
      ensures !r.failed && |client.hist.runs| > |old(client.hist.runs)| ==>
                RunReturned(old(t.Value()), currentSpecHash, r)
    {
      hide IsHistory;
      if t.spec.runInterval.None? {
        if t.status.nextRunTime.Some? {
          t.status := t.status.(nextRunTime := None);
          r := UpdateStatus(t);
          return;
        }
        return NOTHING;
      }
      if t.spec.runInterval.value < MIN_INTERVAL {
        t.status := t.status.(phase := Failed);
        var _ := client.UpdateStatus(t);
        return NOTHING;
      }
      if t.status.nextRunTime.Some? && client.clock < t.status.nextRunTime.value {
        return Result(false, t.status.nextRunTime.value - client.clock, false);
      }
      r := CreateNewJob(t, currentSpecHash, IntervalDue);
    }

    /** The template of a Job, or none when it cannot be built: then the failure is to be written. */
    method BuildJob(t: LiveTfRun, jobName: string) returns (template: Option<Template>)
      requires client.Valid()
      requires t.spec.backend.cloud.None? ==> client.Stands(t.Value(), Write(t.status.(phase := Failed), Note))
      requires t.spec.backend.cloud.Some? ==>
                 && (client.worker.call.FetchSecret? || client.worker.call.FetchDestroySecret?)
                 && client.worker.mem == t.Value()
      modifies client
      ensures client.Valid() && old(client.past) <= client.past && client.hist.runs == old(client.hist.runs)
      ensures template.None? ==> client.Stands(t.Value(), Write(t.status.(phase := Failed), Note))
      ensures template.Some? ==>
                && t.spec.backend.cloud.Some?
                && client.Stands(t.Value(), AfterSecretRead(old(client.worker), true))
                && template.value.jobName == jobName && template.value.ref == t.spec.source.ref
                && (exists token :: template.value.repoURL == AuthenticatedURL(t.spec.source.repo, token))
                && IsEnvironment(t.spec, template.value.env)
    {
      var env := BuildEnv(t.spec);
      if env.Err? {
        return None;
      }
      var token := client.ReadToken();
      if token.None? {
        return None;
      }
      var repoURL := AuthenticatedURL(t.spec.source.repo, token.value);
      template := Some(Template(jobName, env.value, repoURL, t.spec.source.ref));
    }

    method NameJob(generation: nat, hash: string) returns (jobName: string)
      requires client.Valid() && 8 <= |hash|
      ensures jobName == client.cfg.jobName(generation, hash)
    {
      NamesAreBuilt(client, generation, hash);
      var runId := BuildRunID(generation, hash);
      jobName := BuildJobName(client.name, runId);
    }

    method CreateNewJob(t: LiveTfRun, hash: string, ghost cause: Cause) returns (r: Result)
      requires client.Valid() && client.Stands(t.Value(), StartRun(t.Value(), hash, cause))
      modifies client, t
      ensures client.Valid() && old(client.past) <= client.past && |client.hist.runs| <= |old(client.hist.runs)| + 1
      ensures client.worker.call.Idle?
      ensures !EngineSupported(old(t.spec)) ==> r == Result(false, 0, true) && unchanged(client)
      ensures !r.failed && |client.hist.runs| > |old(client.hist.runs)| ==> RunReturned(old(t.Value()), hash, r)
    {
      if !EngineSupported(t.spec) {
        return Result(false, 0, true);
      }
      RunIsReady(client, t.Value(), hash, cause);
      r := BuildAndCreateJob(t, hash, cause);
    }

    method BuildAndCreateJob(t: LiveTfRun, hash: string, ghost cause: Cause) returns (r: Result)
      requires client.Valid() && 8 <= |hash|
      requires if t.spec.backend.cloud.None? then client.Stands(t.Value(), Write(t.status.(phase := Failed), Note))
               else client.worker.call == FetchSecret(hash, cause) && client.worker.mem == t.Value()
      modifies client, t
      ensures client.Valid() && old(client.past) <= client.past && |client.hist.runs| <= |old(client.hist.runs)| + 1
      ensures client.worker.call.Idle?
      ensures !r.failed && |client.hist.runs| > |old(client.hist.runs)| ==> RunReturned(old(t.Value()), hash, r)
    {
      hide IsHistory;
      var jobName := NameJob(t.generation, hash);
      var template := BuildJob(t, jobName);
      if template.None? {
        t.status := t.status.(phase := Failed);
        r := UpdateStatus(t);
        return;
      }
      r := CreateJobAndUpdateStatus(t, template.value, hash, jobName, cause);
    }

    method CreateJobAndUpdateStatus(t: LiveTfRun, template: Template, hash: string, jobName: string, ghost cause: Cause)
        returns (r: Result)
      requires client.Valid() && 8 <= |hash| && client.Stands(t.Value(), Go(t.Value(), CreateJob(hash, cause)))
      requires template.jobName == jobName == client.cfg.jobName(t.generation, hash)
      modifies client, t
      ensures client.Valid() && old(client.past) <= client.past && |client.hist.runs| <= |old(client.hist.runs)| + 1
      ensures client.worker.call.Idle?
      ensures r == NOTHING || r == Result(false, 5, true) || r == Result(false, 0, true)
              || (r.after > 0 && !r.requeue && !r.failed)
      ensures !r.failed ==> client.stored.Some? && client.stored.value.status.activeJobName == jobName
                            && client.stored.value.status.phase.Running?
      ensures !r.failed && |client.hist.runs| > |old(client.hist.runs)| ==>
                RunReturned(old(t.Value()), hash, r)
    {
      hide IsHistory;
      NamesAreBuilt(client, t.generation, hash);
      var job := Job(Apply, t.generation, hash, SpecHash(client.cfg, t.spec), 0, 0, 0, false);
      var reply := client.CreateJob(template, job);
      if reply.Exists? {
        r := AdoptJob(jobName);
        return;
      }
      if reply.NotCreated? {
        t.status := t.status.(phase := Failed);
        var _ := client.UpdateStatus(t);
        return Result(false, 0, true);
      }
      RecordRun(t, hash, jobName);
      RecordIsSpelled(client.cfg, old(t.Value()), hash, client.clock);
      var ok := client.UpdateStatus(t);
      if !ok {
        return Result(false, 0, true);
      }
      r := if t.spec.runInterval.Some? then Result(false, Wait(t.status.nextRunTime), false) else NOTHING;
    }

    /** The record of a created Job, in the copy. */
    method RecordRun(t: LiveTfRun, hash: string, jobName: string)
      requires 8 <= |hash| && jobName == client.cfg.jobName(t.generation, hash)
      requires BuildRunID(t.generation, hash) == client.cfg.runId(t.generation, hash)
      modifies t
      ensures t.Value() ==
                old(t.Value()).(status := Machine.RecordRun(client.cfg, old(t.Value()), hash, client.clock))
    {
      t.status := t.status.(activeJobName := jobName);
      t.status := t.status.(runID := BuildRunID(t.generation, hash));
      t.status := t.status.(lastSpecHash := hash);
      t.status := t.status.(phase := Running);
      t.status := t.status.(observedGeneration := t.generation);
      t.status := t.status.(pendingExecHash := "", pendingReason := "");
      if t.spec.runInterval.Some? {
        var now := client.clock;
        t.status := t.status.(lastRunTime := Some(now));
        t.status := t.status.(nextRunTime := Some(now + t.spec.runInterval.value));
      } else {
        t.status := t.status.(nextRunTime := None);
      }
    }

    /** The Job of this name is there already: it is recorded in a fresh copy. */
    method AdoptJob(jobName: string) returns (r: Result)
      requires client.Valid() && client.worker.call == RefetchToAdopt(jobName)
      modifies client
      ensures client.Valid() && old(client.past) <= client.past && client.hist.runs == old(client.hist.runs)
      ensures client.worker.call.Idle?
      ensures r == NOTHING || r == Result(false, 5, true) || r == Result(false, 0, true)
      ensures r == NOTHING ==> client.stored.Some? && client.stored.value.status.activeJobName == jobName
                               && client.stored.value.status.phase.Running?
    {
      hide IsHistory;
      var reply := client.Get();
      if !reply.Ok? {
        return Result(false, 0, true);
      }
      var latest := new LiveTfRun(reply.run);
      latest.status := latest.status.(activeJobName := jobName);
      latest.status := latest.status.(phase := Running);
      latest.status := latest.status.(observedGeneration := latest.generation);
      r := UpdateStatus(latest);
    }

    /* ---------- deletion ---------- */

    method HandleDeletion(t: LiveTfRun) returns (r: Result)
      requires client.Valid() && client.Stands(t.Value(), BeginDeletion(t.Value()))
      modifies client, t
      ensures client.Valid() && old(client.past) <= client.past && client.hist.runs == old(client.hist.runs)
      ensures client.worker.call.Idle?
      ensures old(t.status.activeDestroyJobName) == "" && !EngineSupported(old(t.spec)) ==>
                r == Result(false, 0, true) && unchanged(client)
      ensures old(t.status.activeDestroyJobName) == "" && (r == NOTHING || r == Result(false, 30, false)) ==>
                AwaitsDestroyJob(DestroyName(client.name))
    {
      if t.status.activeDestroyJobName != "" {
        r := HandleDestroyJob(t);
        return;
      }
      if !EngineSupported(t.spec) {
        return Result(false, 0, true);
      }
      var jobName := DestroyName(client.name);
      var existing := client.GetJob(jobName);
      if existing.Found? {
        r := AdoptDestroyJob(t, jobName);
        return;
      }
      r := CreateDestroyJob(t, jobName);
    }

    /** The object is stored with this destroy Job. */
    predicate AwaitsDestroyJob(jobName: string)
      reads client
    {
      client.stored.Some? && client.stored.value.status.activeDestroyJobName == jobName
      && client.stored.value.status.phase.Pending?
    }

    method AdoptDestroyJob(t: LiveTfRun, jobName: string) returns (r: Result)
      requires client.Valid() && client.worker.call.RefetchForDestroy? && jobName == client.cfg.destroyName
      modifies client, t
      ensures client.Valid() && old(client.past) <= client.past && client.hist.runs == old(client.hist.runs)
      ensures client.worker.call.Idle?
      ensures r == Result(false, 30, false) || r == Result(false, 0, true)
      ensures !r.failed ==> AwaitsDestroyJob(jobName)
    {
      hide IsHistory;
      var reply := client.Get();
      if !reply.Ok? {
        return Result(false, 0, true);
      }
      t.Become(reply.run);
      t.status := t.status.(activeDestroyJobName := jobName);
      t.status := t.status.(phase := Pending);
      var ok := client.UpdateStatus(t);
      r := if ok then Result(false, 30, false) else Result(false, 0, true);
    }

    method CreateDestroyJob(t: LiveTfRun, jobName: string) returns (r: Result)
      requires client.Valid() && client.Stands(t.Value(), BuildDestroy(t.Value())) && jobName == client.cfg.destroyName
      modifies client, t
      ensures client.Valid() && old(client.past) <= client.past && client.hist.runs == old(client.hist.runs)
      ensures client.worker.call.Idle?
      ensures r == NOTHING || r == Result(false, 60, false) || r == Result(false, 0, true)
      ensures r == NOTHING ==> AwaitsDestroyJob(jobName)
    {
      hide IsHistory;
      var template := BuildJob(t, jobName);
      if template.None? {
        t.status := t.status.(phase := Failed);
        var _ := client.UpdateStatus(t);
        return Result(false, 0, true);
      }
      r := StartDestroyJob(t, template.value, jobName);
    }

    method StartDestroyJob(t: LiveTfRun, template: Template, jobName: string) returns (r: Result)
      requires client.Valid() && client.worker.call.CreateDestroyJob? && client.worker.mem == t.Value()
      requires template.jobName == jobName == client.cfg.destroyName
      modifies client, t
      ensures client.Valid() && old(client.past) <= client.past && client.hist.runs == old(client.hist.runs)
      ensures client.worker.call.Idle?
      ensures r == NOTHING || r == Result(false, 60, false) || r == Result(false, 0, true)
      ensures r == NOTHING ==> AwaitsDestroyJob(jobName)
    {
      hide IsHistory;
      var built := SpecHash(client.cfg, t.spec);
      var reply := client.CreateJob(template, Job(Destroy, t.generation, built, built, 0, 0, 0, false));
      if reply.NotCreated? {
        t.status := t.status.(phase := Failed);
        return Result(false, 0, true);
      }
      var ok := RecordDestroyJob(t, jobName);
      r := if reply.Exists? then Result(false, 60, false) else Result(false, 0, !ok);
    }

    method RecordDestroyJob(t: LiveTfRun, jobName: string) returns (ok: bool)
      requires client.Valid()
      requires client.Stands(t.Value(), Write(t.status.(activeDestroyJobName := jobName, phase := Pending,
                                                        observedGeneration := t.generation), Note))
      modifies client, t
      ensures client.Valid() && old(client.past) <= client.past && client.hist.runs == old(client.hist.runs)
      ensures client.worker.call.Idle?
      ensures ok ==> AwaitsDestroyJob(jobName)
    {
      t.status := t.status.(activeDestroyJobName := jobName);
      t.status := t.status.(phase := Pending);
      t.status := t.status.(observedGeneration := t.generation);
      ok := client.UpdateStatus(t);
    }

    method HandleDestroyJob(t: LiveTfRun) returns (r: Result)
      requires client.Valid() && client.Stands(t.Value(), Go(t.Value(), FetchDestroyJob))
      modifies client, t
      ensures client.Valid() && old(client.past) <= client.past && client.hist.runs == old(client.hist.runs)
      ensures client.worker.call.Idle?
    {
      hide IsHistory;
      var reply := client.GetJob(t.status.activeDestroyJobName);
      r := SettleDestroyJob(t, reply);
    }

    /** What the state of the destroy Job calls for.  One that cannot be read, is running or has not counted any pod yet
        leaves the cluster as it is; only one that is gone or has succeeded lets the object go, and a failed one ends
        the reconcile. */
    method SettleDestroyJob(t: LiveTfRun, reply: JobReply) returns (r: Result)
      requires client.Valid() && client.Stands(t.Value(), AfterDestroyJobRead(t.Value(), reply))
      modifies client, t
      ensures client.Valid() && old(client.past) <= client.past && client.hist.runs == old(client.hist.runs)
      ensures client.worker.call.Idle?
      ensures reply.Unreadable? ==> r == Result(false, 0, true) && unchanged(client) && unchanged(t)
      ensures reply.Found? && reply.job.active > 0 ==>
                r == Result(false, 60, false) && unchanged(client)
                && t.Value() == old(t.Value()).(status := old(t.status).(phase := Destroying))
      ensures reply.Absent? || (reply.Found? && reply.job.active == 0 && reply.job.succeeded > 0) ==>
                (r == NOTHING ==> Released())
                && (r == NOTHING || r == Result(false, 0, true) || r == Result(true, 0, false))
      ensures reply.Found? && reply.job.active == 0 && reply.job.succeeded == 0 ==>
                if reply.job.failed > 0 then r == NOTHING
                else r == Result(false, 600, false) && unchanged(client) && unchanged(t)
    {
      if reply.Unreadable? {
        return Result(false, 0, true);
      }
      if reply.Absent? {
        r := FinishDestroy(t);
        return;
      }
      var job := reply.job;
      if IsJobActive(job) {
        t.status := t.status.(phase := Destroying);
        r := Result(false, 60, false);
      } else if IsJobSucceeded(job) {
        r := FinishDestroy(t);
      } else if IsJobFailed(job) {
        t.status := t.status.(phase := Failed);
        t.status := t.status.(activeDestroyJobName := "");
        var _ := client.UpdateStatus(t);
        r := NOTHING;
      } else {
        r := Result(false, 600, false);
      }
    }

    /** The destroy Job is over: its name is cleared, and the clean-up follows whether or not that was stored. */
    method FinishDestroy(t: LiveTfRun) returns (r: Result)
      requires client.Valid()
      requires client.Stands(t.Value(), Write(t.status.(activeDestroyJobName := ""), Cleanup))
      modifies client, t
      ensures client.Valid() && old(client.past) <= client.past && client.hist.runs == old(client.hist.runs)
      ensures client.worker.call.Idle?
      ensures r == NOTHING ==> Released()
      ensures r == NOTHING || r == Result(false, 0, true) || r == Result(true, 0, false)
    {
      t.status := t.status.(activeDestroyJobName := "");
      var _ := client.UpdateStatus(t);
      r := CleanupWorkspaceAndRemoveFinalizer(t);
    }

    method CleanupWorkspaceAndRemoveFinalizer(t: LiveTfRun) returns (r: Result)
      requires client.Valid() && client.Stands(t.Value(), CleanUp(t.Value()))
      modifies client
      ensures client.Valid() && old(client.past) <= client.past && client.hist.runs == old(client.hist.runs)
      ensures client.worker.call.Idle?
      ensures r == NOTHING ==> Released()
      ensures r == NOTHING || r == Result(false, 0, true) || r == Result(true, 0, false)
      ensures t.status.workspaceReady && t.status.workspaceID != "" && !HasBackend(t) ==>
                r.failed && unchanged(client)
    {
      if t.status.workspaceReady && t.status.workspaceID != "" {
        if !HasBackend(t) {
          return Result(false, 0, true);
        }
        var ok := client.DeleteWorkspace(t.status.workspaceID);
        if !ok {
          return Result(false, 0, true);
        }
      }
      r := RemoveFinalizer();
    }

    /** The object is gone, or does not have the finalizer any more. */
    predicate Released()
      reads client
    {
      client.stored.None? || !client.stored.value.finalizer
    }

    method RemoveFinalizer() returns (r: Result)
      requires client.Valid() && client.worker.call.RefetchForFinalizer?
      modifies client
      ensures client.Valid() && old(client.past) <= client.past && client.hist.runs == old(client.hist.runs)
      ensures client.worker.call.Idle?
      ensures r == NOTHING ==> Released()
      ensures r == NOTHING || r == Result(false, 0, true) || (r == Result(true, 0, false) && client.stored.Some?)
    {
      hide IsHistory;
      var reply := client.Get();
      if !reply.Ok? {
        return Result(false, 0, reply.ReadError?);
      }
      var latest := new LiveTfRun(reply.run);
      if latest.finalizer {
        latest.finalizer := false;
        var update := client.UpdateFinalizer(latest);
        return match update
          case Updated | Vanished => NOTHING
          case Conflict => Result(true, 0, false)
          case UpdateError => Result(false, 0, true);
      }
      r := NOTHING;
    }

    /* ---------- the reconcile ---------- */

    /** The stored status is that of a running Job of the last hash run, with nothing pending, and the reconcile comes
        back when the next run is due. */
    predicate RunNoted(r: Result)
      reads client
    {
      && client.stored.Some?
      && var s := client.stored.value.status;
         s.phase.Running? && s.pendingExecHash == "" && r == Result(false, Wait(s.nextRunTime), false)
    }

    /** From a read of the object to the end, whatever fails and whatever the environment does on the way: the history
        stays a run of the machine, the worker is idle again, at most one apply Job has been created and, unless the
        reconcile fails, recorded, and the stored status is sound. */
    method Reconcile() returns (r: Result)
      requires client.Valid() && client.worker.call.Idle?
      modifies client
      ensures client.Valid() && old(client.past) < client.past && client.worker.call.Idle?
      ensures |client.hist.runs| <= |old(client.hist.runs)| + 1
      ensures !r.failed && |client.hist.runs| > |old(client.hist.runs)| ==> RunNoted(r)
      ensures client.stored.Some? ==> SoundStatus(client.stored.value)
    {
      r := ReconcileObject();
      if client.stored.Some? {
        StoredStatusIsSound(client);
      }
    }

    method ReconcileObject() returns (r: Result)
      requires client.Valid() && client.worker.call.Idle?
      modifies client
      ensures client.Valid() && old(client.past) < client.past && client.worker.call.Idle?
      ensures |client.hist.runs| <= |old(client.hist.runs)| + 1
      ensures !r.failed && |client.hist.runs| > |old(client.hist.runs)| ==> RunNoted(r)
    {
      hide IsHistory;
      var reply := client.Get();
      if !reply.Ok? {
        return Result(false, 0, reply.ReadError?);
      }
      var tfRun := new LiveTfRun(reply.run);
      var ok := EnsureFinalizer(tfRun);
      if !ok {
        return Result(true, 0, true);
      }
      if tfRun.deleting {
        r := HandleDeletion(tfRun);
        return;
      }
      r := ReconcileApply(tfRun);
    }

    method ReconcileApply(tfRun: LiveTfRun) returns (r: Result)
      requires client.Valid()
      requires client.Stands(tfRun.Value(), Machine.EnsureWorkspaceIfNeeded(client.cfg, tfRun.Value(), client.clock))
      modifies client, tfRun
      ensures client.Valid() && old(client.past) <= client.past && client.worker.call.Idle?
      ensures |client.hist.runs| <= |old(client.hist.runs)| + 1
      ensures !r.failed && |client.hist.runs| > |old(client.hist.runs)| ==> RunNoted(r)
    {
      hide IsHistory;
      var currentSpecHash := SpecHash(client.cfg, tfRun.spec);
      r := EnsureWorkspaceIfNeeded(tfRun);
      if Ends(r) {
        return;
      }
      var activeJob, running := GetActiveJobIfAny(tfRun);
      var handled;
      r, handled := HandleSpecChange(tfRun, currentSpecHash, activeJob, running);
      if handled {
        return;
      }
      if running {
        return Result(false, 60, false);
      }
      if activeJob.Some? {
        r := UpdateStatusBasedOnCompletedJob(tfRun, activeJob.value);
        return;
      }
      r, handled := HandlePendingExecution(tfRun);
      if handled {
        return;
      }
      r := HandleIntervalRun(tfRun, currentSpecHash);
    }
  }
}
