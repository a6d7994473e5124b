/** How each reply is answered, in terms of what the caller sees: the Job's counts, the error, the fields it had.
    Every status that goes to a write is spelled out, up to the moment at which the write lands or is lost. */
module Replies {
  import opened Types
  import opened Machine
  import opened Turns
  import opened AllInvariants
  import opened JobInvariants
  import opened Theorems

  /** Reading changes nothing in the cluster. */
  predicate Untouched(w: World, w': World) {
    w'.stored == w.stored && w'.jobs == w.jobs && w'.workspaces == w.workspaces && w'.clock == w.clock
  }

  /** The worker has prepared this status for a write of this purpose. */
  predicate Prepared(w: World, w': World, s: Status, p: Purpose) {
    w'.worker.call == WriteStatus(p) && w'.worker.mem == w.worker.mem.(status := s)
  }

  /** The worker is done, and nothing has been or will be written. */
  predicate LeftAlone(w: World, w': World) { Untouched(w, w') && w'.worker.call.Idle? }

  /* ---------- a write, whatever happens before it is served ---------- */

  /** What a worker has prepared is stored by the write exactly when the object still is the version it read and the
      call is performed; nothing else ever stores a status. */
  lemma WriteAnswered(cfg: Config, w: World, meanwhile: seq<Event>, o: Outcome, id: string)
    requires w.worker.call.WriteStatus? && NotServed(meanwhile)
    ensures var before := Run(cfg, w, meanwhile);
            var after := Step(cfg, before, Serve(o, id));
            && before.worker == w.worker
            && after.jobs == before.jobs && after.workspaces == before.workspaces
            && (if before.stored.Some? && before.stored.value.resourceVersion == w.worker.mem.resourceVersion
                   && !o.Refused? then
                  after.stored.Some? && after.stored.value.status == w.worker.mem.status
                else after.stored == before.stored)
  {
    WorkerWaits(cfg, w, meanwhile);
  }

  /* ---------- the recorded apply Job ---------- */

  /** The read of the recorded apply Job finds this Job. */
  predicate SeesJob(w: World, job: Job) {
    && w.worker.call.FetchJob?
    && w.worker.mem.status.activeJobName in w.jobs && w.jobs[w.worker.mem.status.activeJobName] == job
  }

  predicate SpecIsRun(cfg: Config, t: TfRun) { t.status.lastSpecHash == SpecHash(cfg, t.spec) }

  /** A Job without an active pod is reported: as failed if a pod failed, else as succeeded if one succeeded; only a
      success sets the time of the last run, and no other field changes. */
  lemma CompletionIsReported(cfg: Config, w: World, job: Job, id: string)
    requires SeesJob(w, job) && job.active == 0 && SpecIsRun(cfg, w.worker.mem)
    ensures var w', t := Step(cfg, w, Serve(Done, id)), w.worker.mem;
            var s := w'.worker.mem.status;
            && Untouched(w, w') && Prepared(w, w', s, Note)
            && s == t.status.(phase := s.phase, lastRunTime := s.lastRunTime)
            && (s.phase == if job.failed > 0 then Failed else if job.succeeded > 0 then Succeeded else t.status.phase)
            && (s.lastRunTime == if job.succeeded > 0 then Some(w.clock) else t.status.lastRunTime)
  {
    hide HistoryAfter;
  }

  /** And so it is stored, if the write lands. */
  lemma CompletionIsStored(cfg: Config, w: World, job: Job, id: string, meanwhile: seq<Event>, o: Outcome)
    requires SeesJob(w, job) && job.active == 0 && SpecIsRun(cfg, w.worker.mem) && NotServed(meanwhile)
    ensures var before := Run(cfg, Step(cfg, w, Serve(Done, id)), meanwhile);
            var after, was := Step(cfg, before, Serve(o, "")), w.worker.mem.status;
            if Lands(before, o) then
              && after.stored.Some?
              && var s := after.stored.value.status;
                 && s == was.(phase := s.phase, lastRunTime := s.lastRunTime)
                 && (s.phase.Failed? <==> job.failed > 0 || (job.succeeded == 0 && was.phase.Failed?))
                 && (s.phase.Succeeded? <==> job.failed == 0 && (job.succeeded > 0 || was.phase.Succeeded?))
                 && (s.lastRunTime == if job.succeeded > 0 then Some(w.clock) else was.lastRunTime)
            else after.stored == before.stored
  {
    hide Step;
    CompletionIsReported(cfg, w, job, id);
    WriteAnswered(cfg, Step(cfg, w, Serve(Done, id)), meanwhile, o, "");
  }

  /** A running Job is waited for; a changed spec is noted as pending, in these two fields alone. */
  lemma RunningJobIsAwaited(cfg: Config, w: World, job: Job, id: string)
    requires SeesJob(w, job) && job.active > 0
    ensures var w', t := Step(cfg, w, Serve(Done, id)), w.worker.mem;
            if SpecIsRun(cfg, t) then LeftAlone(w, w')
            else Untouched(w, w') && Prepared(w, w', t.status.(pendingExecHash := SpecHash(cfg, t.spec),
                                                               pendingReason := "SpecChange"), Note)
  {
    hide HistoryAfter;
  }

  /** How a run for this hash begins: with the read of its secret, if the engine is supported and a workspace can be
      asked for. */
  predicate RunBegun(k: Worker, t: TfRun, hash: string, cause: Cause) {
    if !EngineSupported(t.spec) then k.call.Idle?
    else if t.spec.backend.cloud.None? then
      k.call == WriteStatus(Note) && k.mem == t.(status := t.status.(phase := Failed))
    else k.call == FetchSecret(hash, cause) && k.mem == t
  }

  /** When the recorded Job is over and the spec has changed, the new spec is run, whatever became of the Job. */
  lemma ChangedSpecIsRun(cfg: Config, w: World, job: Job, id: string)
    requires SeesJob(w, job) && job.active == 0 && !SpecIsRun(cfg, w.worker.mem)
    ensures var w', t := Step(cfg, w, Serve(Done, id)), w.worker.mem;
            Untouched(w, w') && RunBegun(w'.worker, t, SpecHash(cfg, t.spec), SpecChange)
  {
    hide HistoryAfter;
  }

  /** What is done for an object none of whose Jobs is known: a changed spec is run, else a pending hash, else the spec
      again if that is due by an interval of at least forty-five minutes. */
  predicate DecidedWithoutJob(cfg: Config, k: Worker, t: TfRun, now: int) {
    var s, hash, pending := t.status, SpecHash(cfg, t.spec), t.status.pendingExecHash;
    if s.lastSpecHash != hash then RunBegun(k, t, hash, SpecChange)
    else if pending != "" && pending != hash then RunBegun(k, t, pending, PendingRun)
    else match t.spec.runInterval
      case None =>
        if s.nextRunTime.None? then k.call.Idle?
        else k.call == WriteStatus(Note) && k.mem == t.(status := s.(nextRunTime := None))
      case Some(interval) =>
        if interval < 45 * 60 then k.call == WriteStatus(Note) && k.mem == t.(status := s.(phase := Failed))
        else if s.nextRunTime.Some? && now < s.nextRunTime.value then k.call.Idle?
        else RunBegun(k, t, hash, IntervalDue)
  }

  lemma DecideWithoutJob(cfg: Config, k: Worker, t: TfRun, now: int)
    requires t.status.pendingExecHash != "" ==> IsHash(t.status.pendingExecHash)
    requires var turn := Decide(cfg, t, None, now); k.call == turn.call && k.mem == t.(status := turn.status)
    ensures DecidedWithoutJob(cfg, k, t, now)
  {
  }

  /** A recorded Job that is gone or cannot be read is taken for none. */
  lemma MissingJobIsIgnored(cfg: Config, w0: World, es: seq<Event>, o: Outcome, id: string)
    requires WellNamed(cfg) && Initial(cfg, w0)
    requires var w := Run(cfg, w0, es);
             w.worker.call.FetchJob? && (o.Done? ==> w.worker.mem.status.activeJobName !in w.jobs)
    ensures var w := Run(cfg, w0, es);
            var w' := Step(cfg, w, Serve(o, id));
            Untouched(w, w') && DecidedWithoutJob(cfg, w'.worker, w.worker.mem, w.clock)
  {
    hide HistoryAfter, Decide, DecidedWithoutJob, Run, Initial;
    CoreHolds(cfg, w0, es);
    var w := Run(cfg, w0, es);
    DecideWithoutJob(cfg, Step(cfg, w, Serve(o, id)).worker, w.worker.mem, w.clock);
  }

  /* ---------- a new apply Job ---------- */

  lemma SecretIsRead(cfg: Config, w: World, o: Outcome, id: string)
    requires w.worker.call.FetchSecret? || w.worker.call.FetchDestroySecret?
    ensures var w', k := Step(cfg, w, Serve(o, id)), w.worker;
            && Untouched(w, w')
            && if o.Done? then
                 && w'.worker.mem == k.mem
                 && (k.call.FetchSecret? ==> w'.worker.call == CreateJob(k.call.hash, k.call.cause))
                 && (k.call.FetchDestroySecret? ==> w'.worker.call.CreateDestroyJob?)
               else Prepared(w, w', k.mem.status.(phase := Failed), Note)
  {
    hide HistoryAfter;
  }

  /** The record of a created Job, field by field: its name and run id, the hash it was created for, the phase, the
      generation, nothing pending any more, and with an interval the times of this and the next run. */
  predicate RecordsRun(cfg: Config, t: TfRun, s: Status, hash: string, now: int) {
    && s.activeJobName == cfg.jobName(t.generation, hash) && s.runID == cfg.runId(t.generation, hash)
    && s.lastSpecHash == hash && s.phase.Running? && s.observedGeneration == t.generation
    && s.pendingExecHash == "" && s.pendingReason == ""
    && (match t.spec.runInterval
        case Some(interval) => s.lastRunTime == Some(now) && s.nextRunTime == Some(now + interval)
        case None => s.lastRunTime == t.status.lastRunTime && s.nextRunTime == None)
    && s.workspaceID == t.status.workspaceID && s.workspaceReady == t.status.workspaceReady
    && s.workspaceImport == t.status.workspaceImport && s.activeDestroyJobName == t.status.activeDestroyJobName
  }

  /** A Job is created unless its name is taken; a created Job is recorded, a Job that is met is adopted, and any other
      answer fails the object, also when the Job was created after all. */
  lemma CreationIsAnswered(cfg: Config, w: World, o: Outcome, id: string)
    requires w.worker.call.CreateJob?
    ensures var w', t, hash := Step(cfg, w, Serve(o, id)), w.worker.mem, w.worker.call.hash;
            var name := cfg.jobName(t.generation, hash);
            && w'.stored == w.stored && w'.workspaces == w.workspaces
            && (if o.Refused? || name in w.jobs then w'.jobs == w.jobs
                else w'.jobs == w.jobs[name := Job(Apply, t.generation, hash, SpecHash(cfg, t.spec), 0, 0, 0, false)])
            && (if !o.Done? then Prepared(w, w', t.status.(phase := Failed), Note)
                else if name in w.jobs then w'.worker.call == RefetchToAdopt(name) && w'.worker.mem == t
                else Prepared(w, w', w'.worker.mem.status, RecordJob)
                     && RecordsRun(cfg, t, w'.worker.mem.status, hash, w.clock))
  {
    hide HistoryAfter;
  }

  lemma AdoptionIsAnswered(cfg: Config, w: World, o: Outcome, id: string)
    requires w.worker.call.RefetchToAdopt?
    ensures var w' := Step(cfg, w, Serve(o, id));
            if o.Done? && w.stored.Some? then
              && Untouched(w, w') && w'.worker.call == WriteStatus(AdoptJob)
              && var t := w.stored.value;
                 w'.worker.mem == t.(status := t.status.(activeJobName := w.worker.call.jobName, phase := Running,
                                                         observedGeneration := t.generation))
            else LeftAlone(w, w')
  {
    hide HistoryAfter;
  }

  /* ---------- the workspace ---------- */

  /** An object that is not under deletion is read: what is done about its workspace. */
  lemma WorkspaceIsAskedFor(cfg: Config, w: World, id: string)
    requires w.worker.call.Idle? && w.stored.Some? && w.stored.value.finalizer && !w.stored.value.deleting
    requires w.stored.value.spec.backend.cloud.Some?
    ensures var w', t := Step(cfg, w, Serve(Done, id)), w.stored.value;
            && Untouched(w, w')
            && if !ProviderSupported(t.spec.backend.cloud.value) then
                 && w'.worker.call == WriteStatus(if t.status.workspaceID != "" then Note else Resume)
                 && w'.worker.mem == t.(status := t.status.(phase := Failed, workspaceReady := false))
               else
                 && w'.worker.mem == t
                 && w'.worker.call == if t.status.workspaceID != "" then CheckWorkspace
                                      else if t.importId != "" then ImportWorkspace else EnsureWorkspace
  {
    hide HistoryAfter;
  }

  /** A workspace that is not found, or cannot be looked up, is forgotten. */
  lemma CheckIsAnswered(cfg: Config, w: World, o: Outcome, id: string)
    requires w.worker.call.CheckWorkspace? && (o.Done? ==> w.worker.mem.status.workspaceID !in w.workspaces)
    ensures var w' := Step(cfg, w, Serve(o, id));
            && Untouched(w, w')
            && Prepared(w, w', w.worker.mem.status.(phase := Failed, workspaceID := "", workspaceReady := false),
                        ClearWorkspace)
  {
    hide HistoryAfter;
  }

  /** A failed creation fails the object, one that still goes on leaves it pending, and a created workspace is ready. */
  lemma WorkspaceIsAnswered(cfg: Config, w: World, o: Outcome, id: string)
    requires w.worker.call.EnsureWorkspace?
    ensures var w', t := Step(cfg, w, Serve(o, id)), w.worker.mem;
            var waiting := t.status.(phase := Pending, workspaceReady := false, observedGeneration := t.generation);
            && w'.stored == w.stored && w'.jobs == w.jobs
            && if !o.Done? || id in w.hist.workspaceIds then
                 Prepared(w, w', t.status.(phase := Failed, workspaceReady := false), Resume)
               else if id == "" then w'.workspaces == w.workspaces && Prepared(w, w', waiting, Resume)
               else
                 && w'.workspaces == w.workspaces + {id}
                 && Prepared(w, w', waiting.(workspaceID := id, workspaceReady := true), NewWorkspace)
  {
    hide HistoryAfter;
  }

  lemma ImportIsAnswered(cfg: Config, w: World, o: Outcome, id: string)
    requires w.worker.call.ImportWorkspace?
    ensures var w', t := Step(cfg, w, Serve(o, id)), w.worker.mem;
            && Untouched(w, w')
            && if !o.Done? || id == "" || id !in w.workspaces then
                 Prepared(w, w', t.status.(phase := Failed, workspaceReady := false), Resume)
               else
                 Prepared(w, w', t.status.(workspaceID := id, workspaceReady := true, workspaceImport := true,
                                           phase := Pending, observedGeneration := t.generation), Imported)
  {
    hide HistoryAfter;
  }

  /** From a settled workspace the reconcile goes on to the recorded Job, or to the decision. */
  predicate WentOn(cfg: Config, k: Worker, t: TfRun, now: int) {
    if t.status.activeJobName != "" then k.call.FetchJob? && k.mem == t else DecidedWithoutJob(cfg, k, t, now)
  }

  lemma AfterWorkspaceWentOn(cfg: Config, k: Worker, t: TfRun, now: int)
    requires t.status.pendingExecHash != "" ==> IsHash(t.status.pendingExecHash)
    requires var turn := AfterWorkspace(cfg, t, now); k.call == turn.call && k.mem == t.(status := turn.status)
    ensures WentOn(cfg, k, t, now)
  {
    hide Decide, DecidedWithoutJob;
    if t.status.activeJobName == "" {
      DecideWithoutJob(cfg, k, t, now);
    }
  }

  lemma FoundWorkspaceGoesOn(cfg: Config, w0: World, es: seq<Event>, id: string)
    requires WellNamed(cfg) && Initial(cfg, w0)
    requires var w := Run(cfg, w0, es); w.worker.call.CheckWorkspace? && w.worker.mem.status.workspaceID in w.workspaces
    ensures var w := Run(cfg, w0, es); WentOn(cfg, Step(cfg, w, Serve(Done, id)).worker, w.worker.mem, w.clock)
  {
    hide HistoryAfter, AfterWorkspace, WentOn, Run, Initial;
    CoreHolds(cfg, w0, es);
    var w := Run(cfg, w0, es);
    AfterWorkspaceWentOn(cfg, Step(cfg, w, Serve(Done, id)).worker, w.worker.mem, w.clock);
  }

  /** After a failed, delayed, created or imported workspace only an answered write lets the reconcile go on. */
  lemma NotedWorkspaceGoesOn(cfg: Config, w0: World, es: seq<Event>, o: Outcome, id: string)
    requires WellNamed(cfg) && Initial(cfg, w0)
    requires ResumesAfterWorkspace(Run(cfg, w0, es).worker.call)
    ensures var w := Run(cfg, w0, es);
            var k := Step(cfg, w, Serve(o, id)).worker;
            if Lands(w, o) && o.Done? then WentOn(cfg, k, Bump(w.worker.mem), w.clock) else k.call.Idle?
  {
    hide HistoryAfter, AfterWorkspace, WentOn, Run, Initial;
    CoreHolds(cfg, w0, es);
    var w := Run(cfg, w0, es);
    if Lands(w, o) && o.Done? {
      AfterWorkspaceWentOn(cfg, Step(cfg, w, Serve(o, id)).worker, Bump(w.worker.mem), w.clock);
    }
  }

  /* ---------- deletion ---------- */

  /** An object under deletion is read: its recorded destroy Job is read, or one is looked for. */
  lemma DeletionIsBegun(cfg: Config, w: World, id: string)
    requires w.worker.call.Idle? && w.stored.Some? && w.stored.value.finalizer && w.stored.value.deleting
    ensures var w', t := Step(cfg, w, Serve(Done, id)), w.stored.value;
            && Untouched(w, w')
            && if t.status.activeDestroyJobName != "" then w'.worker.call.FetchDestroyJob? && w'.worker.mem == t
               else if EngineSupported(t.spec) then w'.worker.call.ProbeDestroyJob? && w'.worker.mem == t
               else w'.worker.call.Idle?
  {
    hide HistoryAfter;
  }

  /** Without a recorded destroy Job an existing one is adopted; otherwise, also when the read fails, one is made. */
  lemma ProbeIsAnswered(cfg: Config, w: World, o: Outcome, id: string)
    requires w.worker.call.ProbeDestroyJob?
    ensures var w', t := Step(cfg, w, Serve(o, id)), w.worker.mem;
            && Untouched(w, w')
            && if o.Done? && cfg.destroyName in w.jobs then w'.worker == w.worker.(call := RefetchForDestroy)
               else if t.spec.backend.cloud.Some? then w'.worker == w.worker.(call := FetchDestroySecret)
               else Prepared(w, w', t.status.(phase := Failed), Note)
  {
    hide HistoryAfter;
  }

  lemma DestroyCreationIsAnswered(cfg: Config, w: World, o: Outcome, id: string)
    requires w.worker.call.CreateDestroyJob?
    ensures var w', t := Step(cfg, w, Serve(o, id)), w.worker.mem;
            var built := SpecHash(cfg, t.spec);
            && w'.stored == w.stored && w'.workspaces == w.workspaces
            && (if o.Refused? || cfg.destroyName in w.jobs then w'.jobs == w.jobs
                else w'.jobs == w.jobs[cfg.destroyName := Job(Destroy, t.generation, built, built, 0, 0, 0, false)])
            && if o.Done? then
                 Prepared(w, w', t.status.(activeDestroyJobName := cfg.destroyName, phase := Pending,
                                           observedGeneration := t.generation), Note)
               else w'.worker.call.Idle?
  {
    hide HistoryAfter;
  }

  lemma DestroyAdoptionIsAnswered(cfg: Config, w: World, o: Outcome, id: string)
    requires w.worker.call.RefetchForDestroy?
    ensures var w' := Step(cfg, w, Serve(o, id));
            if o.Done? && w.stored.Some? then
              && Untouched(w, w') && w'.worker.call == WriteStatus(Note)
              && var t := w.stored.value;
                 w'.worker.mem == t.(status := t.status.(activeDestroyJobName := cfg.destroyName, phase := Pending))
            else LeftAlone(w, w')
  {
    hide HistoryAfter;
  }

  /** The read of the recorded destroy Job finds this Job. */
  predicate SeesDestroyJob(w: World, job: Job) {
    && w.worker.call.FetchDestroyJob?
    && w.worker.mem.status.activeDestroyJobName in w.jobs && w.jobs[w.worker.mem.status.activeDestroyJobName] == job
  }

  /** A destroy Job that still has an active pod, or has not counted any yet. */
  predicate StillRuns(j: Job) { j.active > 0 || (j.succeeded == 0 && j.failed == 0) }

  /** A destroy Job that still runs, and one that cannot be read, leave everything as it is. */
  lemma RunningDestroyJobIsLeftAlone(cfg: Config, w: World, o: Outcome, id: string)
    requires w.worker.call.FetchDestroyJob?
    requires o.Done? ==> var name := w.worker.mem.status.activeDestroyJobName; name in w.jobs && StillRuns(w.jobs[name])
    ensures LeftAlone(w, Step(cfg, w, Serve(o, id)))
  {
    hide HistoryAfter;
  }

  /** A failure is noted for a failed Job without an active or succeeded pod, and only for such a Job; one that is gone
      or has succeeded is cleared, and the clean-up follows. */
  lemma EndedDestroyJobIsAnswered(cfg: Config, w: World, o: Outcome, id: string)
    requires w.worker.call.FetchDestroyJob?
    ensures var w', s := Step(cfg, w, Serve(o, id)), w.worker.mem.status;
            var name := s.activeDestroyJobName;
            && Untouched(w, w')
            && (w'.worker.call == WriteStatus(Note) <==>
                  o.Done? && name in w.jobs
                  && w.jobs[name].failed > 0 && w.jobs[name].active == 0 && w.jobs[name].succeeded == 0)
            && (w'.worker.call == WriteStatus(Note) ==>
                  Prepared(w, w', s.(activeDestroyJobName := "", phase := Failed), Note))
            && (w'.worker.call == WriteStatus(Cleanup) <==>
                  o.Done? && (name !in w.jobs || (w.jobs[name].active == 0 && w.jobs[name].succeeded > 0)))
            && (w'.worker.call == WriteStatus(Cleanup) ==> Prepared(w, w', s.(activeDestroyJobName := ""), Cleanup))
  {
    hide HistoryAfter;
  }

  /** Whether or not the cleared name was stored, the clean-up goes on: a ready workspace is deleted first, if its
      provider can be asked to, and otherwise the object is read again for its finalizer. */
  lemma ClearedNameGoesOn(cfg: Config, w: World, o: Outcome, id: string)
    requires w.worker.call == WriteStatus(Cleanup)
    ensures var k, t := Step(cfg, w, Serve(o, id)).worker, w.worker.mem;
            if t.status.workspaceReady && t.status.workspaceID != "" then
              if t.spec.backend.cloud.Some? && ProviderSupported(t.spec.backend.cloud.value) then
                k.call.DeleteWorkspace? && k.mem.status == t.status
              else k.call.Idle?
            else k.call.RefetchForFinalizer?
  {
    hide HistoryAfter;
  }

  /** Only an answered deletion of the workspace leads on to the finalizer. */
  lemma WorkspaceDeletionIsAnswered(cfg: Config, w: World, o: Outcome, id: string)
    requires w.worker.call.DeleteWorkspace?
    ensures var w' := Step(cfg, w, Serve(o, id));
            && w'.stored == w.stored && w'.jobs == w.jobs
            && w'.workspaces == w.workspaces - (if o.Refused? then {} else {w.worker.mem.status.workspaceID})
            && if o.Done? then w'.worker.call.RefetchForFinalizer? else w'.worker.call.Idle?
  {
    hide HistoryAfter;
  }
}
