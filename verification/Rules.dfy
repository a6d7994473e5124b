/** Runs, and the assumptions about a run that some results need. */
module Rules {
  import opened Types
  import opened Machine

  datatype Rule =
    | RecordsLand      // the record of a created Job lands, and no Job creation goes unanswered
    | RecordsLandInTime // the same, but a record may be lost to an object that has a new generation by then
    | ReliableJobReads // the read of the recorded Job never fails
    | TimelyCounts     // an unfinished Job is read with an active pod
    | NoEditInFlight   // no spec edit between a reconcile's read and the recording or adoption of the Job it creates
    | NoRevert         // the spec hash never goes back to an earlier value
    | OnlyUnhashedEdits // edits keep every hashed field and set no interval
    | IntervalStaysSet // edits keep an interval
    | AdmittedEdits    // edits pass the webhook
    | ImportStaysSet   // the import annotation is not emptied
    | StaysWithoutCloud // edits do not bring in a cloud backend
    | KeepsRecordedDestroyJobs // while its name is recorded, a destroy Job is removed only after a success
    | WorkspacesServed // a workspace asked for is created or found at once, and edits keep a supported provider
    | StaysWanted      // no deletion is requested
    | EditsStaySupported // edits keep engine and provider supported
    | WorkspaceStays   // no workspace is lost, and its checks are answered
    | DistinctNames    // no two of the generations and hashes seen so far share a Job name

  /** Unfinished apply Jobs. */
  function Unfinished(w: World): set<string> {
    set n | n in w.jobs && w.jobs[n].kind.Apply? && !w.jobs[n].finished
  }

  ghost predicate NamesApart(cfg: Config, w: World) {
    w.stored.Some? ==>
      forall g: nat, g': nat, h, h' | g <= w.stored.value.generation && g' <= w.stored.value.generation
                            && h in w.hist.hashes && h' in w.hist.hashes
                            && cfg.jobName(g, h) == cfg.jobName(g', h') :: g == g' && h == h'
  }

  predicate UsesSupportedProvider(spec: Spec) {
    spec.backend.cloud.Some? ==> ProviderSupported(spec.backend.cloud.value)
  }

  /** An apply Job is created, but the reconcile sees an error. */
  predicate UnansweredCreation(cfg: Config, w: World, e: Event) {
    CreatesApplyJob(cfg, w, e) && e.outcome.Unanswered?
  }

  /** The record of a created Job is refused, conflicts, or is cut off by a crash. */
  predicate MissedRecord(w: World, e: Event) {
    w.worker.call == WriteStatus(RecordJob) && (e.Crash? || (e.Serve? && !Lands(w, e.outcome)))
  }

  /** The name of the destroy Job is recorded, or on its way to being recorded. */
  predicate DestroyRecorded(w: World) {
    || (w.stored.Some? && w.stored.value.status.activeDestroyJobName != "")
    || (!w.worker.call.Idle? && !w.worker.call.Panicked? && w.worker.mem.status.activeDestroyJobName != "")
    || w.worker.call.RefetchForDestroy?
  }

  ghost predicate Permits(cfg: Config, r: Rule, w: World, e: Event) {
    match r
    case RecordsLand => !UnansweredCreation(cfg, w, e) && !MissedRecord(w, e)
    case RecordsLandInTime =>
      && !UnansweredCreation(cfg, w, e)
      && (MissedRecord(w, e) && w.stored.Some? ==> w.stored.value.generation != w.worker.mem.generation)
    case ReliableJobReads => w.worker.call.FetchJob? && e.Serve? ==> e.outcome.Done?
    case TimelyCounts =>
      w.worker.call.FetchJob? && e.Serve? && w.worker.mem.status.activeJobName in w.jobs ==>
        var job := w.jobs[w.worker.mem.status.activeJobName];
        !job.finished ==> IsJobActive(job)
    case NoEditInFlight =>
      && (e.Edit? && w.stored.Some? && w.stored.value.spec != e.spec ==>
            Unfinished(w) <= {w.stored.value.status.activeJobName})
      && (CreatesApplyJob(cfg, w, e) && w.stored.Some? ==> SpecVersion(w.worker.mem) == SpecVersion(w.stored.value))
    case NoRevert =>
      e.Edit? && w.stored.Some? ==>
        SpecHash(cfg, e.spec) == SpecHash(cfg, w.stored.value.spec) || SpecHash(cfg, e.spec) !in w.hist.hashes
    case OnlyUnhashedEdits =>
      e.Edit? && w.stored.Some? ==> SameHashedFields(e.spec, w.stored.value.spec) && e.spec.runInterval.None?
    case IntervalStaysSet => e.Edit? ==> e.spec.runInterval.Some?
    case AdmittedEdits => e.Edit? ==> Admitted(e.spec)
    case ImportStaysSet => e.Annotate? ==> e.importId != ""
    case StaysWithoutCloud => e.Edit? ==> e.spec.backend.cloud.None?
    case KeepsRecordedDestroyJobs =>
      e.Expire? && e.name in w.jobs && w.jobs[e.name].kind.Destroy? && DestroyRecorded(w) ==>
        w.jobs[e.name].succeeded > 0
    case WorkspacesServed =>
      && (w.worker.call.EnsureWorkspace? && e.Serve? ==> e.outcome.Done? && e.id != "" && e.id !in w.hist.workspaceIds)
      && (w.worker.call.ImportWorkspace? && e.Serve? ==> e.outcome.Done? && e.id != "" && e.id in w.workspaces)
      && (e.Edit? ==> UsesSupportedProvider(e.spec))
    case StaysWanted => !e.RequestDelete?
    case EditsStaySupported => e.Edit? ==> Supported(e.spec)
    case WorkspaceStays => !e.LoseWorkspace? && (w.worker.call.CheckWorkspace? && e.Serve? ==> e.outcome.Done?)
    case DistinctNames => NamesApart(cfg, w) && NamesApart(cfg, Step(cfg, w, e))
  }

  ghost predicate Obeys(cfg: Config, rules: set<Rule>, w: World, es: seq<Event>) {
    es == [] || (var m := |es| - 1;
                 Obeys(cfg, rules, w, es[..m]) && forall r :: r in rules ==>
                   Permits(cfg, r, Run(cfg, w, es[..m]), es[m]))
  }
}
