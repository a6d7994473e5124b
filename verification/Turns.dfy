/** Where a served call may take the worker, told by destination.  Every turn meets this relation, and the
    invariants are proved from it instead of from the code of the handlers. */
module Turns {
  import opened Types
  import opened Machine

  predicate InReconcile(k: Worker) { !k.call.Idle? && !k.call.Panicked? }

  /** Calls made before the reconcile has changed the status of its copy. */
  predicate AsRead(c: Call) {
    !c.Idle? && !c.Panicked? && !c.WriteStatus? && !c.DeleteWorkspace? && !c.RefetchForFinalizer?
  }

  /** The reconcile has its object and finalizer. */
  predicate Starts(w: World, o: Outcome) {
    && o.Done? && w.stored.Some?
    && ((w.worker.call.Idle? && w.stored.value.finalizer) || (w.worker.call.AddFinalizer? && Lands(w, o)))
  }

  predicate ResumesAfterWorkspace(c: Call) {
    c == WriteStatus(Resume) || c == WriteStatus(NewWorkspace) || c == WriteStatus(Imported)
  }

  /** The workspace is out of the way: no cloud backend, its check succeeded, or its outcome has been stored. */
  predicate WorkspaceSettled(w: World, o: Outcome) {
    || (Starts(w, o) && !Resumed(w, o).mem.deleting && Resumed(w, o).mem.spec.backend.cloud.None?)
    || (w.worker.call.CheckWorkspace? && WorkspaceFound(w, o))
    || (ResumesAfterWorkspace(w.worker.call) && Lands(w, o) && o.Done?)
  }

  /** What is seen of the recorded Job: nothing when none is recorded, is there, or can be read. */
  function JobSeen(w: World, o: Outcome): Option<Job> {
    var name := w.worker.mem.status.activeJobName;
    if w.worker.call.FetchJob? && o.Done? && name in w.jobs then Some(w.jobs[name]) else None
  }

  /** The reconcile decides here what to do. */
  predicate Decides(w: World, o: Outcome) {
    w.worker.call.FetchJob? || (WorkspaceSettled(w, o) && Resumed(w, o).mem.status.activeJobName == "")
  }

  /** Why a run for this hash is started. */
  predicate RunReason(cfg: Config, t: TfRun, hash: string, cause: Cause, job: Option<Job>, now: int) {
    var current := SpecHash(cfg, t.spec);
    match cause
    case SpecChange =>
      t.status.lastSpecHash != current && hash == current && (job.Some? ==> !IsJobActive(job.value))
    case PendingRun =>
      t.status.lastSpecHash == current && job.None? && PendingExists(t.status) && hash == t.status.pendingExecHash
    case IntervalDue =>
      && t.status.lastSpecHash == current && job.None? && !PendingExists(t.status) && hash == current
      && t.spec.runInterval.Some? && t.spec.runInterval.value >= MIN_INTERVAL
      && (t.status.nextRunTime.Some? ==> t.status.nextRunTime.value <= now)
  }

  /** What a note on the apply side may change in the status. */
  predicate NoteChanges(cfg: Config, t: TfRun, s: Status) {
    && s == t.status.(phase := s.phase, workspaceReady := s.workspaceReady, pendingExecHash := s.pendingExecHash,
                      pendingReason := s.pendingReason, nextRunTime := s.nextRunTime, lastRunTime := s.lastRunTime)
    && (s.phase == t.status.phase || s.phase.Failed? || s.phase.Succeeded?)
    && (s.workspaceReady ==> t.status.workspaceReady)
    && ((s.pendingExecHash == t.status.pendingExecHash && s.pendingReason == t.status.pendingReason)
        || (s.pendingExecHash == SpecHash(cfg, t.spec) != t.status.lastSpecHash && s.pendingReason == "SpecChange"))
    && (s.nextRunTime == t.status.nextRunTime || (t.spec.runInterval.None? && s.nextRunTime.None?))
  }

  predicate SuccessSeenIn(t: TfRun, job: Option<Job>, s: Status) {
    s.phase.Succeeded? ==>
      || t.status.phase.Succeeded?
      || (job.Some? && job.value.active == 0 && job.value.succeeded > 0 && job.value.failed == 0)
  }

  predicate DecisionMoves(cfg: Config, t: TfRun, job: Option<Job>, now: int, turn: Turn) {
    match turn.call
    case Idle => true
    case Panicked(hash, cause) => |hash| < 8 && RunReason(cfg, t, hash, cause, job, now) && turn.status == t.status
    case FetchSecret(hash, cause) =>
      && |hash| >= 8 && t.spec.backend.cloud.Some? && RunReason(cfg, t, hash, cause, job, now)
        && turn.status == t.status
    case WriteStatus(p) => p.Note? && NoteChanges(cfg, t, turn.status) && SuccessSeenIn(t, job, turn.status)
    case _ => false
  }

  lemma DecideMoves(cfg: Config, t: TfRun, job: Option<Job>, now: int)
    ensures DecisionMoves(cfg, t, job, now, Decide(cfg, t, job, now))
  {
  }

  predicate AfterWorkspaceMoves(cfg: Config, t: TfRun, now: int, turn: Turn) {
    if t.status.activeJobName == "" then DecisionMoves(cfg, t, None, now, turn)
    else turn == Go(t, FetchJob)
  }

  predicate StartMoves(cfg: Config, t: TfRun, now: int, turn: Turn) {
    if t.deleting then
      || turn.call.Idle?
      || (turn == Go(t, FetchDestroyJob) && t.status.activeDestroyJobName != "")
      || (turn == Go(t, ProbeDestroyJob) && t.status.activeDestroyJobName == "")
    else if t.spec.backend.cloud.None? then AfterWorkspaceMoves(cfg, t, now, turn)
    else
      match turn.call
      case CheckWorkspace => t.status.workspaceID != "" && turn.status == t.status
      case EnsureWorkspace => t.status.workspaceID == "" && t.importId == "" && turn.status == t.status
      case ImportWorkspace => t.status.workspaceID == "" && t.importId != "" && turn.status == t.status
      case WriteStatus(p) =>
        && turn.status == t.status.(phase := Failed, workspaceReady := false)
        && (p.Note? || (p.Resume? && t.status.workspaceID == ""))
      case _ => false
  }

  lemma AfterWorkspaceGoes(cfg: Config, t: TfRun, now: int)
    ensures AfterWorkspaceMoves(cfg, t, now, AfterWorkspace(cfg, t, now))
  {
    DecideMoves(cfg, t, None, now);
  }

  lemma StartGoes(cfg: Config, t: TfRun, now: int)
    ensures StartMoves(cfg, t, now, Start(cfg, t, now))
  {
    AfterWorkspaceGoes(cfg, t, now);
  }

  /** The recorded Job is there, over, and has succeeded without a failure. */
  predicate JobSucceeded(w: World, name: string) {
    name in w.jobs && w.jobs[name].active == 0 && w.jobs[name].succeeded > 0 && w.jobs[name].failed == 0
  }

  /** A success is noted only of a recorded Job that is seen to have succeeded. */
  predicate SuccessReported(w: World, o: Outcome, t: TfRun, s: Status) {
    s.phase.Succeeded? ==>
      t.status.phase.Succeeded? || (w.worker.call.FetchJob? && o.Done? && JobSucceeded(w, t.status.activeJobName))
  }

  predicate NoteReason(cfg: Config, w: World, t: TfRun, s: Status) {
    match w.worker.call
    case FetchDestroyJob => s == t.status.(activeDestroyJobName := "", phase := Failed)
    case RefetchForDestroy => s == t.status.(activeDestroyJobName := cfg.destroyName, phase := Pending)
    case CreateDestroyJob =>
      s == t.status.(activeDestroyJobName := cfg.destroyName, phase := Pending, observedGeneration := t.generation)
    case ProbeDestroyJob | FetchDestroySecret => s == t.status.(phase := Failed)
    case FetchSecret(_, _) | CreateJob(_, _) => s == t.status.(phase := Failed)
    case _ => NoteChanges(cfg, t, s)
  }

  /** Which call may follow which, and that only a write changes the status. */
  predicate Route(cfg: Config, w: World, o: Outcome, turn: Turn) {
    var was := w.worker.call;
    var t := Resumed(w, o).mem;
    && (turn.call.Idle? || turn.call.WriteStatus? || turn.status == t.status)
    && match turn.call
       case Idle => true
       case Panicked(_, _) => turn.call == was || Decides(w, o)
       case AddFinalizer => was.Idle? && o.Done? && w.stored.Some? && !t.finalizer
       case CheckWorkspace => Starts(w, o) && !t.deleting && t.status.workspaceID != ""
       case EnsureWorkspace => Starts(w, o) && !t.deleting && t.status.workspaceID == "" && t.importId == ""
       case ImportWorkspace => Starts(w, o) && !t.deleting && t.status.workspaceID == "" && t.importId != ""
       case FetchJob => WorkspaceSettled(w, o) && t.status.activeJobName != ""
       case FetchSecret(_, _) => Decides(w, o)
       case CreateJob(hash, cause) => was == FetchSecret(hash, cause)
       case RefetchToAdopt(name) =>
         was.CreateJob? && o.Done? && name == JobNameCreated(cfg, w.worker) && name in w.jobs
       case WriteStatus(p) =>
         match p {
           case Note =>
             || (Starts(w, o) && !t.deleting) || Decides(w, o)
             || was.FetchSecret? || was.CreateJob? || was.FetchDestroyJob? || was.ProbeDestroyJob?
             || (was.RefetchForDestroy? && o.Done? && w.stored.Some?)
             || was.FetchDestroySecret? || (was.CreateDestroyJob? && o.Done?)
           case ClearWorkspace => was.CheckWorkspace?
           case Resume =>
             || (Starts(w, o) && !t.deleting && t.status.workspaceID == "")
             || was.EnsureWorkspace? || was.ImportWorkspace?
           case NewWorkspace => was.EnsureWorkspace? && o.Done?
           case Imported => was.ImportWorkspace?
           case RecordJob => was.CreateJob? && o.Done? && Creates(cfg, w, o)
           case AdoptJob => was.RefetchToAdopt? && o.Done? && w.stored.Some?
           case Cleanup => was.FetchDestroyJob? && o.Done?
         }
       case FetchDestroyJob => Starts(w, o) && t.deleting && t.status.activeDestroyJobName != ""
       case ProbeDestroyJob => Starts(w, o) && t.deleting && t.status.activeDestroyJobName == ""
       case RefetchForDestroy => was.ProbeDestroyJob? && cfg.destroyName in w.jobs
       case FetchDestroySecret => was.ProbeDestroyJob? && t.spec.backend.cloud.Some?
       case CreateDestroyJob => was.FetchDestroySecret? && o.Done?
       case DeleteWorkspace => was == WriteStatus(Cleanup) && t.status.workspaceReady && t.status.workspaceID != ""
       case RefetchForFinalizer =>
         || (was == WriteStatus(Cleanup) && !(t.status.workspaceReady && t.status.workspaceID != ""))
         || (was.DeleteWorkspace? && o.Done?)
       case RemoveFinalizer => was.RefetchForFinalizer? && o.Done? && w.stored.Some? && t.finalizer
  }

  /** A run that is started has its reason. */
  predicate RunReasons(cfg: Config, w: World, o: Outcome, turn: Turn) {
    var t := Resumed(w, o).mem;
    match turn.call
    case FetchSecret(hash, cause) =>
      |hash| >= 8 && t.spec.backend.cloud.Some? && RunReason(cfg, t, hash, cause, JobSeen(w, o), w.clock)
    case Panicked(hash, cause) =>
      turn.call == w.worker.call || (|hash| < 8 && RunReason(cfg, t, hash, cause, JobSeen(w, o), w.clock))
    case _ => true
  }

  /** A status handed to a write is the copy's status with the changes its purpose allows. */
  predicate WriteReasons(cfg: Config, w: World, o: Outcome, id: string, turn: Turn) {
    turn.call.WriteStatus? ==>
      StatusFor(cfg, w, o, id, Resumed(w, o).mem, turn.status, turn.call.purpose)
  }

  predicate StatusFor(cfg: Config, w: World, o: Outcome, id: string, t: TfRun, s: Status, p: Purpose) {
    match p
    case Note => NoteReason(cfg, w, t, s) && SuccessReported(w, o, t, s)
    case ClearWorkspace => s == t.status.(phase := Failed, workspaceID := "", workspaceReady := false)
    case Resume =>
      || s == t.status.(phase := Failed, workspaceReady := false)
      || s == t.status.(phase := Pending, workspaceReady := false, observedGeneration := t.generation)
    case NewWorkspace =>
      && id != "" && id !in w.hist.workspaceIds
      && s == t.status.(workspaceID := id, workspaceReady := true, phase := Pending, observedGeneration := t.generation)
    case Imported =>
      && id != ""
      && s == t.status.(workspaceID := id, workspaceReady := true, workspaceImport := true, phase := Pending,
                        observedGeneration := t.generation)
    case RecordJob => w.worker.call.CreateJob? && s == RecordRun(cfg, t, w.worker.call.hash, w.clock)
    case AdoptJob =>
      && w.worker.call.RefetchToAdopt?
      && s == t.status.(activeJobName := w.worker.call.jobName, phase := Running, observedGeneration := t.generation)
    case Cleanup =>
      && s == t.status.(activeDestroyJobName := "")
      && (t.status.activeDestroyJobName in w.jobs ==>
            !IsJobActive(w.jobs[t.status.activeDestroyJobName])
              && IsJobSucceeded(w.jobs[t.status.activeDestroyJobName]))
  }

  predicate Moves(cfg: Config, w: World, o: Outcome, id: string, turn: Turn) {
    Route(cfg, w, o, turn) && RunReasons(cfg, w, o, turn) && WriteReasons(cfg, w, o, id, turn)
  }

  lemma BeginMoves(cfg: Config, w: World, o: Outcome, id: string)
    requires w.worker.call.Idle? || w.worker.call.AddFinalizer?
    ensures Moves(cfg, w, o, id, ServedTurn(cfg, w, o, id))
  {
    StartGoes(cfg, Resumed(w, o).mem, w.clock);
  }

  lemma WorkspaceMoves(cfg: Config, w: World, o: Outcome, id: string)
    requires w.worker.call.CheckWorkspace? || w.worker.call.EnsureWorkspace? || w.worker.call.ImportWorkspace?
    ensures Moves(cfg, w, o, id, ServedTurn(cfg, w, o, id))
  {
    AfterWorkspaceGoes(cfg, Resumed(w, o).mem, w.clock);
  }

  lemma FetchJobMoves(cfg: Config, w: World, o: Outcome, id: string)
    requires w.worker.call.FetchJob?
    ensures Moves(cfg, w, o, id, ServedTurn(cfg, w, o, id))
  {
    DecideMoves(cfg, w.worker.mem, JobSeen(w, o), w.clock);
  }

  lemma CleanupMoves(cfg: Config, w: World, o: Outcome, id: string)
    requires w.worker.call == WriteStatus(Cleanup)
    ensures Moves(cfg, w, o, id, ServedTurn(cfg, w, o, id))
  {
    hide AfterWorkspace;
  }

  lemma WriteMoves(cfg: Config, w: World, o: Outcome, id: string)
    requires w.worker.call.WriteStatus? && !w.worker.call.purpose.Cleanup?
    ensures Moves(cfg, w, o, id, ServedTurn(cfg, w, o, id))
  {
    hide AfterWorkspace;
    AfterWorkspaceGoes(cfg, Resumed(w, o).mem, w.clock);
  }

  lemma CreateMoves(cfg: Config, w: World, o: Outcome, id: string)
    requires w.worker.call.Panicked? || w.worker.call.FetchSecret? || w.worker.call.CreateJob?
             || w.worker.call.RefetchToAdopt?
    ensures Moves(cfg, w, o, id, ServedTurn(cfg, w, o, id))
  {
  }

  lemma DestroyJobMoves(cfg: Config, w: World, o: Outcome, id: string)
    requires w.worker.call.FetchDestroyJob? || w.worker.call.ProbeDestroyJob?
    ensures Moves(cfg, w, o, id, ServedTurn(cfg, w, o, id))
  {
  }

  lemma DestroyMoves(cfg: Config, w: World, o: Outcome, id: string)
    requires w.worker.call.RefetchForDestroy? || w.worker.call.FetchDestroySecret? || w.worker.call.CreateDestroyJob?
    ensures Moves(cfg, w, o, id, ServedTurn(cfg, w, o, id))
  {
  }

  lemma FinalizerMoves(cfg: Config, w: World, o: Outcome, id: string)
    requires w.worker.call.DeleteWorkspace? || w.worker.call.RefetchForFinalizer? || w.worker.call.RemoveFinalizer?
    ensures Moves(cfg, w, o, id, ServedTurn(cfg, w, o, id))
  {
  }

  lemma ServedMoves(cfg: Config, w: World, o: Outcome, id: string)
    ensures Moves(cfg, w, o, id, ServedTurn(cfg, w, o, id))
  {
    match w.worker.call
    case Idle | AddFinalizer => BeginMoves(cfg, w, o, id);
    case CheckWorkspace | EnsureWorkspace | ImportWorkspace => WorkspaceMoves(cfg, w, o, id);
    case FetchJob => FetchJobMoves(cfg, w, o, id);
    case WriteStatus(p) =>
      if p.Cleanup? {
        CleanupMoves(cfg, w, o, id);
      } else {
        WriteMoves(cfg, w, o, id);
      }
    case Panicked(_, _) | FetchSecret(_, _) | CreateJob(_, _) | RefetchToAdopt(_) => CreateMoves(cfg, w, o, id);
    case DeleteWorkspace | RefetchForFinalizer | RemoveFinalizer => FinalizerMoves(cfg, w, o, id);
    case FetchDestroyJob | ProbeDestroyJob => DestroyJobMoves(cfg, w, o, id);
    case _ => DestroyMoves(cfg, w, o, id);
  }
}
