/** What every reachable state keeps, whatever the environment does and whichever calls fail. */
module CopyInvariants {
  import opened Types
  import opened Machine
  import opened Turns

  predicate ApplySide(c: Call) {
    c.CheckWorkspace? || c.EnsureWorkspace? || c.ImportWorkspace? || c.FetchJob? || c.FetchSecret? || c.CreateJob?
    || c.RefetchToAdopt?
  }

  predicate DestroySide(c: Call) {
    c.FetchDestroyJob? || c.ProbeDestroyJob? || c.RefetchForDestroy? || c.FetchDestroySecret? || c.CreateDestroyJob?
    || c.DeleteWorkspace? || c.RefetchForFinalizer? || c.RemoveFinalizer? || c == WriteStatus(Cleanup)
  }

  /** m is a copy of this or an earlier version of t, up to the status. */
  predicate Snapshot(m: TfRun, t: TfRun) {
    && m.resourceVersion <= t.resourceVersion
    && (m.resourceVersion == t.resourceVersion ==>
          && m.generation == t.generation && m.spec == t.spec && m.importId == t.importId
          && m.finalizer == t.finalizer && m.deleting == t.deleting)
    && 1 <= SpecVersion(m) <= SpecVersion(t)
    && (SpecVersion(m) == SpecVersion(t) ==> m.spec == t.spec)
    && (m.deleting ==> t.deleting)
  }

  /** The worker's copy is an earlier version of the stored object. */
  predicate CopyOk(stored: Option<TfRun>, k: Worker) {
    stored.Some? ==>
      && SpecVersion(stored.value) >= 1
      && (stored.value.deleting ==> stored.value.finalizer)
      && (InReconcile(k) ==> Snapshot(k.mem, stored.value))
  }

  predicate SidesOk(stored: Option<TfRun>, k: Worker) {
    && (InReconcile(k) && !k.call.AddFinalizer? ==> stored.Some? && stored.value.finalizer && k.mem.finalizer)
    && (k.call.AddFinalizer? ==> !k.mem.finalizer)
    && (ApplySide(k.call) || ResumesAfterWorkspace(k.call) ==> !k.mem.deleting)
    && (DestroySide(k.call) ==> k.mem.deleting)
  }

  /* ---------- how the copy's status differs from the stored one ---------- */

  /** s is what a write with this purpose makes of the stored status u. */
  predicate WriteDiffers(p: Purpose, s: Status, u: Status) {
    match p
    case Note =>
      s == u.(phase := s.phase, workspaceReady := s.workspaceReady, pendingExecHash := s.pendingExecHash,
              pendingReason := s.pendingReason, nextRunTime := s.nextRunTime, lastRunTime := s.lastRunTime,
              activeDestroyJobName := s.activeDestroyJobName, observedGeneration := s.observedGeneration)
    case ClearWorkspace =>
      u.workspaceID != "" && s == u.(phase := Failed, workspaceID := "", workspaceReady := false)
    case Resume =>
      u.workspaceID == "" && s == u.(phase := s.phase, workspaceReady := false,
                                     observedGeneration := s.observedGeneration)
    case NewWorkspace | Imported =>
      && u.workspaceID == "" && s.workspaceID != ""
      && s == u.(workspaceID := s.workspaceID, workspaceReady := true, workspaceImport := s.workspaceImport,
                 phase := Pending, observedGeneration := s.observedGeneration)
    case RecordJob =>
      && s.pendingExecHash == ""
      && s == u.(activeJobName := s.activeJobName, runID := s.runID, lastSpecHash := s.lastSpecHash, phase := Running,
                 observedGeneration := s.observedGeneration, pendingExecHash := "", pendingReason := "",
                 lastRunTime := s.lastRunTime, nextRunTime := s.nextRunTime)
    case AdoptJob =>
      s == u.(activeJobName := s.activeJobName, phase := Running, observedGeneration := s.observedGeneration)
    case Cleanup => s == u.(activeDestroyJobName := "")
  }

  /** Only the worker writes the status: its copy has the stored status with the changes of the coming write,
      or, once the clean-up has begun, at most a cleared destroy Job. */
  predicate DiffOk(stored: Option<TfRun>, k: Worker) {
    stored.Some? ==>
      && (AsRead(k.call) ==> k.mem.status == stored.value.status)
      && (k.call.WriteStatus? ==> WriteDiffers(k.call.purpose, k.mem.status, stored.value.status))
      && (k.call.DeleteWorkspace? || k.call.RefetchForFinalizer? ==>
            WriteDiffers(Cleanup, k.mem.status, stored.value.status))
      && (k.call.EnsureWorkspace? || k.call.ImportWorkspace? ==> k.mem.status.workspaceID == "")
      && (k.call.CheckWorkspace? ==> k.mem.status.workspaceID != "")
  }

  predicate Base(w: World) {
    CopyOk(w.stored, w.worker) && DiffOk(w.stored, w.worker) && SidesOk(w.stored, w.worker)
  }

  /** A reconcile begins with a read of the object, goes on after a finalizer that landed, and ends with its removal. */
  predicate HoldsObject(w: World, o: Outcome, c: Call) {
    && (w.worker.call.Idle? && !c.Idle? ==> o.Done? && w.stored.Some?)
    && (w.worker.call.Panicked? ==> c.Idle? || c.Panicked?)
    && (w.worker.call.RemoveFinalizer? ==> c.Idle?)
    && (w.worker.call.AddFinalizer? && !c.Idle? ==> Lands(w, o) && o.Done?)
  }

  lemma RouteHoldsObject(cfg: Config, w: World, o: Outcome, turn: Turn)
    requires Route(cfg, w, o, turn)
    ensures HoldsObject(w, o, turn.call)
  {
  }

  /** What a served call stores is a later version of the object. */
  lemma ServedContinues(w: World, o: Outcome)
    requires CopyOk(w.stored, w.worker)
    ensures StoredServed(w, o).Some? ==>
              var t := StoredServed(w, o).value;
              && w.stored.Some? && SpecVersion(t) == SpecVersion(w.stored.value) >= 1
              && (t.deleting ==> t.finalizer)
              && (InReconcile(w.worker) ==> Snapshot(w.worker.mem, t))
  {
  }

  /** And the copy the reconcile goes on with is a copy of it. */
  lemma ResumedIsSnapshot(w: World, o: Outcome, c: Call)
    requires CopyOk(w.stored, w.worker) && HoldsObject(w, o, c) && !c.Idle? && !c.Panicked?
    ensures StoredServed(w, o).Some? ==> Snapshot(Resumed(w, o).mem, StoredServed(w, o).value)
  {
    hide WithFinalizer;
    ServedContinues(w, o);
  }

  lemma ServeKeepsCopy(w: World, o: Outcome, turn: Turn)
    requires CopyOk(w.stored, w.worker) && HoldsObject(w, o, turn.call)
    ensures CopyOk(StoredServed(w, o), Take(Resumed(w, o), turn))
  {
    hide StoredServed, Resumed;
    ServedContinues(w, o);
    if !turn.call.Idle? && !turn.call.Panicked? {
      ResumedIsSnapshot(w, o, turn.call);
    }
  }

  /** When the code goes on towards a call or a write, the copy has the status that is now stored. */
  lemma ResumedStatus(cfg: Config, w: World, o: Outcome, turn: Turn)
    requires DiffOk(w.stored, w.worker) && Route(cfg, w, o, turn)
    requires AsRead(turn.call) || turn.call.WriteStatus?
    ensures StoredServed(w, o).Some? ==> Resumed(w, o).mem.status == StoredServed(w, o).value.status
  {
  }

  lemma WrittenDiffers(cfg: Config, w: World, o: Outcome, id: string, turn: Turn)
    requires DiffOk(w.stored, w.worker) && w.stored.Some? && turn.call.WriteStatus?
    requires Route(cfg, w, o, turn) && WriteReasons(cfg, w, o, id, turn)
    ensures WriteDiffers(turn.call.purpose, turn.status, Resumed(w, o).mem.status)
  {
  }

  lemma ServeKeepsDiff(cfg: Config, w: World, o: Outcome, turn: Turn)
    requires DiffOk(w.stored, w.worker)
    requires Route(cfg, w, o, turn)
    requires turn.call.WriteStatus? ==> WriteDiffers(turn.call.purpose, turn.status, Resumed(w, o).mem.status)
    ensures DiffOk(StoredServed(w, o), Take(Resumed(w, o), turn))
  {
    if AsRead(turn.call) || turn.call.WriteStatus? {
      ResumedStatus(cfg, w, o, turn);
    }
  }

  lemma ServeKeepsSides(cfg: Config, w: World, o: Outcome, turn: Turn)
    requires CopyOk(w.stored, w.worker) && SidesOk(w.stored, w.worker) && Route(cfg, w, o, turn)
    ensures SidesOk(StoredServed(w, o), Take(Resumed(w, o), turn))
  {
  }

  lemma StepKeepsBase(cfg: Config, w: World, e: Event)
    requires Base(w)
    ensures Base(Step(cfg, w, e))
  {
    hide ServedTurn;
    if e.Serve? {
      var turn := ServedTurn(cfg, w, e.outcome, e.id);
      ServedMoves(cfg, w, e.outcome, e.id);
      RouteHoldsObject(cfg, w, e.outcome, turn);
      ServeKeepsCopy(w, e.outcome, turn);
      if turn.call.WriteStatus? && w.stored.Some? {
        WrittenDiffers(cfg, w, e.outcome, e.id, turn);
      }
      ServeKeepsDiff(cfg, w, e.outcome, turn);
      ServeKeepsSides(cfg, w, e.outcome, turn);
    }
  }

  /* ---------- where the statuses of the next state come from ---------- */

  predicate SameBut(t: TfRun, u: TfRun) {
    t.generation == u.generation && t.spec == u.spec && t.status == u.status && t.importId == u.importId
    && t.deleting == u.deleting
  }

  /** t is the worker's copy or the stored object, up to version and finalizer. */
  predicate FromSource(w: World, t: TfRun) {
    (InReconcile(w.worker) && SameBut(t, w.worker.mem)) || (w.stored.Some? && SameBut(t, w.stored.value))
  }

  /** The stored status is the old one or the worker's copy of it; the generation does not fall. */
  predicate StoredLink(w: World, stored: Option<TfRun>) {
    stored.Some? ==>
      && w.stored.Some? && w.stored.value.generation <= stored.value.generation
      && (|| stored.value.status == w.stored.value.status
          || (w.worker.call.WriteStatus? && Current(w) && stored.value.status == w.worker.mem.status))
  }

  /** The worker's copy is one it had or read, with the status unchanged or prepared for a write. */
  predicate WorkerLink(cfg: Config, w: World, e: Event, k: Worker) {
    InReconcile(k) ==>
      || k == w.worker
      || (&& e.Serve?
          && var t := Resumed(w, e.outcome).mem;
             && FromSource(w, t) && SameBut(k.mem, t.(status := k.mem.status))
             && (|| k.mem.status == t.status
                 || (k.call.WriteStatus? && Route(cfg, w, e.outcome, Turn(k.call, k.mem.status))
                     && StatusFor(cfg, w, e.outcome, e.id, t, k.mem.status, k.call.purpose))))
  }

  lemma StoredLinks(w: World, e: Event)
    requires Base(w)
    ensures StoredLink(w, StoredAfter(w, e))
  {
  }

  lemma ResumedFromSource(w: World, o: Outcome, c: Call)
    requires HoldsObject(w, o, c) && InReconcile(w.worker.(call := c))
    ensures FromSource(w, Resumed(w, o).mem)
  {
  }

  lemma WorkerLinks(cfg: Config, w: World, e: Event)
    ensures WorkerLink(cfg, w, e, WorkerAfter(cfg, w, e))
  {
    if e.Serve? {
      var turn := ServedTurn(cfg, w, e.outcome, e.id);
      ServedMoves(cfg, w, e.outcome, e.id);
      RouteHoldsObject(cfg, w, e.outcome, turn);
      if InReconcile(WorkerAfter(cfg, w, e)) {
        ResumedFromSource(w, e.outcome, turn.call);
      }
    }
  }
}
