/** The deletion side: what has happened to the destroy Job and the workspace when the finalizer goes. */
module DeletionInvariants {
  import opened Types
  import opened Machine
  import opened Turns
  import opened CopyInvariants
  import opened JobInvariants

  /** The destroy Jobs created so far are the finished ones and the one still running. */
  predicate DestroyCount(cfg: Config, jobs: map<string, Job>, h: History) {
    && h.destroyJobs == h.destroyFinished + Count(cfg.destroyName in jobs && !jobs[cfg.destroyName].finished)
    && (cfg.destroyName in jobs ==> h.destroyJobs >= 1)
    && (forall n | n in jobs :: jobs[n].kind.Destroy? <==> n == cfg.destroyName)
  }

  /** A success with no active pod left means the Job is over. */
  predicate ReportsOk(jobs: map<string, Job>) {
    forall n | n in jobs && !jobs[n].finished :: jobs[n].active > 0 || jobs[n].succeeded == 0
  }

  /** A destroy Job was created, and every destroy Job created has finished. */
  predicate DestroyOver(h: History) { h.destroyJobs >= 1 && h.destroyFinished == h.destroyJobs }

  predicate DestroyNamed(cfg: Config, s: Status, h: History) {
    s.activeDestroyJobName != "" ==> s.activeDestroyJobName == cfg.destroyName && h.destroyJobs >= 1
  }

  predicate CleaningUp(c: Call) {
    c == WriteStatus(Cleanup) || c.DeleteWorkspace? || c.RefetchForFinalizer? || c.RemoveFinalizer?
  }

  predicate WorkspaceGone(stored: Option<TfRun>, workspaces: set<string>) {
    stored.Some? && stored.value.status.workspaceReady && stored.value.status.workspaceID != "" ==>
      stored.value.status.workspaceID !in workspaces
  }

  predicate DestroyNamesOk(cfg: Config, stored: Option<TfRun>, k: Worker, h: History) {
    && (stored.Some? ==> DestroyNamed(cfg, stored.value.status, h))
    && (InReconcile(k) ==> DestroyNamed(cfg, k.mem.status, h))
    && (k.call.FetchDestroyJob? ==> k.mem.status.activeDestroyJobName != "")
    && (k.call.RefetchForDestroy? ==> h.destroyJobs >= 1)
  }

  predicate OverOk(k: Worker, h: History) { CleaningUp(k.call) ==> DestroyOver(h) }

  predicate GoneOk(stored: Option<TfRun>, k: Worker, workspaces: set<string>) {
    k.call.RefetchForFinalizer? || k.call.RemoveFinalizer? ==> WorkspaceGone(stored, workspaces)
  }

  lemma CountKept(cfg: Config, w: World, e: Event)
    requires WellNamed(cfg) && RunOnItsWay(cfg, w.worker, w.clock) && DestroyCount(cfg, w.jobs, w.hist)
    ensures DestroyCount(cfg, JobsAfter(cfg, w, e), HistoryAfter(cfg, w, e))
  {
  }

  lemma ReportsKept(cfg: Config, w: World, e: Event)
    requires ReportsOk(w.jobs)
    ensures ReportsOk(JobsAfter(cfg, w, e))
  {
  }

  lemma WrittenDestroyNamed(cfg: Config, w: World, o: Outcome, id: string, t: TfRun, s: Status, p: Purpose, h: History)
    requires DestroyNamed(cfg, t.status, h) && StatusFor(cfg, w, o, id, t, s, p)
    requires p.Note? && (w.worker.call.RefetchForDestroy? || w.worker.call.CreateDestroyJob?) ==> h.destroyJobs >= 1
    ensures DestroyNamed(cfg, s, h)
  {
  }

  /** A destroy Job that is adopted exists, and so does one that is recorded. */
  lemma DestroyJobExists(cfg: Config, w: World, o: Outcome, turn: Turn, h: History)
    requires DestroyCount(cfg, w.jobs, w.hist) && DestroyNamesOk(cfg, w.stored, w.worker, w.hist)
    requires Route(cfg, w, o, turn)
    requires h.destroyJobs == w.hist.destroyJobs + Count(w.worker.call.CreateDestroyJob? && Creates(cfg, w, o))
    ensures turn.call.RefetchForDestroy? ==> h.destroyJobs >= 1
    ensures turn.call == WriteStatus(Note) && (w.worker.call.RefetchForDestroy? || w.worker.call.CreateDestroyJob?) ==>
              h.destroyJobs >= 1
    ensures turn.call.FetchDestroyJob? ==> turn.status.activeDestroyJobName != ""
  {
  }

  lemma DestroyNamesKept(cfg: Config, w: World, e: Event)
    requires Base(w) && DestroyCount(cfg, w.jobs, w.hist) && DestroyNamesOk(cfg, w.stored, w.worker, w.hist)
    ensures DestroyNamesOk(cfg, StoredAfter(w, e), WorkerAfter(cfg, w, e), HistoryAfter(cfg, w, e))
  {
    hide ServedTurn, SuccessReported, CopyOk, SidesOk;
    StoredLinks(w, e);
    WorkerLinks(cfg, w, e);
    var k, h := WorkerAfter(cfg, w, e), HistoryAfter(cfg, w, e);
    if e.Serve? {
      ServedMoves(cfg, w, e.outcome, e.id);
      DestroyJobExists(cfg, w, e.outcome, ServedTurn(cfg, w, e.outcome, e.id), h);
    }
    if InReconcile(k) && k != w.worker {
      var t := Resumed(w, e.outcome).mem;
      if k.mem.status != t.status {
        WrittenDestroyNamed(cfg, w, e.outcome, e.id, t, k.mem.status, k.call.purpose, h);
      }
    }
  }

  lemma ServedOver(cfg: Config, w: World, o: Outcome, id: string, turn: Turn)
    requires OverOk(w.worker, w.hist) && DestroyNamesOk(cfg, w.stored, w.worker, w.hist)
    requires DestroyCount(cfg, w.jobs, w.hist) && ReportsOk(w.jobs)
    requires Route(cfg, w, o, turn) && WriteReasons(cfg, w, o, id, turn)
    ensures CleaningUp(turn.call) ==> DestroyOver(w.hist) && !w.worker.call.CreateDestroyJob?
  {
  }

  lemma OverKept(cfg: Config, w: World, e: Event)
    requires OverOk(w.worker, w.hist) && DestroyNamesOk(cfg, w.stored, w.worker, w.hist)
    requires DestroyCount(cfg, w.jobs, w.hist) && ReportsOk(w.jobs)
    ensures OverOk(WorkerAfter(cfg, w, e), HistoryAfter(cfg, w, e))
  {
    if e.Serve? {
      ServedMoves(cfg, w, e.outcome, e.id);
      ServedOver(cfg, w, e.outcome, e.id, ServedTurn(cfg, w, e.outcome, e.id));
    }
  }

  lemma ServedGone(cfg: Config, w: World, o: Outcome, id: string, turn: Turn)
    requires Base(w) && GoneOk(w.stored, w.worker, w.workspaces)
    requires Route(cfg, w, o, turn)
    ensures GoneOk(StoredServed(w, o), Take(Resumed(w, o), turn), WorkspacesAfter(w, Serve(o, id)))
  {
  }

  lemma GoneKept(cfg: Config, w: World, e: Event)
    requires Base(w) && GoneOk(w.stored, w.worker, w.workspaces)
    ensures GoneOk(StoredAfter(w, e), WorkerAfter(cfg, w, e), WorkspacesAfter(w, e))
  {
    if e.Serve? {
      ServedMoves(cfg, w, e.outcome, e.id);
      ServedGone(cfg, w, e.outcome, e.id, ServedTurn(cfg, w, e.outcome, e.id));
    }
  }

  /* ---------- deletion freezes the apply side ---------- */

  predicate Frozen(s: Status, u: Status) {
    && s.lastSpecHash == u.lastSpecHash && s.pendingExecHash == u.pendingExecHash && s.runID == u.runID
    && s.workspaceID == u.workspaceID && s.nextRunTime == u.nextRunTime
  }

  /** A copy that has seen the deletion keeps these fields. */
  predicate FrozenOk(stored: Option<TfRun>, k: Worker) {
    stored.Some? && InReconcile(k) && k.mem.deleting ==> Frozen(k.mem.status, stored.value.status)
  }

  predicate HandlesDestroyJob(c: Call) {
    c.FetchDestroyJob? || c.ProbeDestroyJob? || c.RefetchForDestroy? || c.FetchDestroySecret? || c.CreateDestroyJob?
  }

  /** What is written of an object under deletion is a clean-up, an adopted Job, or a note on its destroy Job. */
  lemma DeletionWrites(cfg: Config, w: World, o: Outcome, turn: Turn)
    requires SidesOk(w.stored, w.worker) && Route(cfg, w, o, turn)
    requires turn.call.WriteStatus? && Resumed(w, o).mem.deleting
    ensures var p := turn.call.purpose; p.Cleanup? || p.AdoptJob? || (p.Note? && HandlesDestroyJob(w.worker.call))
  {
  }

  lemma WrittenFrozen(cfg: Config, w: World, o: Outcome, id: string, t: TfRun, s: Status, p: Purpose)
    requires StatusFor(cfg, w, o, id, t, s, p)
    requires p.Cleanup? || p.AdoptJob? || (p.Note? && HandlesDestroyJob(w.worker.call))
    ensures Frozen(s, t.status)
  {
  }

  lemma ServedFrozen(cfg: Config, w: World, o: Outcome, id: string, turn: Turn)
    requires Base(w) && FrozenOk(w.stored, w.worker)
    requires Route(cfg, w, o, turn) && WriteReasons(cfg, w, o, id, turn)
    ensures FrozenOk(StoredServed(w, o), Take(Resumed(w, o), turn))
  {
    hide ServedTurn, StatusFor, CopyOk, SidesOk;
    var t := Resumed(w, o).mem;
    if AsRead(turn.call) || turn.call.WriteStatus? {
      ResumedStatus(cfg, w, o, turn);
    }
    if turn.call.WriteStatus? && t.deleting {
      DeletionWrites(cfg, w, o, turn);
      WrittenFrozen(cfg, w, o, id, t, turn.status, turn.call.purpose);
    }
  }

  lemma FrozenKept(cfg: Config, w: World, e: Event)
    requires Base(w) && FrozenOk(w.stored, w.worker)
    ensures FrozenOk(StoredAfter(w, e), WorkerAfter(cfg, w, e))
  {
    if e.Serve? {
      ServedMoves(cfg, w, e.outcome, e.id);
      ServedFrozen(cfg, w, e.outcome, e.id, ServedTurn(cfg, w, e.outcome, e.id));
    }
  }
}
