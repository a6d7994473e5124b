/** Remote workspaces: how many are created, and that they are checked before a run. */
module WorkspaceInvariants {
  import opened Types
  import opened Machine
  import opened Turns
  import opened CopyInvariants

  /** Every created or imported workspace id has been stored, was lost, or waits for its write. */
  predicate AccountOk(k: Worker, h: History) {
    h.workspacesCreated + h.imports == h.recorded + h.lostWorkspaces + Count(k.call == WriteStatus(NewWorkspace))
  }

  /** A stored id is one more storing than clearing. */
  predicate RecordedOk(stored: Option<TfRun>, h: History) {
    && h.clears <= h.recorded <= h.clears + 1
    && (stored.Some? ==> h.recorded == h.clears + Count(stored.value.status.workspaceID != ""))
  }

  /** The reconcile knows whether it began with a workspace id, and verified tells whether it has been checked. */
  predicate CheckOk(k: Worker) {
    && (k.call.AddFinalizer? ==> k.hadWorkspace == (k.mem.status.workspaceID != ""))
    && (k.call.EnsureWorkspace? || k.call.ImportWorkspace? || ResumesAfterWorkspace(k.call) ==> !k.hadWorkspace)
    && (k.call.FetchJob? || k.call.FetchSecret? || k.call.CreateJob? ==>
          k.hadWorkspace && k.mem.spec.backend.cloud.Some? ==> k.verified)
  }

  predicate NotYetUnsettled(k: Worker) {
    InReconcile(k) && !k.mem.deleting && !AfterSettling(k.call) ==> !k.unsettled
  }

  /** After the workspace, the copy has an id unless the reconcile has gone on from a failed or delayed workspace. */
  predicate SettledOk(k: Worker) {
    && NotYetUnsettled(k)
    && (k.call == WriteStatus(Resume) ==> k.mem.status.workspaceID == "")
    && (k.call == WriteStatus(NewWorkspace) || k.call == WriteStatus(Imported) || k.call.CheckWorkspace? ==>
          k.mem.status.workspaceID != "")
    && (k.call.FetchJob? || k.call.FetchSecret? || k.call.CreateJob? ==>
          k.mem.spec.backend.cloud.Some? ==> (k.mem.status.workspaceID == "" <==> k.unsettled))
  }

  /** Calls made with the workspace out of the way. */
  predicate AfterSettling(c: Call) {
    || c.FetchJob? || c.FetchSecret? || c.CreateJob? || c.RefetchToAdopt?
    || (c.WriteStatus? && !ResumesAfterWorkspace(c))
  }

  lemma WrittenWorkspaceId(cfg: Config, w: World, o: Outcome, id: string, t: TfRun, s: Status, p: Purpose)
    requires StatusFor(cfg, w, o, id, t, s, p)
    ensures if p.NewWorkspace? || p.Imported? then s.workspaceID != ""
            else p.ClearWorkspace? || s.workspaceID == t.status.workspaceID
  {
  }

  lemma ServedNotYetUnsettled(cfg: Config, w: World, o: Outcome, turn: Turn)
    requires Base(w) && NotYetUnsettled(w.worker) && Route(cfg, w, o, turn)
    ensures NotYetUnsettled(Take(Resumed(w, o), turn))
  {
  }

  lemma ServedSettled(cfg: Config, w: World, o: Outcome, id: string, turn: Turn)
    requires Base(w) && SettledOk(w.worker) && Route(cfg, w, o, turn) && WriteReasons(cfg, w, o, id, turn)
    ensures SettledOk(Take(Resumed(w, o), turn))
  {
    hide ServedTurn, StatusFor, CopyOk;
    ServedNotYetUnsettled(cfg, w, o, turn);
    if turn.call.WriteStatus? {
      WrittenWorkspaceId(cfg, w, o, id, Resumed(w, o).mem, turn.status, turn.call.purpose);
    }
  }

  lemma SettledKept(cfg: Config, w: World, e: Event)
    requires Base(w) && SettledOk(w.worker)
    ensures SettledOk(WorkerAfter(cfg, w, e))
  {
    hide ServedTurn;
    if e.Serve? {
      ServedMoves(cfg, w, e.outcome, e.id);
      ServedSettled(cfg, w, e.outcome, e.id, ServedTurn(cfg, w, e.outcome, e.id));
    }
  }

  lemma ServedAccount(cfg: Config, w: World, o: Outcome, id: string, turn: Turn, h: History)
    requires AccountOk(w.worker, w.hist)
    requires Route(cfg, w, o, turn) && WriteReasons(cfg, w, o, id, turn)
    requires w.worker.call.EnsureWorkspace? && o.Done? && id != "" && id !in w.hist.workspaceIds ==>
               turn.call == WriteStatus(NewWorkspace)
    requires h == HistoryAfter(cfg, w, Serve(o, id))
    ensures AccountOk(Take(Resumed(w, o), turn), h)
  {
  }

  lemma AccountKept(cfg: Config, w: World, e: Event)
    requires AccountOk(w.worker, w.hist)
    ensures AccountOk(WorkerAfter(cfg, w, e), HistoryAfter(cfg, w, e))
  {
    if e.Serve? {
      ServedMoves(cfg, w, e.outcome, e.id);
      ServedAccount(cfg, w, e.outcome, e.id, ServedTurn(cfg, w, e.outcome, e.id), HistoryAfter(cfg, w, e));
    }
  }

  lemma RecordedKept(cfg: Config, w: World, e: Event)
    requires Base(w) && RecordedOk(w.stored, w.hist)
    ensures RecordedOk(StoredAfter(w, e), HistoryAfter(cfg, w, e))
  {
    if e.Serve? && w.worker.call.WriteStatus? && Lands(w, e.outcome) {
      assert WriteDiffers(w.worker.call.purpose, w.worker.mem.status, w.stored.value.status);
    }
  }

  lemma ServedCheck(cfg: Config, w: World, o: Outcome, turn: Turn)
    requires Base(w) && CheckOk(w.worker) && Route(cfg, w, o, turn)
    ensures CheckOk(Take(Resumed(w, o), turn))
  {
  }

  lemma CheckKept(cfg: Config, w: World, e: Event)
    requires Base(w) && CheckOk(w.worker)
    ensures CheckOk(WorkerAfter(cfg, w, e))
  {
    if e.Serve? {
      ServedMoves(cfg, w, e.outcome, e.id);
      ServedCheck(cfg, w, e.outcome, ServedTurn(cfg, w, e.outcome, e.id));
    }
  }
}
