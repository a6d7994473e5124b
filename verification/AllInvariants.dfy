/** The invariants together, over every run. */
module AllInvariants {
  import opened Types
  import opened Machine
  import opened CopyInvariants
  import opened StatusInvariants
  import opened JobInvariants
  import opened DeletionInvariants
  import opened WorkspaceInvariants

  predicate StatusCore(cfg: Config, w: World) {
    && HashesOk(cfg, w.stored, w.worker, w.hist.hashes)
    && PendingOk(w.stored, w.worker, w.hist.hashes)
    && SourcedOk(w.stored, w.worker, w.hist.runs)
    && WorkspaceOk(w.stored, w.worker)
    && ObservedOk(w.stored, w.worker)
  }

  predicate JobCore(cfg: Config, w: World) {
    && RunOnItsWay(cfg, w.worker, w.clock)
    && RunsSound(cfg, w.hist.runs)
    && JobsSound(cfg, w.jobs, w.hist.runs)
    && GenerationsOk(w.stored, w.hist.runs)
    && LastOk(cfg, w.stored, w.worker, w.hist)
    && NoteKeepsTarget(cfg, w.stored, w.worker)
  }

  predicate DeletionCore(cfg: Config, w: World) {
    && DestroyCount(cfg, w.jobs, w.hist)
    && ReportsOk(w.jobs)
    && DestroyNamesOk(cfg, w.stored, w.worker, w.hist)
    && OverOk(w.worker, w.hist)
    && GoneOk(w.stored, w.worker, w.workspaces)
    && FrozenOk(w.stored, w.worker)
  }

  predicate WorkspaceCore(w: World) {
    AccountOk(w.worker, w.hist) && RecordedOk(w.stored, w.hist) && CheckOk(w.worker) && SettledOk(w.worker)
  }

  predicate Core(cfg: Config, w: World) {
    Base(w) && StatusCore(cfg, w) && JobCore(cfg, w) && DeletionCore(cfg, w) && WorkspaceCore(w)
  }

  lemma StepKeepsStatus(cfg: Config, w: World, e: Event)
    requires WellNamed(cfg) && Core(cfg, w)
    ensures StatusCore(cfg, Step(cfg, w, e))
  {
    StoredLinks(w, e);
    WorkerLinks(cfg, w, e);
    HashesKept(cfg, w, e);
    PendingKept(cfg, w, e, StoredAfter(w, e), WorkerAfter(cfg, w, e), HistoryAfter(cfg, w, e).hashes);
    WorkspaceKept(cfg, w, e, StoredAfter(w, e), WorkerAfter(cfg, w, e));
    AdoptedIsNamed(cfg, w, e);
    SourcedKept(cfg, w, e, StoredAfter(w, e), WorkerAfter(cfg, w, e), RunsAfter(cfg, w, e));
    ObservedKept(cfg, w, e);
  }

  lemma StepKeepsJobs(cfg: Config, w: World, e: Event)
    requires WellNamed(cfg) && Core(cfg, w)
    ensures JobCore(cfg, Step(cfg, w, e))
  {
    RunOnItsWayKept(cfg, w, e);
    RunsKept(cfg, w, e);
    JobsKept(cfg, w, e);
    GenerationsKept(cfg, w, e);
    LastKept(cfg, w, e);
    NoteKept(cfg, w, e);
  }

  lemma StepKeepsDeletion(cfg: Config, w: World, e: Event)
    requires WellNamed(cfg) && Core(cfg, w)
    ensures DeletionCore(cfg, Step(cfg, w, e))
  {
    CountKept(cfg, w, e);
    ReportsKept(cfg, w, e);
    DestroyNamesKept(cfg, w, e);
    OverKept(cfg, w, e);
    GoneKept(cfg, w, e);
    FrozenKept(cfg, w, e);
  }

  lemma StepKeepsWorkspaces(cfg: Config, w: World, e: Event)
    requires WellNamed(cfg) && Core(cfg, w)
    ensures WorkspaceCore(Step(cfg, w, e))
  {
    AccountKept(cfg, w, e);
    RecordedKept(cfg, w, e);
    CheckKept(cfg, w, e);
    SettledKept(cfg, w, e);
  }

  lemma StepKeepsCore(cfg: Config, w: World, e: Event)
    requires WellNamed(cfg) && Core(cfg, w)
    ensures Core(cfg, Step(cfg, w, e))
  {
    StepKeepsBase(cfg, w, e);
    StepKeepsStatus(cfg, w, e);
    StepKeepsJobs(cfg, w, e);
    StepKeepsDeletion(cfg, w, e);
    StepKeepsWorkspaces(cfg, w, e);
  }

  lemma {:induction false} CoreStays(cfg: Config, w: World, es: seq<Event>)
    requires WellNamed(cfg) && Core(cfg, w)
    ensures Core(cfg, Run(cfg, w, es))
  {
    if es != [] {
      var m := |es| - 1;
      CoreStays(cfg, w, es[..m]);
      StepKeepsCore(cfg, Run(cfg, w, es[..m]), es[m]);
    }
  }

  /** Every reachable state keeps the invariants. */
  lemma CoreHolds(cfg: Config, w0: World, es: seq<Event>)
    requires WellNamed(cfg) && Initial(cfg, w0)
    ensures Core(cfg, Run(cfg, w0, es))
  {
    CoreStays(cfg, w0, es);
  }
}
