/** At most one apply Job is unfinished, even when status writes are lost. */
module Exclusion {
  import opened Types
  import opened Machine
  import opened Turns
  import opened Rules
  import opened CopyInvariants
  import opened JobInvariants
  import opened AllInvariants

  function Target(cfg: Config, t: TfRun): string { cfg.jobName(SpecVersion(t), TargetHash(cfg, t)) }

  predicate OneAtMost(names: set<string>) { forall a, b | a in names && b in names :: a == b }

  /** An unfinished apply Job is recorded, or the next run would be given its name. */
  predicate InDoubtOk(cfg: Config, stored: Option<TfRun>, unfinished: set<string>) {
    stored.Some? ==> unfinished <= {stored.value.status.activeJobName, Target(cfg, stored.value)}
  }

  predicate BeforeDecision(c: Call) {
    c.AddFinalizer? || c.CheckWorkspace? || c.EnsureWorkspace? || c.ImportWorkspace? || c.FetchJob?
    || ResumesAfterWorkspace(c)
  }

  /** A reconcile that has missed an edit finds no unfinished apply Job but the recorded one. */
  predicate MissedEditOk(stored: Option<TfRun>, k: Worker, unfinished: set<string>) {
    stored.Some? && BeforeDecision(k.call) && SpecVersion(k.mem) != SpecVersion(stored.value) ==>
      unfinished <= {stored.value.status.activeJobName}
  }

  /** From its decision on, a reconcile that starts a run finds no unfinished apply Job but the one it starts. */
  predicate OnItsWayOk(cfg: Config, k: Worker, unfinished: set<string>) {
    match k.call
    case FetchSecret(hash, _) => unfinished <= {cfg.jobName(k.mem.generation, hash)}
    case CreateJob(hash, _) => unfinished <= {cfg.jobName(k.mem.generation, hash)}
    case RefetchToAdopt(name) => unfinished <= {name}
    case WriteStatus(p) => p.RecordJob? || p.AdoptJob? ==> unfinished <= {k.mem.status.activeJobName}
    case _ => true
  }

  ghost predicate Exclusive(cfg: Config, w: World) {
    && OneAtMost(Unfinished(w))
    && InDoubtOk(cfg, w.stored, Unfinished(w))
    && MissedEditOk(w.stored, w.worker, Unfinished(w))
    && OnItsWayOk(cfg, w.worker, Unfinished(w))
  }

  ghost predicate Careful(cfg: Config, w: World, e: Event) {
    && Permits(cfg, ReliableJobReads, w, e) && Permits(cfg, TimelyCounts, w, e) && Permits(cfg, NoEditInFlight, w, e)
  }

  /* ---------- how the unfinished Jobs change ---------- */

  lemma UnfinishedAfter(cfg: Config, w: World, e: Event)
    requires WellNamed(cfg) && RunOnItsWay(cfg, w.worker, w.clock)
    ensures CreatesApplyJob(cfg, w, e) ==>
            Unfinished(Step(cfg, w, e)) == Unfinished(w) + {JobNameCreated(cfg, w.worker)}
    ensures !CreatesApplyJob(cfg, w, e) ==> Unfinished(Step(cfg, w, e)) <= Unfinished(w)
  {
  }

  /** A Job that is started is the target of the copy. */
  lemma WhyIsTarget(cfg: Config, t: TfRun, hash: string, cause: Cause, now: int)
    requires Why(cfg, t, hash, cause, now) && !t.deleting
    ensures Target(cfg, t) == cfg.jobName(t.generation, hash)
  {
  }

  lemma OneAtMostKept(cfg: Config, w: World, e: Event)
    requires WellNamed(cfg) && RunOnItsWay(cfg, w.worker, w.clock)
    requires OneAtMost(Unfinished(w)) && OnItsWayOk(cfg, w.worker, Unfinished(w))
    ensures OneAtMost(Unfinished(Step(cfg, w, e)))
  {
    UnfinishedAfter(cfg, w, e);
  }

  /** A Job created without a missed edit is the target of the stored object. */
  lemma CreatedIsTarget(cfg: Config, w: World)
    requires Base(w) && RunOnItsWay(cfg, w.worker, w.clock)
    requires w.worker.call.CreateJob? && w.stored.Some? && SpecVersion(w.worker.mem) == SpecVersion(w.stored.value)
    ensures Target(cfg, w.stored.value) == JobNameCreated(cfg, w.worker)
  {
    WhyIsTarget(cfg, w.worker.mem, w.worker.call.hash, w.worker.call.cause, w.clock);
  }

  /** Whatever status is stored: an unfinished Job is then recorded or stays the target. */
  lemma InDoubtAfterWrite(cfg: Config, w: World, o: Outcome, unfinished: set<string>)
    requires Base(w) && w.worker.call.WriteStatus? && Lands(w, o)
    requires InDoubtOk(cfg, w.stored, unfinished) && OnItsWayOk(cfg, w.worker, unfinished)
    requires NoteKeepsTarget(cfg, w.stored, w.worker)
    ensures InDoubtOk(cfg, StoredServed(w, o), unfinished)
  {
    var p := w.worker.call.purpose;
    assert WriteDiffers(p, w.worker.mem.status, w.stored.value.status);
    if !p.RecordJob? && !p.AdoptJob? {
      assert Target(cfg, StoredServed(w, o).value) == Target(cfg, w.stored.value);
    }
  }

  lemma InDoubtKept(cfg: Config, w: World, e: Event)
    requires WellNamed(cfg) && Base(w) && RunOnItsWay(cfg, w.worker, w.clock)
    requires NoteKeepsTarget(cfg, w.stored, w.worker) && Exclusive(cfg, w) && Careful(cfg, w, e)
    ensures InDoubtOk(cfg, StoredAfter(w, e), Unfinished(Step(cfg, w, e)))
  {
    hide ServedTurn, HistoryAfter;
    UnfinishedAfter(cfg, w, e);
    if CreatesApplyJob(cfg, w, e) {
      if w.stored.Some? {
        CreatedIsTarget(cfg, w);
      }
    } else if e.Serve? && w.worker.call.WriteStatus? && Lands(w, e.outcome) {
      InDoubtAfterWrite(cfg, w, e.outcome, Unfinished(w));
    }
  }

  /** Before its decision a reconcile is not behind, or no Job was in doubt when it fell behind. */
  lemma ServedMissedEdit(cfg: Config, w: World, o: Outcome, turn: Turn, unfinished: set<string>)
    requires Base(w) && Route(cfg, w, o, turn)
    requires MissedEditOk(w.stored, w.worker, unfinished)
    ensures MissedEditOk(StoredServed(w, o), Take(Resumed(w, o), turn), unfinished)
  {
  }

  lemma MissedEditKept(cfg: Config, w: World, e: Event)
    requires WellNamed(cfg) && Base(w) && RunOnItsWay(cfg, w.worker, w.clock)
    requires Exclusive(cfg, w) && Careful(cfg, w, e)
    ensures MissedEditOk(StoredAfter(w, e), WorkerAfter(cfg, w, e), Unfinished(Step(cfg, w, e)))
  {
    hide ServedTurn, HistoryAfter, JobsAfter, WorkspacesAfter, Unfinished, InDoubtOk, OnItsWayOk, WellNamed;
    UnfinishedAfter(cfg, w, e);
    if e.Serve? {
      var turn := ServedTurn(cfg, w, e.outcome, e.id);
      ServedMoves(cfg, w, e.outcome, e.id);
      if !CreatesApplyJob(cfg, w, e) {
        ServedMissedEdit(cfg, w, e.outcome, turn, Unfinished(w));
      }
    }
  }

  /** A reconcile that starts a run has seen that the recorded Job is not unfinished. */
  lemma RecordedIsOver(cfg: Config, w: World, o: Outcome, turn: Turn)
    requires WellNamed(cfg) && Base(w) && JobsSound(cfg, w.jobs, w.hist.runs) && RunsSound(cfg, w.hist.runs)
    requires Route(cfg, w, o, turn) && RunReasons(cfg, w, o, turn) && turn.call.FetchSecret?
    requires Permits(cfg, ReliableJobReads, w, Serve(o, "")) && Permits(cfg, TimelyCounts, w, Serve(o, ""))
    ensures Resumed(w, o).mem.status.activeJobName !in Unfinished(w)
  {
  }

  lemma DecidedOnItsWay(cfg: Config, w: World, o: Outcome, turn: Turn, unfinished: set<string>)
    requires Base(w) && w.stored.Some? && turn.call.FetchSecret?
    requires Route(cfg, w, o, turn) && RunReasons(cfg, w, o, turn)
    requires MissedEditOk(w.stored, w.worker, unfinished)
    requires InDoubtOk(cfg, StoredServed(w, o), unfinished)
    requires Resumed(w, o).mem.status.activeJobName !in unfinished
    ensures OnItsWayOk(cfg, Take(Resumed(w, o), turn), unfinished)
  {
    ResumedStatus(cfg, w, o, turn);
    var t, stored := Resumed(w, o).mem, StoredServed(w, o);
    if stored.Some? && SpecVersion(t) == SpecVersion(stored.value) {
      assert Target(cfg, stored.value) == cfg.jobName(t.generation, turn.call.hash);
    }
  }

  lemma ServedOnItsWay(cfg: Config, w: World, o: Outcome, id: string, turn: Turn, unfinished: set<string>)
    requires Base(w) && !turn.call.FetchSecret?
    requires Route(cfg, w, o, turn) && WriteReasons(cfg, w, o, id, turn)
    requires OnItsWayOk(cfg, w.worker, unfinished)
    ensures OnItsWayOk(cfg, Take(Resumed(w, o), turn),
                       if w.worker.call.CreateJob? && Creates(cfg, w, o)
                       then unfinished + {JobNameCreated(cfg, w.worker)} else unfinished)
  {
  }

  lemma ServedOnItsWayKept(cfg: Config, w: World, o: Outcome, id: string)
    requires WellNamed(cfg) && Core(cfg, w) && Exclusive(cfg, w) && Careful(cfg, w, Serve(o, id))
    ensures OnItsWayOk(cfg, WorkerAfter(cfg, w, Serve(o, id)), Unfinished(Step(cfg, w, Serve(o, id))))
  {
    hide ServedTurn, HistoryAfter, StatusCore, DeletionCore, WorkspaceCore, Target, NoteKeepsTarget;
    var e := Serve(o, id);
    var turn := ServedTurn(cfg, w, o, id);
    ServedMoves(cfg, w, o, id);
    UnfinishedAfter(cfg, w, e);
    if turn.call.FetchSecret? {
      InDoubtKept(cfg, w, e);
      RecordedIsOver(cfg, w, o, turn);
      DecidedOnItsWay(cfg, w, o, turn, Unfinished(w));
    } else {
      ServedOnItsWay(cfg, w, o, id, turn, Unfinished(w));
    }
  }

  lemma OnItsWayKept(cfg: Config, w: World, e: Event)
    requires WellNamed(cfg) && Core(cfg, w) && Exclusive(cfg, w) && Careful(cfg, w, e)
    ensures OnItsWayOk(cfg, WorkerAfter(cfg, w, e), Unfinished(Step(cfg, w, e)))
  {
    if e.Serve? {
      ServedOnItsWayKept(cfg, w, e.outcome, e.id);
    } else {
      UnfinishedAfter(cfg, w, e);
    }
  }

  lemma StepKeepsExclusive(cfg: Config, w: World, e: Event)
    requires WellNamed(cfg) && Core(cfg, w) && Exclusive(cfg, w) && Careful(cfg, w, e)
    ensures Exclusive(cfg, Step(cfg, w, e))
  {
    OneAtMostKept(cfg, w, e);
    InDoubtKept(cfg, w, e);
    MissedEditKept(cfg, w, e);
    OnItsWayKept(cfg, w, e);
  }

  const CAREFUL: set<Rule> := {ReliableJobReads, TimelyCounts, NoEditInFlight}

  lemma {:induction false} ExclusiveHolds(cfg: Config, w0: World, es: seq<Event>)
    requires WellNamed(cfg) && Initial(cfg, w0) && Obeys(cfg, CAREFUL, w0, es)
    ensures Exclusive(cfg, Run(cfg, w0, es))
  {
    if es != [] {
      var m := |es| - 1;
      ExclusiveHolds(cfg, w0, es[..m]);
      CoreHolds(cfg, w0, es[..m]);
      StepKeepsExclusive(cfg, Run(cfg, w0, es[..m]), es[m]);
    }
  }

  /** However status writes fail, get lost or go unanswered, and wherever the controller crashes:
      at most one apply Job is unfinished. */
  lemma MutualExclusion(cfg: Config, w0: World, es: seq<Event>)
    requires WellNamed(cfg) && Initial(cfg, w0) && Obeys(cfg, CAREFUL, w0, es)
    ensures |Unfinished(Run(cfg, w0, es))| <= 1
  {
    ExclusiveHolds(cfg, w0, es);
    var u := Unfinished(Run(cfg, w0, es));
    if u != {} {
      var n :| n in u;
      assert u == {n};
    }
  }
}
