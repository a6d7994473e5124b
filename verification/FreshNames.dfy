/** With distinct names, and no record lost at an unchanged generation, an apply Job is never created under a name that
    is taken. */
module FreshNames {
  import opened Types
  import opened Machine
  import opened Turns
  import opened Rules
  import opened CopyInvariants
  import opened StatusInvariants
  import opened JobInvariants
  import opened AllInvariants

  /** A Job at this generation and current hash is the recorded one; while another hash is pending, no Job has been
      made at this generation. */
  predicate Fresh(cfg: Config, t: TfRun, jobs: map<string, Job>) {
    var current := SpecHash(cfg, t.spec);
    var name := cfg.jobName(t.generation, current);
    && (name in jobs ==> t.status.activeJobName == name && t.status.lastSpecHash == current)
    && (t.status.pendingExecHash != "" && t.status.pendingExecHash != current ==>
          forall n | n in jobs && jobs[n].kind.Apply? :: jobs[n].generation != t.generation)
  }

  predicate RunsKnown(runs: seq<RunRecord>, hashes: set<string>) { forall r | r in runs :: r.hash in hashes }

  /** The name of a run on its way is free. */
  predicate NameIsFree(cfg: Config, k: Worker, jobs: map<string, Job>) {
    && (k.call.FetchSecret? ==> cfg.jobName(k.mem.generation, k.call.hash) !in jobs)
    && (k.call.CreateJob? ==> cfg.jobName(k.mem.generation, k.call.hash) !in jobs)
  }

  /** The record of a Job of the stored generation is being written. */
  predicate BeingRecorded(stored: Option<TfRun>, k: Worker) {
    stored.Some? && k.call == WriteStatus(RecordJob) && k.mem.generation == stored.value.generation
  }

  predicate FreshOk(cfg: Config, w: World) {
    var k := w.worker;
    && RunsKnown(w.hist.runs, w.hist.hashes)
    && (w.stored.Some? && !BeingRecorded(w.stored, k) ==> Fresh(cfg, w.stored.value, w.jobs))
    && (InReconcile(k) ==> Fresh(cfg, k.mem, w.jobs))
    && NameIsFree(cfg, k, w.jobs)
    && NotAdopting(k.call)
  }

  predicate NotAdopting(c: Call) { !c.RefetchToAdopt? && c != WriteStatus(AdoptJob) }

  ghost predicate Reliable(cfg: Config, w: World, e: Event) {
    && Permits(cfg, RecordsLandInTime, w, e) && Permits(cfg, ReliableJobReads, w, e)
      && Permits(cfg, DistinctNames, w, e)
  }

  lemma RunsKnownKept(cfg: Config, w: World, e: Event)
    requires RunOnItsWay(cfg, w.worker, w.clock) && RunsKnown(w.hist.runs, w.hist.hashes)
    requires HashesOk(cfg, w.stored, w.worker, w.hist.hashes) && PendingOk(w.stored, w.worker, w.hist.hashes)
    ensures RunsKnown(RunsAfter(cfg, w, e), HistoryAfter(cfg, w, e).hashes)
  {
  }

  /** The name of a Job that is there tells its generation and hash. */
  lemma NameTells(cfg: Config, w: World, g: nat, h: string)
    requires JobsSound(cfg, w.jobs, w.hist.runs) && RunsSound(cfg, w.hist.runs) && GenerationsOk(w.stored, w.hist.runs)
    requires RunsKnown(w.hist.runs, w.hist.hashes) && NamesApart(cfg, w) && w.stored.Some? && WellNamed(cfg)
    requires g <= w.stored.value.generation && h in w.hist.hashes && 8 <= |h| && cfg.jobName(g, h) in w.jobs
    ensures var j := w.jobs[cfg.jobName(g, h)]; j.kind.Apply? && j.generation == g && j.hash == h
  {
    assert JobSound(cfg, cfg.jobName(g, h), w.jobs[cfg.jobName(g, h)], w.hist.runs);
  }

  /** Jobs that report or go away, and a destroy Job, leave an object fresh. */
  lemma StaysFresh(cfg: Config, w: World, e: Event, t: TfRun)
    requires WellNamed(cfg) && Fresh(cfg, t, w.jobs) && !CreatesApplyJob(cfg, w, e)
    ensures Fresh(cfg, t, JobsAfter(cfg, w, e))
  {
  }

  /** An object at a generation for which no Job has been created is fresh. */
  lemma NewGenerationFresh(cfg: Config, w: World, t: TfRun)
    requires WellNamed(cfg) && JobsSound(cfg, w.jobs, w.hist.runs) && RunsSound(cfg, w.hist.runs)
    requires forall r | r in w.hist.runs :: r.generation < t.generation
    requires forall r | r in w.hist.runs ::
      cfg.jobName(r.generation, r.hash) == cfg.jobName(t.generation, SpecHash(cfg, t.spec)) ==>
        r.generation == t.generation
    ensures Fresh(cfg, t, w.jobs)
  {
    forall n | n in w.jobs && w.jobs[n].kind.Apply?
      ensures w.jobs[n].generation != t.generation
    {
      assert JobSound(cfg, n, w.jobs[n], w.hist.runs);
    }
  }

  lemma SameGenerationFresh(cfg: Config, w: World, e: Event)
    requires WellNamed(cfg) && !e.Serve? && w.stored.Some? && Fresh(cfg, w.stored.value, w.jobs)
    requires StoredAfter(w, e).Some? && StoredAfter(w, e).value.generation == w.stored.value.generation
    ensures Fresh(cfg, StoredAfter(w, e).value, JobsAfter(cfg, w, e))
  {
    var t := StoredAfter(w, e).value;
    assert t.spec == w.stored.value.spec && t.status == w.stored.value.status;
    StaysFresh(cfg, w, e, t);
  }

  /** An edit or a deletion starts a new generation, which is fresh whatever is being recorded. */
  lemma ChangedGenerationFresh(cfg: Config, w: World, e: Event)
    requires WellNamed(cfg) && JobsSound(cfg, w.jobs, w.hist.runs) && RunsSound(cfg, w.hist.runs)
    requires GenerationsOk(w.stored, w.hist.runs) && RunsKnown(w.hist.runs, w.hist.hashes) && !e.Serve?
    requires HashesOk(cfg, StoredAfter(w, e), WorkerAfter(cfg, w, e), HistoryAfter(cfg, w, e).hashes)
    requires NamesApart(cfg, Step(cfg, w, e)) && w.stored.Some?
    requires StoredAfter(w, e).Some? && StoredAfter(w, e).value.generation != w.stored.value.generation
    ensures Fresh(cfg, StoredAfter(w, e).value, JobsAfter(cfg, w, e))
  {
    hide Fresh;
    NewGenerationFresh(cfg, w, StoredAfter(w, e).value);
    StaysFresh(cfg, w, e, StoredAfter(w, e).value);
  }

  lemma EnvironmentKeepsFresh(cfg: Config, w: World, e: Event)
    requires WellNamed(cfg) && Core(cfg, w) && FreshOk(cfg, w) && Reliable(cfg, w, e) && !e.Serve?
    ensures StoredAfter(w, e).Some? && !BeingRecorded(StoredAfter(w, e), WorkerAfter(cfg, w, e)) ==>
              Fresh(cfg, StoredAfter(w, e).value, JobsAfter(cfg, w, e))
  {
    hide Fresh, DeletionCore, WorkspaceCore, JobsAfter, HistoryAfter, NamesApart;
    if StoredAfter(w, e).Some? {
      if StoredAfter(w, e).value.generation != w.stored.value.generation {
        HashesKept(cfg, w, e);
        ChangedGenerationFresh(cfg, w, e);
      } else if !BeingRecorded(w.stored, w.worker) {
        SameGenerationFresh(cfg, w, e);
      }
    }
  }

  /** A Job created for a generation the object has left behind leaves it fresh. */
  lemma OtherGenerationFresh(cfg: Config, w: World, e: Event)
    requires WellNamed(cfg) && RunOnItsWay(cfg, w.worker, w.clock) && Base(w)
             && PendingOk(w.stored, w.worker, w.hist.hashes)
    requires HashesOk(cfg, w.stored, w.worker, w.hist.hashes) && NamesApart(cfg, w)
    requires CreatesApplyJob(cfg, w, e) && w.stored.Some? && w.worker.mem.generation != w.stored.value.generation
    requires Fresh(cfg, w.stored.value, w.jobs)
    ensures Fresh(cfg, w.stored.value, JobsAfter(cfg, w, e))
  {
    assert w.worker.mem.generation <= w.stored.value.generation;
    assert w.worker.call.hash in w.hist.hashes;
  }

  /** Storing a status that the copy is fresh with leaves the object fresh. */
  lemma WriteKeepsFresh(cfg: Config, w: World, o: Outcome)
    requires Base(w) && w.worker.call.WriteStatus? && Lands(w, o) && Fresh(cfg, w.worker.mem, w.jobs)
    ensures StoredServed(w, o).Some? && Fresh(cfg, StoredServed(w, o).value, w.jobs)
  {
  }

  /** A reconcile that starts a run finds its name free. */
  lemma DecidedNameIsFree(cfg: Config, w: World, o: Outcome, turn: Turn)
    requires WellNamed(cfg) && Core(cfg, w) && RunsKnown(w.hist.runs, w.hist.hashes) && NamesApart(cfg, w)
    requires Route(cfg, w, o, turn) && RunReasons(cfg, w, o, turn) && turn.call.FetchSecret? && w.stored.Some?
    requires Permits(cfg, ReliableJobReads, w, Serve(o, ""))
    requires Fresh(cfg, Resumed(w, o).mem, w.jobs)
    requires Resumed(w, o).mem.generation <= w.stored.value.generation
    requires turn.call.hash in w.hist.hashes
    ensures cfg.jobName(Resumed(w, o).mem.generation, turn.call.hash) !in w.jobs
  {
    var t := Resumed(w, o).mem;
    if cfg.jobName(t.generation, turn.call.hash) in w.jobs {
      NameTells(cfg, w, t.generation, turn.call.hash);
    }
  }

  /** The copy with the record of the Job it has created is fresh. */
  lemma RecordedFresh(cfg: Config, w: World)
    requires WellNamed(cfg) && Core(cfg, w) && RunsKnown(w.hist.runs, w.hist.hashes) && NamesApart(cfg, w)
    requires w.stored.Some? && w.worker.call.CreateJob? && Fresh(cfg, w.worker.mem, w.jobs)
    requires w.worker.mem.generation <= w.stored.value.generation && w.worker.call.hash in w.hist.hashes
    ensures var t, hash := w.worker.mem, w.worker.call.hash;
            Fresh(cfg, t.(status := RecordRun(cfg, t, hash, w.clock)),
                  w.jobs[cfg.jobName(t.generation, hash) := NewJob(cfg, w.worker)])
  {
    var t, hash := w.worker.mem, w.worker.call.hash;
    var current := SpecHash(cfg, t.spec);
    if hash != current && cfg.jobName(t.generation, current) in w.jobs {
      NameTells(cfg, w, t.generation, current);
    }
  }

  lemma CopyGeneration(w: World, o: Outcome, c: Call)
    requires Base(w) && HoldsObject(w, o, c) && !c.Idle? && !c.Panicked? && w.stored.Some?
    ensures Resumed(w, o).mem.generation <= w.stored.value.generation
  {
  }

  /** The copy a reconcile goes on with is fresh. */
  lemma ResumedFresh(cfg: Config, w: World, o: Outcome, turn: Turn)
    requires Core(cfg, w) && FreshOk(cfg, w) && Route(cfg, w, o, turn) && !turn.call.Idle?
    ensures Fresh(cfg, Resumed(w, o).mem, w.jobs)
  {
    RouteHoldsObject(cfg, w, o, turn);
    assert FromSource(w, Resumed(w, o).mem);
  }

  lemma WrittenStaysFresh(cfg: Config, w: World, o: Outcome, id: string, t: TfRun, s: Status, p: Purpose)
    requires Fresh(cfg, t, w.jobs) && StatusFor(cfg, w, o, id, t, s, p) && !p.RecordJob? && !p.AdoptJob?
    ensures Fresh(cfg, t.(status := s), w.jobs)
  {
  }

  lemma TakenStaysFresh(cfg: Config, w: World, o: Outcome, id: string, turn: Turn)
    requires WellNamed(cfg) && Core(cfg, w) && FreshOk(cfg, w) && NamesApart(cfg, w)
    requires Moves(cfg, w, o, id, turn) && !turn.call.Idle?
    requires w.worker.call.CreateJob? && Creates(cfg, w, o) ==> turn.call == WriteStatus(RecordJob)
    ensures Fresh(cfg, Resumed(w, o).mem.(status := turn.status), JobsAfter(cfg, w, Serve(o, id)))
  {
    ResumedFresh(cfg, w, o, turn);
    var t := Resumed(w, o).mem;
    if CreatesApplyJob(cfg, w, Serve(o, id)) {
      RecordedFresh(cfg, w);
    } else {
      if turn.call.WriteStatus? {
        WrittenStaysFresh(cfg, w, o, id, t, turn.status, turn.call.purpose);
      }
      StaysFresh(cfg, w, Serve(o, id), t.(status := turn.status));
    }
  }

  lemma ServedCopyFresh(cfg: Config, w: World, e: Event)
    requires WellNamed(cfg) && Core(cfg, w) && FreshOk(cfg, w) && Reliable(cfg, w, e) && e.Serve?
    ensures var k := WorkerAfter(cfg, w, e); InReconcile(k) ==> Fresh(cfg, k.mem, JobsAfter(cfg, w, e))
  {
    hide Fresh, Core, JobsAfter, NamesApart, ServedTurn;
    ServedMoves(cfg, w, e.outcome, e.id);
    if CreatesApplyJob(cfg, w, e) {
      CreationIsRecorded(cfg, w, e);
    }
    if InReconcile(WorkerAfter(cfg, w, e)) {
      TakenStaysFresh(cfg, w, e.outcome, e.id, ServedTurn(cfg, w, e.outcome, e.id));
    }
  }

  lemma ServedStaysFresh(cfg: Config, w: World, e: Event)
    requires WellNamed(cfg) && Base(w) && FreshOk(cfg, w) && e.Serve?
    requires BeingRecorded(w.stored, w.worker) ==> Lands(w, e.outcome)
    requires !CreatesApplyJob(cfg, w, e)
    ensures StoredAfter(w, e).Some? ==> Fresh(cfg, StoredAfter(w, e).value, JobsAfter(cfg, w, e))
  {
    if w.worker.call.WriteStatus? && Lands(w, e.outcome) {
      WriteKeepsFresh(cfg, w, e.outcome);
    } else if StoredAfter(w, e).Some? {
      StaysFresh(cfg, w, e, StoredAfter(w, e).value);
    }
  }

  /** An acknowledged creation is recorded next. */
  lemma CreationIsRecorded(cfg: Config, w: World, e: Event)
    requires CreatesApplyJob(cfg, w, e) && Permits(cfg, RecordsLandInTime, w, e)
    ensures WorkerAfter(cfg, w, e).call == WriteStatus(RecordJob)
  {
  }

  /** A created Job is of the stored generation, and being recorded next, or leaves the object fresh. */
  lemma CreatedStaysFresh(cfg: Config, w: World, e: Event)
    requires WellNamed(cfg) && Core(cfg, w) && FreshOk(cfg, w) && NamesApart(cfg, w)
    requires CreatesApplyJob(cfg, w, e) && Permits(cfg, RecordsLandInTime, w, e) && w.stored.Some?
    ensures BeingRecorded(StoredAfter(w, e), WorkerAfter(cfg, w, e))
            || Fresh(cfg, StoredAfter(w, e).value, JobsAfter(cfg, w, e))
  {
    hide Fresh, JobsAfter, DeletionCore, WorkspaceCore;
    CreationIsRecorded(cfg, w, e);
    if w.worker.mem.generation != w.stored.value.generation {
      OtherGenerationFresh(cfg, w, e);
    }
  }

  lemma StoredStaysFresh(cfg: Config, w: World, e: Event)
    requires WellNamed(cfg) && Core(cfg, w) && FreshOk(cfg, w) && Reliable(cfg, w, e)
    ensures StoredAfter(w, e).Some? && !BeingRecorded(StoredAfter(w, e), WorkerAfter(cfg, w, e)) ==>
              Fresh(cfg, StoredAfter(w, e).value, JobsAfter(cfg, w, e))
  {
    hide Fresh, JobsAfter, WorkerAfter, Core, NamesApart;
    if !e.Serve? {
      EnvironmentKeepsFresh(cfg, w, e);
    } else if CreatesApplyJob(cfg, w, e) {
      if w.stored.Some? {
        CreatedStaysFresh(cfg, w, e);
      }
    } else {
      assert Base(w) by {
        CoreHasBase(cfg, w);
      }
      ServedStaysFresh(cfg, w, e);
    }
  }

  lemma CoreHasBase(cfg: Config, w: World)
    requires Core(cfg, w)
    ensures Base(w)
  {
  }

  lemma ResumedHash(cfg: Config, w: World, o: Outcome, turn: Turn)
    requires Core(cfg, w) && Route(cfg, w, o, turn) && RunReasons(cfg, w, o, turn) && turn.call.FetchSecret?
    ensures w.stored.Some? && turn.call.hash in w.hist.hashes
  {
    RouteHoldsObject(cfg, w, o, turn);
    assert FromSource(w, Resumed(w, o).mem);
  }

  lemma StartedNameIsFree(cfg: Config, w: World, o: Outcome, turn: Turn)
    requires WellNamed(cfg) && Core(cfg, w) && FreshOk(cfg, w) && NamesApart(cfg, w)
    requires Permits(cfg, ReliableJobReads, w, Serve(o, ""))
    requires Route(cfg, w, o, turn) && RunReasons(cfg, w, o, turn) && turn.call.FetchSecret?
    ensures cfg.jobName(Resumed(w, o).mem.generation, turn.call.hash) !in w.jobs
  {
    RouteHoldsObject(cfg, w, o, turn);
    ResumedHash(cfg, w, o, turn);
    ResumedFresh(cfg, w, o, turn);
    CopyGeneration(w, o, turn.call);
    DecidedNameIsFree(cfg, w, o, turn);
  }

  lemma ServedNameIsFree(cfg: Config, w: World, o: Outcome, turn: Turn)
    requires NameIsFree(cfg, w.worker, w.jobs) && NotAdopting(w.worker.call) && Route(cfg, w, o, turn)
    requires turn.call.FetchSecret? ==> cfg.jobName(Resumed(w, o).mem.generation, turn.call.hash) !in w.jobs
    ensures NameIsFree(cfg, Take(Resumed(w, o), turn), w.jobs) && NotAdopting(turn.call)
    ensures turn.call.FetchSecret? || turn.call.CreateJob? ==>
              !w.worker.call.CreateJob? && !w.worker.call.CreateDestroyJob?
  {
  }

  /** Jobs appear only in creating calls. */
  lemma NoNewNames(cfg: Config, w: World, e: Event, n: string)
    requires e.Serve? ==> !w.worker.call.CreateJob? && !w.worker.call.CreateDestroyJob?
    ensures n in JobsAfter(cfg, w, e) ==> n in w.jobs
  {
  }

  lemma NameIsFreeWhenServed(cfg: Config, w: World, o: Outcome, turn: Turn)
    requires WellNamed(cfg) && Core(cfg, w) && FreshOk(cfg, w) && NamesApart(cfg, w)
    requires Permits(cfg, ReliableJobReads, w, Serve(o, ""))
    requires Route(cfg, w, o, turn) && RunReasons(cfg, w, o, turn)
    ensures NameIsFree(cfg, Take(Resumed(w, o), turn), w.jobs) && NotAdopting(turn.call)
    ensures turn.call.FetchSecret? || turn.call.CreateJob? ==>
              !w.worker.call.CreateJob? && !w.worker.call.CreateDestroyJob?
  {
    if turn.call.FetchSecret? {
      StartedNameIsFree(cfg, w, o, turn);
    }
    ServedNameIsFree(cfg, w, o, turn);
  }

  lemma NameIsFreeKept(cfg: Config, w: World, e: Event)
    requires WellNamed(cfg) && Core(cfg, w) && FreshOk(cfg, w) && Reliable(cfg, w, e)
    ensures NameIsFree(cfg, WorkerAfter(cfg, w, e), JobsAfter(cfg, w, e)) && NotAdopting(WorkerAfter(cfg, w, e).call)
  {
    var k := WorkerAfter(cfg, w, e);
    if e.Serve? {
      ServedMoves(cfg, w, e.outcome, e.id);
      NameIsFreeWhenServed(cfg, w, e.outcome, ServedTurn(cfg, w, e.outcome, e.id));
    }
    if k.call.FetchSecret? || k.call.CreateJob? {
      NoNewNames(cfg, w, e, cfg.jobName(k.mem.generation, k.call.hash));
    }
  }

  lemma StepKeepsFresh(cfg: Config, w: World, e: Event)
    requires WellNamed(cfg) && Core(cfg, w) && FreshOk(cfg, w) && Reliable(cfg, w, e)
    ensures FreshOk(cfg, Step(cfg, w, e))
  {
    RunsKnownKept(cfg, w, e);
    StoredStaysFresh(cfg, w, e);
    NameIsFreeKept(cfg, w, e);
    if e.Serve? {
      ServedCopyFresh(cfg, w, e);
    } else {
      CopyStaysFresh(cfg, w, e);
    }
  }

  lemma CopyStaysFresh(cfg: Config, w: World, e: Event)
    requires WellNamed(cfg) && FreshOk(cfg, w) && !e.Serve?
    ensures var k := WorkerAfter(cfg, w, e); InReconcile(k) ==> Fresh(cfg, k.mem, JobsAfter(cfg, w, e))
  {
    if InReconcile(w.worker) {
      StaysFresh(cfg, w, e, w.worker.mem);
    }
  }

  const RELIABLE_NAMES: set<Rule> := {RecordsLandInTime, ReliableJobReads, DistinctNames}

  lemma {:induction false} FreshHolds(cfg: Config, w0: World, es: seq<Event>)
    requires WellNamed(cfg) && Initial(cfg, w0) && Obeys(cfg, RELIABLE_NAMES, w0, es)
    ensures FreshOk(cfg, Run(cfg, w0, es))
  {
    if es != [] {
      var m := |es| - 1;
      FreshHolds(cfg, w0, es[..m]);
      CoreHolds(cfg, w0, es[..m]);
      StepKeepsFresh(cfg, Run(cfg, w0, es[..m]), es[m]);
    }
  }

  /** No creation of an apply Job meets a Job of that name, so no Job is ever adopted. */
  lemma CreationNeverMeetsAJob(cfg: Config, w0: World, es: seq<Event>)
    requires WellNamed(cfg) && Initial(cfg, w0) && Obeys(cfg, RELIABLE_NAMES, w0, es)
    ensures var w := Run(cfg, w0, es);
            && (w.worker.call.CreateJob? ==> JobNameCreated(cfg, w.worker) !in w.jobs)
            && !w.worker.call.RefetchToAdopt? && w.worker.call != WriteStatus(AdoptJob)
  {
    FreshHolds(cfg, w0, es);
  }
}
