/** With no record lost at an unchanged generation every change is run once: no two runs but interval runs share
    generation and hash. */
module OncePerChange {
  import opened Types
  import opened Machine
  import opened Turns
  import opened Rules
  import opened CopyInvariants
  import opened JobInvariants
  import opened AllInvariants

  /** A run at this generation for the current hash is recorded; while another hash is pending, nothing has been run at
      this generation. */
  predicate Once(cfg: Config, t: TfRun, runs: seq<RunRecord>) {
    var current := SpecHash(cfg, t.spec);
    && (forall r | r in runs && r.generation == t.generation && r.hash == current :: t.status.lastSpecHash == current)
    && (t.status.pendingExecHash != "" && t.status.pendingExecHash != current ==>
          forall r | r in runs :: r.generation != t.generation)
  }

  /** The record of a run of the stored generation is being written. */
  predicate BeingRecorded(stored: Option<TfRun>, k: Worker) {
    stored.Some? && k.call == WriteStatus(RecordJob) && k.mem.generation == stored.value.generation
  }

  predicate StoredOnce(cfg: Config, stored: Option<TfRun>, k: Worker, runs: seq<RunRecord>) {
    stored.Some? && !BeingRecorded(stored, k) ==> Once(cfg, stored.value, runs)
  }

  predicate CopyOnce(cfg: Config, k: Worker, runs: seq<RunRecord>) { InReconcile(k) ==> Once(cfg, k.mem, runs) }

  /** Runs for a change, unlike interval runs, differ in generation or hash. */
  predicate AllDiffer(runs: seq<RunRecord>) {
    forall i: nat, j: nat | i < j < |runs| && !runs[i].cause.IntervalDue? && !runs[j].cause.IntervalDue? ::
      runs[i].generation != runs[j].generation || runs[i].hash != runs[j].hash
  }

  predicate OnceOk(cfg: Config, w: World) {
    StoredOnce(cfg, w.stored, w.worker, w.hist.runs) && CopyOnce(cfg, w.worker, w.hist.runs) && AllDiffer(w.hist.runs)
  }

  /* ---------- one step ---------- */

  lemma EnvironmentKeepsOnce(cfg: Config, w: World, e: Event)
    requires GenerationsOk(w.stored, w.hist.runs) && StoredOnce(cfg, w.stored, w.worker, w.hist.runs) && !e.Serve?
    requires Permits(cfg, RecordsLandInTime, w, e)
    ensures StoredOnce(cfg, StoredAfter(w, e), WorkerAfter(cfg, w, e), w.hist.runs)
  {
    var stored := StoredAfter(w, e);
    if stored.Some? && stored.value.generation == w.stored.value.generation {
      assert stored.value.spec == w.stored.value.spec && stored.value.status == w.stored.value.status;
    }
  }

  /** A run for a generation the object has left behind does not touch it. */
  lemma OtherGenerationOnce(cfg: Config, w: World, t: TfRun)
    requires w.worker.call.CreateJob? && w.worker.mem.generation != t.generation && Once(cfg, t, w.hist.runs)
    ensures Once(cfg, t, w.hist.runs + [NewRun(cfg, w)])
  {
  }

  /** What a served call stores has what the stored object or the copy had. */
  lemma ServedKeepsOnce(cfg: Config, w: World, o: Outcome)
    requires Base(w) && StoredOnce(cfg, w.stored, w.worker, w.hist.runs) && CopyOnce(cfg, w.worker, w.hist.runs)
    requires BeingRecorded(w.stored, w.worker) ==> Lands(w, o)
    ensures StoredServed(w, o).Some? ==> Once(cfg, StoredServed(w, o).value, w.hist.runs)
  {
  }

  lemma WrittenStaysOnce(cfg: Config, w: World, o: Outcome, id: string, t: TfRun, s: Status, p: Purpose)
    requires Once(cfg, t, w.hist.runs) && StatusFor(cfg, w, o, id, t, s, p) && !p.RecordJob?
    ensures Once(cfg, t.(status := s), w.hist.runs)
  {
  }

  lemma RecordedIsOnce(cfg: Config, w: World)
    requires w.worker.call.CreateJob? && Once(cfg, w.worker.mem, w.hist.runs)
    requires Why(cfg, w.worker.mem, w.worker.call.hash, w.worker.call.cause, w.clock)
    ensures Once(cfg, w.worker.mem.(status := RecordRun(cfg, w.worker.mem, w.worker.call.hash, w.clock)),
                 w.hist.runs + [NewRun(cfg, w)])
  {
  }

  lemma CopyStaysOnce(cfg: Config, w: World, e: Event)
    requires Base(w) && RunOnItsWay(cfg, w.worker, w.clock)
    requires StoredOnce(cfg, w.stored, w.worker, w.hist.runs) && CopyOnce(cfg, w.worker, w.hist.runs)
    requires Permits(cfg, RecordsLandInTime, w, e)
    ensures CopyOnce(cfg, WorkerAfter(cfg, w, e), RunsAfter(cfg, w, e))
  {
    hide Once;
    var k := WorkerAfter(cfg, w, e);
    WorkerLinks(cfg, w, e);
    if InReconcile(k) && k != w.worker {
      if CreatesApplyJob(cfg, w, e) {
        RecordedIsOnce(cfg, w);
        assert k.mem == w.worker.mem.(status := RecordRun(cfg, w.worker.mem, w.worker.call.hash, w.clock));
      } else {
        GoesOnOnce(cfg, w, e);
      }
    }
  }

  lemma OnceOfSame(cfg: Config, t: TfRun, u: TfRun, runs: seq<RunRecord>)
    requires SameBut(t, u) && Once(cfg, u, runs)
    ensures Once(cfg, t, runs)
  {
  }

  lemma GoesOnOnce(cfg: Config, w: World, e: Event)
    requires StoredOnce(cfg, w.stored, w.worker, w.hist.runs) && CopyOnce(cfg, w.worker, w.hist.runs)
    requires WorkerLink(cfg, w, e, WorkerAfter(cfg, w, e)) && WorkerAfter(cfg, w, e) != w.worker
    requires !CreatesApplyJob(cfg, w, e) && InReconcile(WorkerAfter(cfg, w, e))
    ensures Once(cfg, WorkerAfter(cfg, w, e).mem, w.hist.runs)
  {
    hide Once, ServedTurn, Resumed;
    var k, t := WorkerAfter(cfg, w, e), Resumed(w, e.outcome).mem;
    if w.worker.call == WriteStatus(RecordJob) {
      RecordEndsReconcile(cfg, w, e);
    }
    SourceIsOnce(cfg, w, t);
    if k.mem.status != t.status {
      WrittenStaysOnce(cfg, w, e.outcome, e.id, t, k.mem.status, k.call.purpose);
    }
    OnceOfSame(cfg, k.mem, t.(status := k.mem.status), w.hist.runs);
  }

  lemma RecordEndsReconcile(cfg: Config, w: World, e: Event)
    requires w.worker.call == WriteStatus(RecordJob) && e.Serve?
    ensures WorkerAfter(cfg, w, e).call.Idle?
  {
  }

  lemma SourceIsOnce(cfg: Config, w: World, t: TfRun)
    requires FromSource(w, t) && w.worker.call != WriteStatus(RecordJob)
    requires StoredOnce(cfg, w.stored, w.worker, w.hist.runs) && CopyOnce(cfg, w.worker, w.hist.runs)
    ensures Once(cfg, t, w.hist.runs)
  {
  }

  lemma StoredStaysOnce(cfg: Config, w: World, e: Event)
    requires Base(w) && GenerationsOk(w.stored, w.hist.runs)
    requires StoredOnce(cfg, w.stored, w.worker, w.hist.runs) && CopyOnce(cfg, w.worker, w.hist.runs)
    requires Permits(cfg, RecordsLandInTime, w, e)
    ensures StoredOnce(cfg, StoredAfter(w, e), WorkerAfter(cfg, w, e), RunsAfter(cfg, w, e))
  {
    hide Once;
    if !e.Serve? {
      EnvironmentKeepsOnce(cfg, w, e);
    } else if CreatesApplyJob(cfg, w, e) {
      if w.stored.Some? && w.worker.mem.generation != w.stored.value.generation {
        OtherGenerationOnce(cfg, w, w.stored.value);
      }
    } else {
      ServedKeepsOnce(cfg, w, e.outcome);
    }
  }

  /** A run for a change is the first one at its generation for its hash. */
  lemma NewRunDiffers(cfg: Config, w: World, e: Event)
    requires RunOnItsWay(cfg, w.worker, w.clock) && CopyOnce(cfg, w.worker, w.hist.runs) && AllDiffer(w.hist.runs)
    ensures AllDiffer(RunsAfter(cfg, w, e))
  {
    if CreatesApplyJob(cfg, w, e) && !w.worker.call.cause.IntervalDue? {
      var n := NewRun(cfg, w);
      assert forall r | r in w.hist.runs :: r.generation != n.generation || r.hash != n.hash;
    }
  }

  /* ---------- whole runs ---------- */

  lemma {:induction false} OnceHolds(cfg: Config, w0: World, es: seq<Event>)
    requires WellNamed(cfg) && Initial(cfg, w0) && Obeys(cfg, {RecordsLandInTime}, w0, es)
    ensures OnceOk(cfg, Run(cfg, w0, es))
  {
    if es != [] {
      var m := |es| - 1;
      var w := Run(cfg, w0, es[..m]);
      OnceHolds(cfg, w0, es[..m]);
      CoreHolds(cfg, w0, es[..m]);
      StoredStaysOnce(cfg, w, es[m]);
      CopyStaysOnce(cfg, w, es[m]);
      NewRunDiffers(cfg, w, es[m]);
    }
  }

  /** Jobs that have expired included, and whatever reads fail, other writes are lost and names collide. */
  lemma EveryChangeRunsOnce(cfg: Config, w0: World, es: seq<Event>)
    requires WellNamed(cfg) && Initial(cfg, w0) && Obeys(cfg, {RecordsLandInTime}, w0, es)
    ensures var runs := Run(cfg, w0, es).hist.runs;
            forall i: nat, j: nat | i < j < |runs| && !runs[i].cause.IntervalDue? && !runs[j].cause.IntervalDue? ::
              runs[i].generation != runs[j].generation || runs[i].hash != runs[j].hash
  {
    OnceHolds(cfg, w0, es);
  }
}
