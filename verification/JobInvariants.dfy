/** The Jobs of every run: why each was created, for which hash, and from which spec. */
module JobInvariants {
  import opened Types
  import opened Machine
  import opened Turns
  import opened CopyInvariants
  import opened StatusInvariants

  /** The names of one TfRun: never empty, and no apply Job is named like the destroy Job. */
  ghost predicate WellNamed(cfg: Config) {
    && cfg.destroyName != ""
    && forall g, h | 8 <= |h| :: cfg.jobName(g, h) != "" && cfg.jobName(g, h) != cfg.destroyName
  }

  /** What still holds of the copy while a run for this hash is on its way. */
  predicate Why(cfg: Config, t: TfRun, hash: string, cause: Cause, now: int) {
    var current := SpecHash(cfg, t.spec);
    && 8 <= |hash|
    && t.spec.backend.cloud.Some?
    && match cause
       case SpecChange => t.status.lastSpecHash != current && hash == current
       case PendingRun => t.status.lastSpecHash == current && PendingExists(t.status)
         && hash == t.status.pendingExecHash
       case IntervalDue =>
         && t.status.lastSpecHash == current && !PendingExists(t.status) && hash == current
         && t.spec.runInterval.Some? && t.spec.runInterval.value >= MIN_INTERVAL
         && (t.status.nextRunTime.Some? ==> t.status.nextRunTime.value <= now)
  }

  predicate RunOnItsWay(cfg: Config, k: Worker, now: int) {
    && (k.call.FetchSecret? ==> Why(cfg, k.mem, k.call.hash, k.call.cause, now))
    && (k.call.CreateJob? ==> Why(cfg, k.mem, k.call.hash, k.call.cause, now))
    && (k.call.FetchDestroySecret? || k.call.CreateDestroyJob? ==> k.mem.spec.backend.cloud.Some?)
    && !k.call.Panicked?
  }

  /** A Job is labelled with the hash of the spec it is built from, unless it is a pending run: then it never is. */
  predicate RunSound(cfg: Config, r: RunRecord) {
    && 8 <= |r.hash|
    && r.name == cfg.jobName(r.generation, r.hash)
    && (r.hash == r.built <==> !r.cause.PendingRun?)
  }

  predicate RunsSound(cfg: Config, runs: seq<RunRecord>) { forall r | r in runs :: RunSound(cfg, r) }

  predicate RecordOf(r: RunRecord, name: string, j: Job) {
    r.name == name && r.generation == j.generation && r.hash == j.hash && r.built == j.built
  }

  predicate JobSound(cfg: Config, name: string, j: Job, runs: seq<RunRecord>) {
    match j.kind
    case Apply => exists r :: r in runs && RecordOf(r, name, j)
    case Destroy => name == cfg.destroyName
  }

  predicate JobsSound(cfg: Config, jobs: map<string, Job>, runs: seq<RunRecord>) {
    forall n | n in jobs :: JobSound(cfg, n, jobs[n], runs)
  }

  /** No Job was created for a generation the object has not reached. */
  predicate GenerationsOk(stored: Option<TfRun>, runs: seq<RunRecord>) {
    stored.Some? ==> forall r | r in runs :: r.generation <= stored.value.generation
  }

  lemma ServedRunOnItsWay(cfg: Config, w: World, o: Outcome, turn: Turn)
    requires RunOnItsWay(cfg, w.worker, w.clock)
    requires PendingSound(Resumed(w, o).mem.status, w.hist.hashes)
    requires Route(cfg, w, o, turn) && RunReasons(cfg, w, o, turn)
    ensures RunOnItsWay(cfg, Take(Resumed(w, o), turn), w.clock)
  {
  }

  lemma RunOnItsWayKept(cfg: Config, w: World, e: Event)
    requires RunOnItsWay(cfg, w.worker, w.clock) && PendingOk(w.stored, w.worker, w.hist.hashes)
    ensures RunOnItsWay(cfg, WorkerAfter(cfg, w, e), ClockAfter(w, e))
  {
    if e.Serve? {
      var turn := ServedTurn(cfg, w, e.outcome, e.id);
      ServedMoves(cfg, w, e.outcome, e.id);
      if !turn.call.Idle? {
        RouteHoldsObject(cfg, w, e.outcome, turn);
        assert FromSource(w, Resumed(w, e.outcome).mem);
        ServedRunOnItsWay(cfg, w, e.outcome, turn);
      }
    }
  }

  lemma CreatedRunSound(cfg: Config, w: World)
    requires w.worker.call.CreateJob? && RunOnItsWay(cfg, w.worker, w.clock)
    ensures RunSound(cfg, NewRun(cfg, w))
  {
  }

  lemma RunsKept(cfg: Config, w: World, e: Event)
    requires RunOnItsWay(cfg, w.worker, w.clock) && RunsSound(cfg, w.hist.runs)
    ensures RunsSound(cfg, RunsAfter(cfg, w, e))
  {
    if CreatesApplyJob(cfg, w, e) {
      CreatedRunSound(cfg, w);
    }
  }

  lemma JobsKept(cfg: Config, w: World, e: Event)
    requires JobsSound(cfg, w.jobs, w.hist.runs)
    ensures JobsSound(cfg, JobsAfter(cfg, w, e), RunsAfter(cfg, w, e))
  {
    var jobs, runs := JobsAfter(cfg, w, e), RunsAfter(cfg, w, e);
    if CreatesApplyJob(cfg, w, e) {
      assert NewRun(cfg, w) in runs;
    }
    forall n | n in jobs
      ensures JobSound(cfg, n, jobs[n], runs)
    {
      if n in w.jobs {
        assert JobSound(cfg, n, w.jobs[n], w.hist.runs);
      }
    }
  }

  lemma GenerationsKept(cfg: Config, w: World, e: Event)
    requires Base(w) && GenerationsOk(w.stored, w.hist.runs)
    ensures GenerationsOk(StoredAfter(w, e), RunsAfter(cfg, w, e))
  {
    StoredLinks(w, e);
  }

  /** An apply Job found under the name of a new run has been created before. */
  lemma AdoptedIsNamed(cfg: Config, w: World, e: Event)
    requires WellNamed(cfg) && RunOnItsWay(cfg, w.worker, w.clock) && JobsSound(cfg, w.jobs, w.hist.runs)
    ensures var k := WorkerAfter(cfg, w, e);
            k.call.RefetchToAdopt? && k != w.worker ==> Named(RunsAfter(cfg, w, e), k.call.jobName)
  {
    if e.Serve? {
      ServedMoves(cfg, w, e.outcome, e.id);
      var turn := ServedTurn(cfg, w, e.outcome, e.id);
      if turn.call.RefetchToAdopt? {
        assert JobSound(cfg, turn.call.jobName, w.jobs[turn.call.jobName], w.hist.runs);
      }
    }
  }

  /* ---------- the most recently recorded run ---------- */

  predicate RecordedAs(cfg: Config, s: Status, r: RunRecord) {
    s.lastSpecHash == r.hash && s.runID == cfg.runId(r.generation, r.hash)
  }

  /** The stored hash and run id are those of the last run whose record was stored. */
  predicate LastStored(cfg: Config, stored: Option<TfRun>, h: History) {
    && (stored.Some? ==>
          if h.lastRecorded.Some? then RecordedAs(cfg, stored.value.status, h.lastRecorded.value)
          else stored.value.status.lastSpecHash == "" && stored.value.status.runID == "")
    && (h.lastRecorded.Some? ==> h.lastRecorded.value in h.runs)
  }

  /** A record being written is that of the last run created. */
  predicate LastRecording(cfg: Config, k: Worker, h: History) {
    k.call == WriteStatus(RecordJob) ==> h.runs != [] && RecordedAs(cfg, k.mem.status, h.runs[|h.runs| - 1])
  }

  predicate LastOk(cfg: Config, stored: Option<TfRun>, k: Worker, h: History) {
    LastStored(cfg, stored, h) && LastRecording(cfg, k, h)
  }

  lemma RecordWritten(cfg: Config, w: World, o: Outcome, id: string, t: TfRun, s: Status)
    requires w.worker.call.CreateJob? && StatusFor(cfg, w, o, id, t, s, RecordJob) && t == w.worker.mem
    ensures RecordedAs(cfg, s, NewRun(cfg, w))
  {
  }

  lemma ServedLastStored(cfg: Config, w: World, o: Outcome, id: string)
    requires DiffOk(w.stored, w.worker) && LastOk(cfg, w.stored, w.worker, w.hist)
    ensures LastStored(cfg, StoredServed(w, o), HistoryAfter(cfg, w, Serve(o, id)))
  {
  }

  lemma ServedLastRecording(cfg: Config, w: World, o: Outcome, id: string, turn: Turn)
    requires Route(cfg, w, o, turn) && WriteReasons(cfg, w, o, id, turn)
    ensures LastRecording(cfg, Take(Resumed(w, o), turn), HistoryAfter(cfg, w, Serve(o, id)))
  {
    hide ServedTurn, StatusFor;
    if turn.call == WriteStatus(RecordJob) {
      RecordWritten(cfg, w, o, id, w.worker.mem, turn.status);
    }
  }

  lemma LastKept(cfg: Config, w: World, e: Event)
    requires Base(w) && LastOk(cfg, w.stored, w.worker, w.hist)
    ensures LastOk(cfg, StoredAfter(w, e), WorkerAfter(cfg, w, e), HistoryAfter(cfg, w, e))
  {
    if e.Serve? {
      ServedMoves(cfg, w, e.outcome, e.id);
      ServedLastStored(cfg, w, e.outcome, e.id);
      ServedLastRecording(cfg, w, e.outcome, e.id, ServedTurn(cfg, w, e.outcome, e.id));
    }
  }

  /* ---------- what the next run is for ---------- */

  /** The hash the next run of this object would be for. */
  function TargetHash(cfg: Config, t: TfRun): string {
    if t.status.lastSpecHash != SpecHash(cfg, t.spec) then SpecHash(cfg, t.spec)
    else if PendingExists(t.status) then t.status.pendingExecHash
    else SpecHash(cfg, t.spec)
  }

  /** A note does not change what the next run is for. */
  predicate NoteKeepsTarget(cfg: Config, stored: Option<TfRun>, k: Worker) {
    stored.Some? && k.call == WriteStatus(Note) ==>
      TargetHash(cfg, k.mem) == TargetHash(cfg, k.mem.(status := stored.value.status))
  }

  lemma NoteTarget(cfg: Config, w: World, t: TfRun, s: Status)
    requires NoteReason(cfg, w, t, s)
    ensures TargetHash(cfg, t.(status := s)) == TargetHash(cfg, t)
  {
  }

  lemma NoteKept(cfg: Config, w: World, e: Event)
    requires Base(w) && NoteKeepsTarget(cfg, w.stored, w.worker)
    ensures NoteKeepsTarget(cfg, StoredAfter(w, e), WorkerAfter(cfg, w, e))
  {
    if e.Serve? {
      var turn := ServedTurn(cfg, w, e.outcome, e.id);
      ServedMoves(cfg, w, e.outcome, e.id);
      if turn.call == WriteStatus(Note) {
        NoteTarget(cfg, w, Resumed(w, e.outcome).mem, turn.status);
        ResumedStatus(cfg, w, e.outcome, turn);
      }
    }
  }
}
