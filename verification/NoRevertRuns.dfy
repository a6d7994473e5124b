/** When the spec hash never goes back to an earlier value, no pending run is started, and the stored hash is that
    of the spec the last recorded Job was built from. */
module NoRevertRuns {
  import opened Types
  import opened Machine
  import opened Turns
  import opened Rules
  import opened CopyInvariants
  import opened StatusInvariants
  import opened JobInvariants
  import opened AllInvariants

  /** A pending hash means that the last run was for another hash than this spec's; that hash has been seen. */
  predicate Forward(cfg: Config, t: TfRun, hashes: set<string>) {
    && (t.status.pendingExecHash != "" ==> t.status.lastSpecHash != SpecHash(cfg, t.spec))
    && (t.status.lastSpecHash != "" ==> t.status.lastSpecHash in hashes)
  }

  predicate ForwardOk(cfg: Config, stored: Option<TfRun>, k: Worker, h: History) {
    && (stored.Some? ==> Forward(cfg, stored.value, h.hashes))
    && (InReconcile(k) ==> Forward(cfg, k.mem, h.hashes))
  }

  predicate NoPendingRuns(runs: seq<RunRecord>) { forall r | r in runs :: !r.cause.PendingRun? }

  lemma WrittenForward(cfg: Config, w: World, o: Outcome, id: string, t: TfRun, s: Status, p: Purpose,
                       hashes: set<string>)
    requires Forward(cfg, t, hashes) && StatusFor(cfg, w, o, id, t, s, p)
    requires p.RecordJob? ==> w.worker.call.hash in hashes
    ensures Forward(cfg, t.(status := s), hashes)
  {
  }

  /** The hash a Job is created for is the hash of a spec the object has had. */
  lemma CreatedHashKnown(cfg: Config, w: World)
    requires w.worker.call.CreateJob? && RunOnItsWay(cfg, w.worker, w.clock)
    requires HashesOk(cfg, w.stored, w.worker, w.hist.hashes) && PendingOk(w.stored, w.worker, w.hist.hashes)
    ensures w.worker.call.hash in w.hist.hashes
  {
  }

  lemma StoredForward(cfg: Config, w: World, e: Event)
    requires Base(w) && HashesOk(cfg, w.stored, w.worker, w.hist.hashes)
    requires ForwardOk(cfg, w.stored, w.worker, w.hist) && Permits(cfg, NoRevert, w, e)
    ensures StoredAfter(w, e).Some? ==> Forward(cfg, StoredAfter(w, e).value, HistoryAfter(cfg, w, e).hashes)
  {
  }

  lemma CopyForward(cfg: Config, w: World, e: Event, k: Worker, hashes: set<string>)
    requires ForwardOk(cfg, w.stored, w.worker, w.hist) && WorkerLink(cfg, w, e, k) && w.hist.hashes <= hashes
    requires w.worker.call.CreateJob? ==> w.worker.call.hash in w.hist.hashes
    ensures InReconcile(k) ==> Forward(cfg, k.mem, hashes)
  {
    if InReconcile(k) && k != w.worker {
      var t := Resumed(w, e.outcome).mem;
      if k.mem.status != t.status {
        WrittenForward(cfg, w, e.outcome, e.id, t, k.mem.status, k.call.purpose, hashes);
      }
    }
  }

  lemma NoPendingRunsKept(cfg: Config, w: World, e: Event)
    requires RunOnItsWay(cfg, w.worker, w.clock) && ForwardOk(cfg, w.stored, w.worker, w.hist)
    requires NoPendingRuns(w.hist.runs)
    ensures NoPendingRuns(RunsAfter(cfg, w, e))
  {
  }

  lemma {:induction false} ForwardHolds(cfg: Config, w0: World, es: seq<Event>)
    requires WellNamed(cfg) && Initial(cfg, w0) && Obeys(cfg, {NoRevert}, w0, es)
    ensures var w := Run(cfg, w0, es); ForwardOk(cfg, w.stored, w.worker, w.hist) && NoPendingRuns(w.hist.runs)
  {
    if es != [] {
      var m := |es| - 1;
      var w := Run(cfg, w0, es[..m]);
      ForwardHolds(cfg, w0, es[..m]);
      CoreHolds(cfg, w0, es[..m]);
      StoredForward(cfg, w, es[m]);
      if w.worker.call.CreateJob? {
        CreatedHashKnown(cfg, w);
      }
      WorkerLinks(cfg, w, es[m]);
      CopyForward(cfg, w, es[m], WorkerAfter(cfg, w, es[m]), HistoryAfter(cfg, w, es[m]).hashes);
      NoPendingRunsKept(cfg, w, es[m]);
    }
  }

  /** Edits in flight, lost writes and crashes included. */
  lemma WithoutRevertsTheRecordIsTrue(cfg: Config, w0: World, es: seq<Event>)
    requires WellNamed(cfg) && Initial(cfg, w0) && Obeys(cfg, {NoRevert}, w0, es)
    ensures var w := Run(cfg, w0, es);
            && (forall r | r in w.hist.runs :: !r.cause.PendingRun? && r.hash == r.built)
            && (w.stored.Some? && w.stored.value.status.lastSpecHash != "" ==>
                  w.hist.lastRecorded.Some? && w.stored.value.status.lastSpecHash == w.hist.lastRecorded.value.built)
  {
    ForwardHolds(cfg, w0, es);
    CoreHolds(cfg, w0, es);
    var w := Run(cfg, w0, es);
    assert forall r | r in w.hist.runs :: RunSound(cfg, r);
  }

  /** Whatever the edits: a Job's label is the hash of the spec it was built from exactly when it is no pending run. */
  lemma MislabelledExactlyWhenPending(cfg: Config, w0: World, es: seq<Event>)
    requires WellNamed(cfg) && Initial(cfg, w0)
    ensures forall r | r in Run(cfg, w0, es).hist.runs :: r.hash == r.built <==> !r.cause.PendingRun?
  {
    CoreHolds(cfg, w0, es);
    assert forall r | r in Run(cfg, w0, es).hist.runs :: RunSound(cfg, r);
  }
}
