/** Status invariants of every run: pending state, provenance, observed generation, workspace and phase. */
module StatusInvariants {
  import opened Types
  import opened Machine
  import opened Turns
  import opened CopyInvariants

  predicate Labelled(runs: seq<RunRecord>, hash: string) { exists r :: r in runs && r.hash == hash }

  predicate Named(runs: seq<RunRecord>, name: string) { exists r :: r in runs && r.name == name }

  predicate PendingSound(s: Status, hashes: set<string>) {
    && (s.pendingExecHash == "" <==> s.pendingReason == "")
    && (s.pendingExecHash != "" ==> IsHash(s.pendingExecHash) && s.pendingExecHash in hashes
                                    && s.pendingExecHash != s.lastSpecHash)
  }

  predicate Sourced(s: Status, runs: seq<RunRecord>) {
    && (s.lastSpecHash != "" ==> Labelled(runs, s.lastSpecHash))
    && (s.activeJobName != "" ==> Named(runs, s.activeJobName))
  }

  predicate WorkspaceSound(s: Status, generation: nat) {
    && (s.workspaceReady ==> s.workspaceID != "")
    && s.observedGeneration <= generation
    && !s.phase.Destroying?
  }

  lemma WrittenPendingSound(cfg: Config, w: World, o: Outcome, id: string, t: TfRun, s: Status, p: Purpose,
                            hashes: set<string>)
    requires PendingSound(t.status, hashes) && SpecHash(cfg, t.spec) in hashes
    requires StatusFor(cfg, w, o, id, t, s, p)
    ensures PendingSound(s, hashes)
  {
  }

  lemma WrittenSourced(cfg: Config, w: World, o: Outcome, id: string, t: TfRun, s: Status, p: Purpose,
                       runs: seq<RunRecord>)
    requires Sourced(t.status, runs)
    requires StatusFor(cfg, w, o, id, t, s, p)
    requires p.RecordJob? ==>
      Labelled(runs, w.worker.call.hash) && Named(runs, cfg.jobName(t.generation, w.worker.call.hash))
    requires p.AdoptJob? ==> Named(runs, w.worker.call.jobName)
    ensures Sourced(s, runs)
  {
  }

  lemma WrittenWorkspaceSound(cfg: Config, w: World, o: Outcome, id: string, t: TfRun, s: Status, p: Purpose)
    requires WorkspaceSound(t.status, t.generation)
    requires StatusFor(cfg, w, o, id, t, s, p)
    ensures WorkspaceSound(s, t.generation)
  {
  }

  /* ---------- over the stored object and the copy ---------- */

  predicate HashesOk(cfg: Config, stored: Option<TfRun>, k: Worker, hashes: set<string>) {
    && (stored.Some? ==> SpecHash(cfg, stored.value.spec) in hashes)
    && (InReconcile(k) ==> SpecHash(cfg, k.mem.spec) in hashes)
  }

  predicate PendingOk(stored: Option<TfRun>, k: Worker, hashes: set<string>) {
    && (stored.Some? ==> PendingSound(stored.value.status, hashes))
    && (InReconcile(k) ==> PendingSound(k.mem.status, hashes))
  }

  predicate SourcedOk(stored: Option<TfRun>, k: Worker, runs: seq<RunRecord>) {
    && (stored.Some? ==> Sourced(stored.value.status, runs))
    && (InReconcile(k) ==> Sourced(k.mem.status, runs))
    && (k.call.RefetchToAdopt? ==> Named(runs, k.call.jobName))
  }

  predicate WorkspaceOk(stored: Option<TfRun>, k: Worker) {
    && (stored.Some? ==> WorkspaceSound(stored.value.status, stored.value.generation))
    && (InReconcile(k) ==> WorkspaceSound(k.mem.status, k.mem.generation))
  }

  predicate ObservedOk(stored: Option<TfRun>, k: Worker) {
    stored.Some? && InReconcile(k) ==>
      stored.value.status.observedGeneration <= k.mem.status.observedGeneration
  }

  lemma HashesKept(cfg: Config, w: World, e: Event)
    requires HashesOk(cfg, w.stored, w.worker, w.hist.hashes)
    ensures HashesOk(cfg, StoredAfter(w, e), WorkerAfter(cfg, w, e), HistoryAfter(cfg, w, e).hashes)
  {
    WorkerLinks(cfg, w, e);
  }

  lemma PendingKept(cfg: Config, w: World, e: Event, stored: Option<TfRun>, k: Worker, hashes: set<string>)
    requires HashesOk(cfg, w.stored, w.worker, w.hist.hashes) && PendingOk(w.stored, w.worker, w.hist.hashes)
    requires StoredLink(w, stored) && WorkerLink(cfg, w, e, k) && w.hist.hashes <= hashes
    ensures PendingOk(stored, k, hashes)
  {
    if InReconcile(k) && k != w.worker {
      var t := Resumed(w, e.outcome).mem;
      if k.mem.status != t.status {
        WrittenPendingSound(cfg, w, e.outcome, e.id, t, k.mem.status, k.call.purpose, hashes);
      }
    }
  }

  lemma WorkspaceKept(cfg: Config, w: World, e: Event, stored: Option<TfRun>, k: Worker)
    requires Base(w) && WorkspaceOk(w.stored, w.worker)
    requires StoredLink(w, stored) && WorkerLink(cfg, w, e, k)
    ensures WorkspaceOk(stored, k)
  {
    if InReconcile(k) && k != w.worker {
      var t := Resumed(w, e.outcome).mem;
      if k.mem.status != t.status {
        WrittenWorkspaceSound(cfg, w, e.outcome, e.id, t, k.mem.status, k.call.purpose);
      }
    }
  }

  lemma SourcedKept(cfg: Config, w: World, e: Event, stored: Option<TfRun>, k: Worker, runs: seq<RunRecord>)
    requires SourcedOk(w.stored, w.worker, w.hist.runs)
    requires StoredLink(w, stored) && WorkerLink(cfg, w, e, k) && runs == RunsAfter(cfg, w, e)
    requires k.call.RefetchToAdopt? && k != w.worker ==> Named(runs, k.call.jobName)
    ensures SourcedOk(stored, k, runs)
  {
    assert w.hist.runs <= runs;
    if InReconcile(k) && k != w.worker {
      var t := Resumed(w, e.outcome).mem;
      if k.mem.status != t.status {
        var p := k.call.purpose;
        if p.RecordJob? {
          assert NewRun(cfg, w) in runs;
        }
        WrittenSourced(cfg, w, e.outcome, e.id, t, k.mem.status, p, runs);
      }
    }
  }

  lemma WrittenObserved(cfg: Config, w: World, o: Outcome, id: string, t: TfRun, s: Status, p: Purpose)
    requires t.status.observedGeneration <= t.generation
    requires StatusFor(cfg, w, o, id, t, s, p)
    ensures t.status.observedGeneration <= s.observedGeneration
  {
  }

  lemma ObservedKept(cfg: Config, w: World, e: Event)
    requires Base(w) && WorkspaceOk(w.stored, w.worker) && ObservedOk(w.stored, w.worker)
    ensures ObservedOk(StoredAfter(w, e), WorkerAfter(cfg, w, e))
  {
    WorkerLinks(cfg, w, e);
    StoredLinks(w, e);
    var k := WorkerAfter(cfg, w, e);
    if InReconcile(k) && k != w.worker {
      var t := Resumed(w, e.outcome).mem;
      if k.mem.status != t.status {
        WrittenObserved(cfg, w, e.outcome, e.id, t, k.mem.status, k.call.purpose);
      }
    }
  }
}
