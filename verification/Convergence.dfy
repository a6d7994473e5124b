/** After the last edit: at most two more Jobs, then nothing more to do. */
module Convergence {
  import opened Types
  import opened Machine
  import opened Turns
  import opened Rules
  import opened CopyInvariants
  import opened JobInvariants
  import opened AllInvariants

  /** How many runs the object still asks for: one if its spec has not been run, two if it has but another hash is
      pending, for that run makes the spec differ again. */
  function RunsLeft(cfg: Config, t: TfRun): nat {
    if t.status.lastSpecHash != SpecHash(cfg, t.spec) then 1
    else if PendingExists(t.status) then 2
    else 0
  }

  /** The object with the record of a created Job counted as stored. */
  function Effective(w: World): TfRun
    requires w.stored.Some?
  {
    if w.worker.call == WriteStatus(RecordJob) then w.worker.mem else w.stored.value
  }

  /** The copy has the hashed fields of the stored spec, and neither has an interval. */
  predicate SameSpec(stored: Option<TfRun>, k: Worker) {
    stored.Some? ==>
      && stored.value.spec.runInterval.None?
      && (InReconcile(k) ==> SameHashedFields(k.mem.spec, stored.value.spec) && k.mem.spec.runInterval.None?)
  }

  /** The copy asks for as many runs as the stored object. */
  predicate SameDemand(cfg: Config, stored: Option<TfRun>, k: Worker) {
    stored.Some? && InReconcile(k) && k.call != WriteStatus(RecordJob) ==>
      RunsLeft(cfg, k.mem) == RunsLeft(cfg, stored.value)
  }

  /** The record of a created Job asks for one run less than the stored object. */
  predicate RecordIsOneLess(cfg: Config, stored: Option<TfRun>, k: Worker) {
    stored.Some? && k.call == WriteStatus(RecordJob) && k.mem.spec.runInterval.None? ==>
      RunsLeft(cfg, k.mem) + 1 == RunsLeft(cfg, k.mem.(status := stored.value.status))
  }

  /** A created Job whose record will not be stored: its creation goes unanswered, or its record is missed. */
  predicate LosesRecord(cfg: Config, w: World, e: Event) { UnansweredCreation(cfg, w, e) || MissedRecord(w, e) }

  /** In flight, too, the copy asks for as many runs as the stored object. */
  lemma CopyHasSameDemand(cfg: Config, w: World)
    requires Base(w) && NoteKeepsTarget(cfg, w.stored, w.worker) && SameSpec(w.stored, w.worker)
    ensures SameDemand(cfg, w.stored, w.worker)
  {
  }

  /** Creating a Job lowers what is left by exactly one. */
  lemma CreationLowersRunsLeft(cfg: Config, t: TfRun, hash: string, cause: Cause, now: int)
    requires Why(cfg, t, hash, cause, now) && t.spec.runInterval.None?
    ensures RunsLeft(cfg, t.(status := RecordRun(cfg, t, hash, now))) == RunsLeft(cfg, t) - 1
  {
  }

  lemma SameSpecKept(cfg: Config, w: World, e: Event)
    requires Base(w) && SameSpec(w.stored, w.worker) && Permits(cfg, OnlyUnhashedEdits, w, e)
    ensures SameSpec(StoredAfter(w, e), WorkerAfter(cfg, w, e))
  {
    WorkerLinks(cfg, w, e);
  }

  lemma WrittenDemandIsStored(cfg: Config, w: World, o: Outcome)
    requires Base(w) && SameSpec(w.stored, w.worker) && SameDemand(cfg, w.stored, w.worker) && w.stored.Some?
    requires w.worker.call != WriteStatus(RecordJob)
    ensures StoredServed(w, o).Some? ==> RunsLeft(cfg, StoredServed(w, o).value) == RunsLeft(cfg, w.stored.value)
  {
  }

  lemma OneLessKept(cfg: Config, w: World, e: Event)
    requires Base(w) && RunOnItsWay(cfg, w.worker, w.clock) && RecordIsOneLess(cfg, w.stored, w.worker)
    ensures RecordIsOneLess(cfg, StoredAfter(w, e), WorkerAfter(cfg, w, e))
  {
    hide ServedTurn;
    if e.Serve? {
      var turn := ServedTurn(cfg, w, e.outcome, e.id);
      ServedMoves(cfg, w, e.outcome, e.id);
      if turn.call == WriteStatus(RecordJob) && w.worker.mem.spec.runInterval.None? {
        CreationLowersRunsLeft(cfg, w.worker.mem, w.worker.call.hash, w.worker.call.cause, w.clock);
      }
    }
  }

  /* ---------- one step of the account ---------- */

  /** A Job that is created is paid for by a run left, unless its record is lost. */
  lemma CreationBalances(cfg: Config, w: World, e: Event)
    requires Base(w) && RunOnItsWay(cfg, w.worker, w.clock) && SameSpec(w.stored, w.worker)
    requires SameDemand(cfg, w.stored, w.worker) && w.stored.Some? && CreatesApplyJob(cfg, w, e)
    ensures var w' := Step(cfg, w, e);
            && |w'.hist.runs| == |w.hist.runs| + 1
            && w'.stored.Some?
            && RunsLeft(cfg, Effective(w')) + 1 == RunsLeft(cfg, Effective(w)) + Count(LosesRecord(cfg, w, e))
  {
    CreationLowersRunsLeft(cfg, w.worker.mem, w.worker.call.hash, w.worker.call.cause, w.clock);
    var w' := Step(cfg, w, e);
    assert w'.stored == w.stored;
    assert w'.worker.call == WriteStatus(RecordJob) <==> e.outcome.Done?;
  }

  lemma ServedBalance(cfg: Config, w: World, o: Outcome, turn: Turn)
    requires Base(w) && SameSpec(w.stored, w.worker) && SameDemand(cfg, w.stored, w.worker) && w.stored.Some?
    requires RecordIsOneLess(cfg, w.stored, w.worker)
    requires Route(cfg, w, o, turn) && !(w.worker.call.CreateJob? && Creates(cfg, w, o))
    ensures turn.call != WriteStatus(RecordJob)
    ensures StoredServed(w, o).Some? ==>
              RunsLeft(cfg, StoredServed(w, o).value) ==
                RunsLeft(cfg, Effective(w)) + Count(w.worker.call == WriteStatus(RecordJob) && !Lands(w, o))
  {
    if w.worker.call != WriteStatus(RecordJob) {
      WrittenDemandIsStored(cfg, w, o);
    }
  }

  /** No other step changes what is left, but for a record that is lost. */
  lemma OtherStepsBalance(cfg: Config, w: World, e: Event)
    requires Base(w) && SameSpec(w.stored, w.worker) && SameDemand(cfg, w.stored, w.worker)
    requires RecordIsOneLess(cfg, w.stored, w.worker)
    requires !CreatesApplyJob(cfg, w, e) && Permits(cfg, OnlyUnhashedEdits, w, e)
    ensures RunsAfter(cfg, w, e) == w.hist.runs
    ensures var stored, k := StoredAfter(w, e), WorkerAfter(cfg, w, e);
            stored.Some? ==>
              && w.stored.Some?
              && RunsLeft(cfg, if k.call == WriteStatus(RecordJob) then k.mem else stored.value)
                 == RunsLeft(cfg, Effective(w)) + Count(LosesRecord(cfg, w, e))
  {
    StoredLinks(w, e);
    if e.Serve? && w.stored.Some? {
      ServedMoves(cfg, w, e.outcome, e.id);
      ServedBalance(cfg, w, e.outcome, ServedTurn(cfg, w, e.outcome, e.id));
    }
  }

  /* ---------- whole runs ---------- */

  function LostRecords(cfg: Config, w: World, es: seq<Event>): nat {
    if es == [] then 0
    else var m := |es| - 1; LostRecords(cfg, w, es[..m]) + Count(LosesRecord(cfg, Run(cfg, w, es[..m]), es[m]))
  }

  /** Runs created and runs left add up to the same number, plus the records lost. */
  predicate Balanced(cfg: Config, w: World, total: nat) {
    && |w.hist.runs| <= total
    && (w.stored.Some? ==> |w.hist.runs| + RunsLeft(cfg, Effective(w)) == total)
  }

  lemma BalanceKept(cfg: Config, w: World, e: Event, total: nat)
    requires Base(w) && RunOnItsWay(cfg, w.worker, w.clock) && RecordIsOneLess(cfg, w.stored, w.worker)
    requires SameSpec(w.stored, w.worker) && SameDemand(cfg, w.stored, w.worker) && Balanced(cfg, w, total)
    requires Permits(cfg, OnlyUnhashedEdits, w, e)
    ensures Balanced(cfg, Step(cfg, w, e), total + Count(LosesRecord(cfg, w, e)))
  {
    hide StoredAfter, WorkerAfter, JobsAfter, WorkspacesAfter, RunsLeft, LosesRecord;
    if CreatesApplyJob(cfg, w, e) {
      CreationBalances(cfg, w, e);
    } else {
      OtherStepsBalance(cfg, w, e);
    }
  }

  lemma {:induction false} OneLessHolds(cfg: Config, w0: World, es: seq<Event>)
    requires WellNamed(cfg) && Initial(cfg, w0)
    ensures var w := Run(cfg, w0, es); RecordIsOneLess(cfg, w.stored, w.worker)
  {
    if es != [] {
      var m := |es| - 1;
      OneLessHolds(cfg, w0, es[..m]);
      CoreHolds(cfg, w0, es[..m]);
      OneLessKept(cfg, Run(cfg, w0, es[..m]), es[m]);
    }
  }

  predicate AccountHolds(cfg: Config, w: World, total: nat) {
    SameSpec(w.stored, w.worker) && RecordIsOneLess(cfg, w.stored, w.worker) && Balanced(cfg, w, total)
  }

  lemma {:induction false} BalanceHolds(cfg: Config, w: World, es: seq<Event>, total: nat)
    requires WellNamed(cfg) && Core(cfg, w) && AccountHolds(cfg, w, total)
    requires Obeys(cfg, {OnlyUnhashedEdits}, w, es)
    ensures AccountHolds(cfg, Run(cfg, w, es), total + LostRecords(cfg, w, es))
  {
    hide Step, Core, AccountHolds, LosesRecord, Permits, WellNamed;
    if es != [] {
      var m := |es| - 1;
      BalanceHolds(cfg, w, es[..m], total);
      CoreStays(cfg, w, es[..m]);
      AccountKept(cfg, Run(cfg, w, es[..m]), es[m], total + LostRecords(cfg, w, es[..m]));
    }
  }

  lemma AccountKept(cfg: Config, w: World, e: Event, total: nat)
    requires Core(cfg, w) && AccountHolds(cfg, w, total) && Permits(cfg, OnlyUnhashedEdits, w, e)
    ensures AccountHolds(cfg, Step(cfg, w, e), total + Count(LosesRecord(cfg, w, e)))
  {
    hide StoredAfter, WorkerAfter, JobsAfter, WorkspacesAfter, HistoryAfter, RunsLeft, LosesRecord, Balanced;
    CopyHasSameDemand(cfg, w);
    SameSpecKept(cfg, w, e);
    OneLessKept(cfg, w, e);
    BalanceKept(cfg, w, e, total);
  }

  /** From any point of any run on, with a copy in flight that is not behind in the hashed fields, while these are not
      edited and no interval is set, and whichever writes are lost: the Jobs created and the runs left add up to the
      runs left at that point, two at most, and the records lost since. */
  lemma JobsAreAccountedFor(cfg: Config, w0: World, before: seq<Event>, after: seq<Event>)
    requires WellNamed(cfg) && Initial(cfg, w0)
    requires var w := Run(cfg, w0, before);
             w.stored.Some? && SameSpec(w.stored, w.worker) && Obeys(cfg, {OnlyUnhashedEdits}, w, after)
    ensures var w := Run(cfg, w0, before);
            var w' := Run(cfg, w, after);
            && |w'.hist.runs| - |w.hist.runs| <= RunsLeft(cfg, Effective(w)) + LostRecords(cfg, w, after)
            && RunsLeft(cfg, Effective(w)) <= 2
            && (w'.stored.Some? ==>
                  |w'.hist.runs| - |w.hist.runs| + RunsLeft(cfg, Effective(w')) ==
                    RunsLeft(cfg, Effective(w)) + LostRecords(cfg, w, after))
  {
    hide Step, Obeys, Initial;
    var w := Run(cfg, w0, before);
    CoreHolds(cfg, w0, before);
    OneLessHolds(cfg, w0, before);
    BalanceHolds(cfg, w, after, |w.hist.runs| + RunsLeft(cfg, Effective(w)));
  }

  /* ---------- nothing to run ---------- */

  predicate NothingToRun(cfg: Config, w: World) {
    && SameSpec(w.stored, w.worker) && w.worker.call != WriteStatus(RecordJob)
    && (w.stored.Some? ==> RunsLeft(cfg, w.stored.value) == 0)
  }

  lemma NothingToRunKept(cfg: Config, w: World, e: Event)
    requires Core(cfg, w) && NothingToRun(cfg, w) && Permits(cfg, OnlyUnhashedEdits, w, e)
    ensures NothingToRun(cfg, Step(cfg, w, e)) && RunsAfter(cfg, w, e) == w.hist.runs
  {
    hide ServedTurn, HistoryAfter, JobsAfter, WorkspacesAfter, StatusCore, DeletionCore, WorkspaceCore;
    CopyHasSameDemand(cfg, w);
    NothingIsCreated(cfg, w, e);
    SameSpecKept(cfg, w, e);
    OtherStepsBalance(cfg, w, e);
    if e.Serve? {
      ServedMoves(cfg, w, e.outcome, e.id);
    }
  }

  lemma NothingIsCreated(cfg: Config, w: World, e: Event)
    requires RunOnItsWay(cfg, w.worker, w.clock) && SidesOk(w.stored, w.worker) && SameDemand(cfg, w.stored, w.worker)
    requires NothingToRun(cfg, w)
    ensures !CreatesApplyJob(cfg, w, e)
  {
  }

  /** Once the spec has been run, editing the engine, a secret or anything else that is not hashed creates no Job,
      whatever fails. */
  lemma {:induction false} UnhashedEditsCreateNoJob(cfg: Config, w0: World, before: seq<Event>, after: seq<Event>)
    requires WellNamed(cfg) && Initial(cfg, w0)
    requires var w := Run(cfg, w0, before); NothingToRun(cfg, w) && Obeys(cfg, {OnlyUnhashedEdits}, w, after)
    ensures var w := Run(cfg, w0, before);
            NothingToRun(cfg, Run(cfg, w, after)) && Run(cfg, w, after).hist.runs == w.hist.runs
  {
    if after != [] {
      var w, m := Run(cfg, w0, before), |after| - 1;
      UnhashedEditsCreateNoJob(cfg, w0, before, after[..m]);
      CoreHolds(cfg, w0, before);
      CoreStays(cfg, w, after[..m]);
      NothingToRunKept(cfg, Run(cfg, w, after[..m]), after[m]);
    }
  }
}
