/** While an interval stays set, an interval run comes no sooner than the interval after the run before it. */
module Intervals {
  import opened Types
  import opened Machine
  import opened Turns
  import opened Rules
  import opened CopyInvariants
  import opened StatusInvariants
  import opened JobInvariants
  import opened AllInvariants

  predicate HasInterval(r: RunRecord) { r.interval.Some? }

  /** When the next interval run is due after this one. */
  function DueAfter(r: RunRecord): int
    requires HasInterval(r)
  {
    r.at + r.interval.value
  }

  /** The i-th run, if an interval run, is due by the run before it, if that is one of those counted from this one. */
  predicate SpacedAt(runs: seq<RunRecord>, i: nat, from: nat)
    requires i < |runs|
  {
    runs[i].cause.IntervalDue? ==>
      i > 0 && (from < i ==> HasInterval(runs[i - 1]) && DueAfter(runs[i - 1]) <= runs[i].at)
  }

  predicate Spaced(runs: seq<RunRecord>, from: nat) { forall i: nat | from <= i < |runs| :: SpacedAt(runs, i, from) }

  predicate NextOk(s: Status, runs: seq<RunRecord>, from: nat) {
    from < |runs| ==> var r := runs[|runs| - 1]; HasInterval(r) && s.nextRunTime == Some(DueAfter(r))
  }

  /** The object has an interval, and so has the copy of a reconcile in flight. */
  predicate IntervalSet(w: World) {
    && (w.stored.Some? ==> w.stored.value.spec.runInterval.Some?)
    && (InReconcile(w.worker) ==> w.worker.mem.spec.runInterval.Some?)
  }

  predicate SpacingOk(w: World, from: nat) {
    && IntervalSet(w)
    && from <= |w.hist.runs| && Spaced(w.hist.runs, from)
    && (w.stored.Some? && w.worker.call != WriteStatus(RecordJob) ==> NextOk(w.stored.value.status, w.hist.runs, from))
    && (InReconcile(w.worker) ==> NextOk(w.worker.mem.status, w.hist.runs, from))
  }

  /** An interval run is created when it is due. */
  lemma SpacedKept(cfg: Config, w: World, e: Event, from: nat)
    requires RunOnItsWay(cfg, w.worker, w.clock) && SourcedOk(w.stored, w.worker, w.hist.runs) && SpacingOk(w, from)
    ensures Spaced(RunsAfter(cfg, w, e), from)
  {
    if CreatesApplyJob(cfg, w, e) {
      var runs, n := w.hist.runs, |w.hist.runs|;
      assert SpacedAt(RunsAfter(cfg, w, e), n, from);
      forall i: nat | from <= i < n
        ensures SpacedAt(RunsAfter(cfg, w, e), i, from)
      {
        assert SpacedAt(runs, i, from);
      }
    }
  }

  lemma WrittenNext(cfg: Config, w: World, o: Outcome, id: string, t: TfRun, s: Status, p: Purpose,
                    runs: seq<RunRecord>, from: nat)
    requires t.spec.runInterval.Some? && NextOk(t.status, runs, from) && StatusFor(cfg, w, o, id, t, s, p)
    requires !p.RecordJob?
    ensures NextOk(s, runs, from)
  {
  }

  lemma RecordedNext(cfg: Config, w: World, turn: Turn, from: nat)
    requires w.worker.call.CreateJob? && w.worker.mem.spec.runInterval.Some?
    requires turn.status == RecordRun(cfg, w.worker.mem, w.worker.call.hash, w.clock)
    ensures NextOk(turn.status, w.hist.runs + [NewRun(cfg, w)], from)
  {
  }

  lemma CopyNext(cfg: Config, w: World, e: Event, from: nat)
    requires SpacingOk(w, from) && Permits(cfg, RecordsLand, w, e)
    ensures var k := WorkerAfter(cfg, w, e);
            InReconcile(k) ==> k.mem.spec.runInterval.Some? && NextOk(k.mem.status, RunsAfter(cfg, w, e), from)
  {
    var k := WorkerAfter(cfg, w, e);
    WorkerLinks(cfg, w, e);
    if InReconcile(k) && k != w.worker {
      if CreatesApplyJob(cfg, w, e) {
        RecordedNext(cfg, w, ServedTurn(cfg, w, e.outcome, e.id), from);
      } else {
        var t := Resumed(w, e.outcome).mem;
        if k.mem.status != t.status {
          WrittenNext(cfg, w, e.outcome, e.id, t, k.mem.status, k.call.purpose, w.hist.runs, from);
        }
      }
    }
  }

  lemma StoredNext(cfg: Config, w: World, e: Event, from: nat)
    requires Base(w) && SpacingOk(w, from) && Permits(cfg, RecordsLand, w, e) && Permits(cfg, IntervalStaysSet, w, e)
    ensures StoredAfter(w, e).Some? ==>
              && StoredAfter(w, e).value.spec.runInterval.Some?
              && (WorkerAfter(cfg, w, e).call != WriteStatus(RecordJob) ==>
                    NextOk(StoredAfter(w, e).value.status, RunsAfter(cfg, w, e), from))
  {
    StoredLinks(w, e);
  }

  lemma {:induction false} SpacingHolds(cfg: Config, w: World, es: seq<Event>, from: nat)
    requires WellNamed(cfg) && Core(cfg, w) && SpacingOk(w, from)
    requires Obeys(cfg, {RecordsLand, IntervalStaysSet}, w, es)
    ensures SpacingOk(Run(cfg, w, es), from)
  {
    if es != [] {
      var m := |es| - 1;
      var w' := Run(cfg, w, es[..m]);
      SpacingHolds(cfg, w, es[..m], from);
      CoreStays(cfg, w, es[..m]);
      SpacedKept(cfg, w', es[m], from);
      CopyNext(cfg, w', es[m], from);
      StoredNext(cfg, w', es[m], from);
    }
  }

  /** From any point of any run on, while the interval stays set and records land: an interval run that is not
      the first run since comes no sooner than the run before it plus the interval of that run, whatever spec-change
      runs, interval edits and completions come between. */
  lemma IntervalRunsAreSpaced(cfg: Config, w0: World, before: seq<Event>, after: seq<Event>)
    requires WellNamed(cfg) && Initial(cfg, w0)
    requires var w := Run(cfg, w0, before); IntervalSet(w) && Obeys(cfg, {RecordsLand, IntervalStaysSet}, w, after)
    ensures var w := Run(cfg, w0, before);
            var from, runs := |w.hist.runs|, Run(cfg, w, after).hist.runs;
            forall i: nat | from <= i < |runs| && runs[i].cause.IntervalDue? ::
              i > 0 && (from < i ==>
                          runs[i - 1].interval.Some? && runs[i - 1].at + runs[i - 1].interval.value <= runs[i].at)
  {
    var w := Run(cfg, w0, before);
    CoreHolds(cfg, w0, before);
    SpacingHolds(cfg, w, after, |w.hist.runs|);
    SpacedMeans(Run(cfg, w, after).hist.runs, |w.hist.runs|);
  }

  lemma SpacedMeans(runs: seq<RunRecord>, from: nat)
    requires Spaced(runs, from)
    ensures forall i: nat | from <= i < |runs| && runs[i].cause.IntervalDue? ::
              i > 0 && (from < i ==>
                          runs[i - 1].interval.Some? && runs[i - 1].at + runs[i - 1].interval.value <= runs[i].at)
  {
    forall i: nat | from <= i < |runs| && runs[i].cause.IntervalDue?
      ensures i > 0 && (from < i ==>
                runs[i - 1].interval.Some? && runs[i - 1].at + runs[i - 1].interval.value <= runs[i].at)
    {
      assert SpacedAt(runs, i, from);
    }
  }

  /* ---------- with the webhook: forty-five minutes ---------- */

  predicate AdmittedRun(r: RunRecord) { r.interval.Some? ==> r.interval.value >= MIN_INTERVAL }

  /** The object's interval is admitted, and so is that of a reconcile in flight. */
  predicate IntervalAdmitted(w: World) {
    (w.stored.Some? ==> Admitted(w.stored.value.spec)) && (InReconcile(w.worker) ==> Admitted(w.worker.mem.spec))
  }

  predicate AdmittedOk(w: World, from: nat) {
    IntervalAdmitted(w) && forall i: nat | from <= i < |w.hist.runs| :: AdmittedRun(w.hist.runs[i])
  }

  lemma AdmittedKept(cfg: Config, w: World, e: Event, from: nat)
    requires Base(w) && AdmittedOk(w, from) && Permits(cfg, AdmittedEdits, w, e)
    ensures AdmittedOk(Step(cfg, w, e), from)
  {
    WorkerLinks(cfg, w, e);
  }

  lemma {:induction false} AdmittedHolds(cfg: Config, w: World, es: seq<Event>, from: nat)
    requires WellNamed(cfg) && Core(cfg, w) && AdmittedOk(w, from) && Obeys(cfg, {AdmittedEdits}, w, es)
    ensures AdmittedOk(Run(cfg, w, es), from)
  {
    if es != [] {
      var m := |es| - 1;
      AdmittedHolds(cfg, w, es[..m], from);
      CoreStays(cfg, w, es[..m]);
      AdmittedKept(cfg, Run(cfg, w, es[..m]), es[m], from);
    }
  }

  lemma ObeysFewer(cfg: Config, rules: set<Rule>, fewer: set<Rule>, w: World, es: seq<Event>)
    requires Obeys(cfg, rules, w, es) && fewer <= rules
    ensures Obeys(cfg, fewer, w, es)
  {
    if es != [] {
      ObeysFewer(cfg, rules, fewer, w, es[..|es| - 1]);
    }
  }

  lemma SpacedAndAdmitted(runs: seq<RunRecord>, from: nat)
    requires Spaced(runs, from) && forall i: nat | from <= i < |runs| :: AdmittedRun(runs[i])
    ensures forall i: nat | from < i < |runs| && runs[i].cause.IntervalDue? ::
              runs[i - 1].at + MIN_INTERVAL <= runs[i].at
  {
    forall i: nat | from < i < |runs| && runs[i].cause.IntervalDue?
      ensures runs[i - 1].at + MIN_INTERVAL <= runs[i].at
    {
      assert SpacedAt(runs, i, from) && AdmittedRun(runs[i - 1]);
    }
  }

  /** With admitted intervals, at least forty-five minutes after it. */
  lemma AdmittedRunsAreFarApart(cfg: Config, w0: World, before: seq<Event>, after: seq<Event>)
    requires WellNamed(cfg) && Initial(cfg, w0)
    requires var w := Run(cfg, w0, before);
             && IntervalSet(w) && IntervalAdmitted(w)
             && Obeys(cfg, {RecordsLand, IntervalStaysSet, AdmittedEdits}, w, after)
    ensures var w := Run(cfg, w0, before);
            var from, runs := |w.hist.runs|, Run(cfg, w, after).hist.runs;
            forall i: nat | from < i < |runs| && runs[i].cause.IntervalDue? ::
              runs[i - 1].at + 45 * 60 <= runs[i].at
  {
    hide Step, Obeys, Initial, Core, SpacedAt, AdmittedRun;
    var w := Run(cfg, w0, before);
    var rules := {RecordsLand, IntervalStaysSet, AdmittedEdits};
    ObeysFewer(cfg, rules, {RecordsLand, IntervalStaysSet}, w, after);
    ObeysFewer(cfg, rules, {AdmittedEdits}, w, after);
    CoreHolds(cfg, w0, before);
    SpacingHolds(cfg, w, after, |w.hist.runs|);
    AdmittedHolds(cfg, w, after, |w.hist.runs|);
    SpacedAndAdmitted(Run(cfg, w, after).hist.runs, |w.hist.runs|);
  }
}
