/** Admission of a TfRun, and that the interval scheduler's own check is then never the one that fails. */
module Webhook {
  import opened Types
  import opened Machine
  import opened Rules
  import opened Turns
  import opened JobInvariants
  import opened AllInvariants
  import opened Convergence
  import opened Schedules
  import opened Intervals

  datatype Verdict = Accepted | Rejected(interval: int)

  function CheckInterval(spec: Spec): Verdict {
    match spec.runInterval
    case Some(interval) => if interval < MIN_INTERVAL then Rejected(interval) else Accepted
    case None => Accepted
  }

  /** Exactly the specs the results about admitted runs speak of are accepted: those without an interval, and those
      with one of forty-five minutes or more.  A rejection names the interval. */
  function ValidateCreate(spec: Spec): (v: Verdict)
    ensures v.Accepted? <==> Admitted(spec)
    ensures v.Accepted? <==> spec.runInterval.None? || spec.runInterval.value >= 45 * 60
    ensures v.Rejected? ==> spec.runInterval == Some(v.interval)
  {
    CheckInterval(spec)
  }

  /** The same for an edit, whatever the object was before. */
  function ValidateUpdate(spec: Spec, previous: Spec): (v: Verdict)
    ensures v == ValidateCreate(spec)
    ensures v.Accepted? <==> spec.runInterval.None? || spec.runInterval.value >= 45 * 60
  {
    CheckInterval(spec)
  }

  predicate IsDue(s: Status, now: int) { s.nextRunTime.Some? ==> s.nextRunTime.value <= now }

  /** With nothing else to run, an unhindered reconcile creates an interval run exactly when the webhook would accept
      the interval and the run is due; the next one is then due an interval later.  An interval the webhook would not
      accept fails the object instead. */
  lemma IntervalRunExactly(cfg: Config, w: World, id: string)
    requires Ready(w) && RunsLeft(cfg, w.stored.value) == 0 && w.stored.value.spec.runInterval.Some?
    requires cfg.jobName(w.stored.value.generation, SpecHash(cfg, w.stored.value.spec)) !in w.jobs
    ensures var t, w' := w.stored.value, Reconciled(cfg, w, id);
            var accepted := ValidateUpdate(t.spec, t.spec).Accepted?;
            && w'.worker.call.Idle? && w'.stored.Some?
            && |w'.hist.runs| == |w.hist.runs| + Count(accepted && IsDue(t.status, w.clock))
            && (accepted && IsDue(t.status, w.clock) ==>
                  && w'.hist.runs[|w.hist.runs|].cause.IntervalDue?
                  && w'.stored.value.status.nextRunTime == Some(w.clock + t.spec.runInterval.value))
            && (accepted && !IsDue(t.status, w.clock) ==> w'.stored == w.stored && w'.jobs == w.jobs)
            && (!accepted ==> w'.stored.value.status == t.status.(phase := Failed) && w'.jobs == w.jobs)
  {
    hide Step;
    var d := Decided(cfg, w, id);
    DecisionReached(cfg, w, id);
    if d.worker.call.FetchSecret? {
      RunRecorded(cfg, d, id);
    } else if d.worker.call.WriteStatus? {
      NoteAnswered(cfg, d, id);
    }
  }

  /** Whether or not anything passed the webhook: no run of any history was made for an interval it would not accept. */
  lemma {:induction false} EveryIntervalRunIsAdmitted(cfg: Config, w0: World, es: seq<Event>)
    requires WellNamed(cfg) && Initial(cfg, w0)
    ensures forall r | r in Run(cfg, w0, es).hist.runs && r.cause.IntervalDue? ::
              r.interval.Some? && r.interval.value >= 45 * 60
  {
    if es != [] {
      var m := |es| - 1;
      EveryIntervalRunIsAdmitted(cfg, w0, es[..m]);
      CoreHolds(cfg, w0, es[..m]);
      var w := Run(cfg, w0, es[..m]);
      if CreatesApplyJob(cfg, w, es[m]) && NewRun(cfg, w).cause.IntervalDue? {
        NewIntervalRunIsAdmitted(cfg, w, es[m]);
      }
    }
  }

  lemma NewIntervalRunIsAdmitted(cfg: Config, w: World, e: Event)
    requires RunOnItsWay(cfg, w.worker, w.clock) && CreatesApplyJob(cfg, w, e) && NewRun(cfg, w).cause.IntervalDue?
    ensures var r := NewRun(cfg, w); r.interval.Some? && r.interval.value >= MIN_INTERVAL
  {
  }

  /** When creation and every edit pass the webhook, no reconcile ever meets an interval it has to reject. */
  lemma {:induction false} NoIntervalIsRejectedLater(cfg: Config, w0: World, es: seq<Event>)
    requires WellNamed(cfg) && Initial(cfg, w0) && ValidateCreate(w0.stored.value.spec).Accepted?
    requires Obeys(cfg, {AdmittedEdits}, w0, es)
    ensures var w := Run(cfg, w0, es);
            && (w.stored.Some? ==> ValidateUpdate(w.stored.value.spec, w0.stored.value.spec).Accepted?)
            && (InReconcile(w.worker) ==> CheckInterval(w.worker.mem.spec).Accepted?)
  {
    CoreHolds(cfg, w0, []);
    AdmittedHolds(cfg, w0, es, 0);
  }
}
