/** Concrete runs: the first reconcile of a TfRun, and what happens where an assumption of a result is dropped. */
module Scenarios {
  import opened Types
  import opened Machine
  import opened Rules
  import opened JobInvariants
  import opened AllInvariants
  import opened Schedules

  /** What a scenario looks at: all but the history, and of that the runs. */
  predicate Shows(w: World, stored: TfRun, jobs: map<string, Job>, workspaces: set<string>, k: Worker,
                  runs: seq<RunRecord>) {
    w.stored == Some(stored) && w.jobs == jobs && w.workspaces == workspaces && w.worker == k && w.hist.runs == runs
  }

  /* ---------- single steps ---------- */

  lemma FirstReadAnswered(cfg: Config, w: World, t: TfRun)
    requires w.worker.call.Idle? && w.stored == Some(t) && !t.finalizer
    ensures Shows(Answer(cfg, w, ""), t, w.jobs, w.workspaces,
                  Worker(AddFinalizer, t, t.status.workspaceID != "", false, false),
                  w.hist.runs)
    ensures Answer(cfg, w, "").hist.workspaceIds == w.hist.workspaceIds
  {
  }

  lemma FinalizerAnswered(cfg: Config, w: World, t: TfRun)
    requires w.worker.call.AddFinalizer? && w.stored == Some(t) && w.worker.mem == t && !t.deleting
    requires Supported(t.spec) && t.status.workspaceID == "" && t.importId == ""
    ensures var t' := Bump(t).(finalizer := true);
            Shows(Answer(cfg, w, ""), t', w.jobs, w.workspaces, w.worker.(call := EnsureWorkspace, mem := t'),
                  w.hist.runs)
    ensures Answer(cfg, w, "").hist.workspaceIds == w.hist.workspaceIds
  {
  }

  lemma EnsureAnswered(cfg: Config, w: World, id: string)
    requires w.worker.call.EnsureWorkspace? && w.stored.Some? && id != "" && id !in w.hist.workspaceIds
    ensures Shows(Answer(cfg, w, id), w.stored.value, w.jobs, w.workspaces + {id},
                  Take(w.worker, AfterEnsure(w.worker.mem, Some(id))), w.hist.runs)
  {
  }

  lemma EnsureFails(cfg: Config, w: World)
    requires w.worker.call.EnsureWorkspace? && w.stored.Some?
    ensures Shows(Step(cfg, w, Serve(Refused, "")), w.stored.value, w.jobs, w.workspaces,
                  Take(w.worker, AfterEnsure(w.worker.mem, None)), w.hist.runs)
  {
  }

  /** A status write that lands. */
  lemma WriteAnswered(cfg: Config, w: World, t: TfRun)
    requires w.worker.call.WriteStatus? && w.stored == Some(t) && w.worker.mem == t.(status := w.worker.mem.status)
    ensures var t' := Bump(t).(status := w.worker.mem.status);
            Shows(Answer(cfg, w, ""), t', w.jobs, w.workspaces,
                  Take(w.worker.(mem := t', unsettled := w.worker.unsettled || w.worker.call.purpose.Resume?),
                       AfterStatusWrite(cfg, t', w.worker.call.purpose, true, w.clock)),
                  w.hist.runs)
  {
  }

  /** A status write on a version that is no longer stored. */
  lemma RecordConflicts(cfg: Config, w: World, t: TfRun)
    requires w.worker.call == WriteStatus(RecordJob) && w.stored == Some(t)
    requires w.worker.mem.resourceVersion != t.resourceVersion
    ensures Shows(Answer(cfg, w, ""), t, w.jobs, w.workspaces, w.worker.(call := Idle), w.hist.runs)
  {
  }

  lemma EditLands(cfg: Config, w: World, spec: Spec)
    requires w.stored.Some? && w.stored.value.spec != spec
    ensures var t := w.stored.value;
            Shows(Step(cfg, w, Edit(spec)), Bump(t).(generation := t.generation + 1, spec := spec), w.jobs,
                  w.workspaces,
                  w.worker, w.hist.runs)
  {
  }

  /** The steps that create a Job and stand before its record. */
  lemma JobAnswered(cfg: Config, w: World, t: TfRun)
    requires w.worker.call.FetchSecret? && w.stored == Some(t) && w.worker.mem == t
    requires cfg.jobName(t.generation, w.worker.call.hash) !in w.jobs
    ensures var hash := w.worker.call.hash;
            var name := cfg.jobName(t.generation, hash);
            var w' := Answer(cfg, Answer(cfg, w, ""), "");
            Shows(w', t, w.jobs[name := Job(Apply, t.generation, hash, SpecHash(cfg, t.spec), 0, 0, 0, false)],
                  w.workspaces,
                  Take(w.worker, Write(RecordRun(cfg, t, hash, w.clock), RecordJob)),
                  w.hist.runs + [RunRecord(name, t.generation, hash, SpecHash(cfg, t.spec), w.worker.call.cause,
                                           w.clock,
                                           t.spec.runInterval)])
  {
    SecretAnswered(cfg, w, "");
    CreateAnswered(cfg, Answer(cfg, w, ""), "");
  }
  /* ---------- the first reconcile ---------- */

  predicate New(cfg: Config, w0: World, id: string) {
    && Initial(cfg, w0) && Supported(w0.stored.value.spec) && w0.stored.value.importId == ""
    && id != "" && id !in w0.workspaces
  }

  /** The object once its finalizer and its workspace are recorded. */
  function WithWorkspace(t: TfRun, id: string): TfRun {
    Bump(Bump(t)).(finalizer := true,
                   status := EMPTY_STATUS.(workspaceID := id, workspaceReady := true, phase := Pending,
                                           observedGeneration := t.generation))
  }

  /** Unhindered, the first reconcile of a TfRun adds the finalizer, creates the workspace and decides to run its
      spec. */
  lemma FirstDecision(cfg: Config, w0: World, id: string) returns (w: World)
    requires New(cfg, w0, id)
    ensures Leads(cfg, w0, w)
    ensures var t := WithWorkspace(w0.stored.value, id);
            && w.stored == Some(t) && w.jobs == map[] && w.workspaces == w0.workspaces + {id} && w.hist.runs == []
            && w.worker == Worker(FetchSecret(SpecHash(cfg, t.spec), SpecChange), t, false, false, false)
  {
    hide Step;
    var t := w0.stored.value;
    LeadsNowhere(cfg, w0);
    FirstReadAnswered(cfg, w0, t);
    var read := Answer(cfg, w0, "");
    LeadsOn(cfg, w0, w0, Serve(Done, ""));
    FinalizerAnswered(cfg, read, t);
    var held := Answer(cfg, read, "");
    LeadsOn(cfg, w0, read, Serve(Done, ""));
    EnsureAnswered(cfg, held, id);
    var made := Answer(cfg, held, id);
    LeadsOn(cfg, w0, held, Serve(Done, id));
    WriteAnswered(cfg, made, held.stored.value);
    w := Answer(cfg, made, "");
    LeadsOn(cfg, w0, made, Serve(Done, ""));
  }

  /** ... and creates and records the Job of its spec. */
  lemma FirstReconcileRuns(cfg: Config, w0: World, id: string)
    requires WellNamed(cfg) && New(cfg, w0, id)
    ensures exists es ::
              var w, t := Run(cfg, w0, es), w0.stored.value;
              var name := cfg.jobName(1, SpecHash(cfg, t.spec));
              && w.worker.call.Idle? && w.stored.Some?
              && w.stored.value.status.activeJobName == name && name in w.jobs
              && w.stored.value.status.lastSpecHash == w.jobs[name].built == SpecHash(cfg, t.spec)
              && w.stored.value.status.workspaceID == id && id in w.workspaces
              && w.stored.value.finalizer
  {
    var w := FirstDecision(cfg, w0, id);
    RunRecorded(cfg, w, "");
    LeadsToRecord(cfg, w0, w, "");
    var es :| Run(cfg, w0, es) == RunToRecord(cfg, w, "");
  }

  /* ---------- an edit in flight ---------- */

  /** Without the assumption that no edit falls between the decision of a reconcile and the record of its Job, two
      apply Jobs run side by side: the record is lost, and the next reconcile starts a Job of another name. */
  lemma EditInFlightBreaksExclusion(cfg: Config, w0: World, spec: Spec, id: string)
    requires WellNamed(cfg) && New(cfg, w0, id) && Supported(spec) && spec != w0.stored.value.spec
    requires cfg.jobName(1, SpecHash(cfg, w0.stored.value.spec)) != cfg.jobName(2, SpecHash(cfg, spec))
    ensures exists es :: |Unfinished(Run(cfg, w0, es))| == 2
  {
    hide Step;
    var decided := FirstDecision(cfg, w0, id);
    var t := decided.stored.value;
    JobAnswered(cfg, decided, t);
    LeadsOn(cfg, w0, decided, Serve(Done, ""));
    LeadsOn(cfg, w0, Answer(cfg, decided, ""), Serve(Done, ""));
    var created := Answer(cfg, Answer(cfg, decided, ""), "");
    EditLands(cfg, created, spec);
    LeadsOn(cfg, w0, created, Edit(spec));
    var edited := Step(cfg, created, Edit(spec));
    RecordConflicts(cfg, edited, edited.stored.value);
    LeadsOn(cfg, w0, edited, Serve(Done, ""));
    var lost := Answer(cfg, edited, "");
    SecondJob(cfg, w0, lost, cfg.jobName(1, SpecHash(cfg, t.spec)));
  }

  lemma DecidesToRunSpec(cfg: Config, w: World)
    requires Ready(w) && w.stored.value.status.lastSpecHash != SpecHash(cfg, w.stored.value.spec)
    ensures var t := w.stored.value;
            Decided(cfg, w, "") ==
              w.(worker := Worker(FetchSecret(SpecHash(cfg, t.spec), SpecChange), t, true, true, false))
  {
    DecisionReached(cfg, w, "");
  }

  lemma TwoUnfinished(w: World, jobs: map<string, Job>, name: string, other: string, job: Job)
    requires jobs.Keys == {name} && jobs[name].kind.Apply? && !jobs[name].finished && name != other
    requires w.jobs == jobs[other := job] && job.kind.Apply? && !job.finished
    ensures |Unfinished(w)| == 2
  {
    assert Unfinished(w) == {name, other};
  }

  /** A reconcile that knows of no Job starts one beside the one that is there. */
  lemma SecondJob(cfg: Config, w0: World, w: World, name: string)
    requires WellNamed(cfg) && Leads(cfg, w0, w) && Ready(w)
    requires w.jobs.Keys == {name} && w.jobs[name].kind.Apply? && !w.jobs[name].finished
    requires var t := w.stored.value;
             && t.status.lastSpecHash == "" && cfg.jobName(t.generation, SpecHash(cfg, t.spec)) != name
    ensures exists es :: |Unfinished(Run(cfg, w0, es))| == 2
  {
    var t := w.stored.value;
    DecidesToRunSpec(cfg, w);
    LeadsToDecided(cfg, w0, w, "");
    var d := Decided(cfg, w, "");
    JobAnswered(cfg, d, t);
    LeadsOn(cfg, w0, d, Serve(Done, ""));
    LeadsOn(cfg, w0, Answer(cfg, d, ""), Serve(Done, ""));
    var end := Answer(cfg, Answer(cfg, d, ""), "");
    var hash := SpecHash(cfg, t.spec);
    TwoUnfinished(end, w.jobs, name, cfg.jobName(t.generation, hash),
                  Job(Apply, t.generation, hash, hash, 0, 0, 0, false));
    var es :| Run(cfg, w0, es) == end;
  }

  /* ---------- a recorded Job that is not seen to be active ---------- */

  /** A look at the recorded Job that fails, or finds no active pod, starts a run of the edited spec. */
  lemma JobOverlooked(cfg: Config, w: World, o: Outcome)
    requires w.worker.call.FetchJob? && Supported(w.worker.mem.spec) && w.worker.mem.status.activeJobName in w.jobs
    requires w.worker.mem.status.lastSpecHash != SpecHash(cfg, w.worker.mem.spec)
    requires o.Refused? || (o.Done? && !IsJobActive(w.jobs[w.worker.mem.status.activeJobName]))
    ensures Step(cfg, w, Serve(o, "")) ==
              w.(worker := w.worker.(call := FetchSecret(SpecHash(cfg, w.worker.mem.spec), SpecChange)))
  {
  }

  lemma JobBesideRecorded(cfg: Config, w0: World, w: World, o: Outcome, name: string)
    requires Leads(cfg, w0, w) && w.worker.call.Idle? && w.stored.Some?
    requires w.jobs.Keys == {name} && w.jobs[name].kind.Apply? && !w.jobs[name].finished
    requires o.Refused? || (o.Done? && !IsJobActive(w.jobs[name]))
    requires var t := w.stored.value;
             && t.finalizer && !t.deleting && Supported(t.spec)
             && t.status.workspaceID != "" && t.status.workspaceID in w.workspaces
             && t.status.activeJobName == name != ""
             && t.status.lastSpecHash != SpecHash(cfg, t.spec)
             && cfg.jobName(t.generation, SpecHash(cfg, t.spec)) != name
    ensures exists es :: |Unfinished(Run(cfg, w0, es))| == 2
  {
    hide Step;
    var t, hash := w.stored.value, SpecHash(cfg, w.stored.value.spec);
    ReadAnswered(cfg, w, "");
    LeadsOn(cfg, w0, w, Serve(Done, ""));
    var checking := Answer(cfg, w, "");
    CheckAnswered(cfg, checking, "");
    LeadsOn(cfg, w0, checking, Serve(Done, ""));
    var checked := Answer(cfg, checking, "");
    JobOverlooked(cfg, checked, o);
    LeadsOn(cfg, w0, checked, Serve(o, ""));
    var decided := Step(cfg, checked, Serve(o, ""));
    JobAnswered(cfg, decided, t);
    LeadsOn(cfg, w0, decided, Serve(Done, ""));
    LeadsOn(cfg, w0, Answer(cfg, decided, ""), Serve(Done, ""));
    var end := Answer(cfg, Answer(cfg, decided, ""), "");
    TwoUnfinished(end, w.jobs, name, cfg.jobName(t.generation, hash),
                  Job(Apply, t.generation, hash, hash, 0, 0, 0, false));
    var es :| Run(cfg, w0, es) == end;
  }

  /** Without the assumption that the counts are timely: the Job has no pod yet when the spec is edited. */
  lemma UncountedJobBreaksExclusion(cfg: Config, w0: World, spec: Spec, id: string)
    requires WellNamed(cfg) && New(cfg, w0, id) && Supported(spec)
    requires SpecHash(cfg, spec) != SpecHash(cfg, w0.stored.value.spec)
    requires cfg.jobName(1, SpecHash(cfg, w0.stored.value.spec)) != cfg.jobName(2, SpecHash(cfg, spec))
    ensures exists es :: |Unfinished(Run(cfg, w0, es))| == 2
  {
    hide Step;
    var decided := FirstDecision(cfg, w0, id);
    RunRecorded(cfg, decided, "");
    LeadsToRecord(cfg, w0, decided, "");
    var recorded := RunToRecord(cfg, decided, "");
    EditLands(cfg, recorded, spec);
    LeadsOn(cfg, w0, recorded, Edit(spec));
    JobBesideRecorded(cfg, w0, Step(cfg, recorded, Edit(spec)), Done,
                      cfg.jobName(1, SpecHash(cfg, w0.stored.value.spec)));
  }

  /** Without the assumption that the recorded Job can be read: an error counts as no Job. */
  lemma UnreadableJobBreaksExclusion(cfg: Config, w0: World, spec: Spec, id: string)
    requires WellNamed(cfg) && New(cfg, w0, id) && Supported(spec)
    requires SpecHash(cfg, spec) != SpecHash(cfg, w0.stored.value.spec)
    requires cfg.jobName(1, SpecHash(cfg, w0.stored.value.spec)) != cfg.jobName(2, SpecHash(cfg, spec))
    ensures exists es :: |Unfinished(Run(cfg, w0, es))| == 2
  {
    hide Step;
    var name := cfg.jobName(1, SpecHash(cfg, w0.stored.value.spec));
    var decided := FirstDecision(cfg, w0, id);
    RunRecorded(cfg, decided, "");
    LeadsToRecord(cfg, w0, decided, "");
    var recorded := RunToRecord(cfg, decided, "");
    JobStarts(cfg, recorded, name);
    LeadsOn(cfg, w0, recorded, Progress(name, Report(1, 0, 0, false)));
    var active := Step(cfg, recorded, Progress(name, Report(1, 0, 0, false)));
    EditLands(cfg, active, spec);
    LeadsOn(cfg, w0, active, Edit(spec));
    JobBesideRecorded(cfg, w0, Step(cfg, active, Edit(spec)), Refused, name);
  }

  /** A look at the recorded Job that fails when the interval is due: a run of the same name is started. */
  lemma JobUnreadWhenDue(cfg: Config, w: World)
    requires w.worker.call.FetchJob? && Supported(w.worker.mem.spec)
    requires var t := w.worker.mem;
             && t.status.lastSpecHash == SpecHash(cfg, t.spec) && !PendingExists(t.status)
             && t.spec.runInterval.Some? && t.spec.runInterval.value >= MIN_INTERVAL
             && t.status.nextRunTime.Some? && t.status.nextRunTime.value <= w.clock
    ensures Step(cfg, w, Serve(Refused, "")) ==
              w.(worker := w.worker.(call := FetchSecret(SpecHash(cfg, w.worker.mem.spec), IntervalDue)))
  {
  }

  lemma TimePasses(cfg: Config, w: World, elapsed: nat)
    ensures Step(cfg, w, Tick(elapsed)) == w.(clock := w.clock + elapsed)
  {
  }

  /** Without the assumption that the recorded Job can be read, a creation does meet a Job of its name, with every
      write reliable and the spec never edited: the interval is due while the Job is still there. */
  lemma UnreadableJobIsMet(cfg: Config, w0: World, interval: nat, id: string)
    requires WellNamed(cfg) && New(cfg, w0, id)
    requires w0.stored.value.spec.runInterval == Some(interval) && interval >= MIN_INTERVAL
    ensures exists es :: var w := Run(cfg, w0, es); w.worker.call.CreateJob? && JobNameCreated(cfg, w.worker) in w.jobs
  {
    hide Step;
    var decided := FirstDecision(cfg, w0, id);
    RunRecorded(cfg, decided, "");
    LeadsToRecord(cfg, w0, decided, "");
    var recorded := RunToRecord(cfg, decided, "");
    TimePasses(cfg, recorded, interval);
    LeadsOn(cfg, w0, recorded, Tick(interval));
    var due := Step(cfg, recorded, Tick(interval));
    ReadAnswered(cfg, due, "");
    LeadsOn(cfg, w0, due, Serve(Done, ""));
    var checking := Answer(cfg, due, "");
    CheckAnswered(cfg, checking, "");
    LeadsOn(cfg, w0, checking, Serve(Done, ""));
    var checked := Answer(cfg, checking, "");
    JobUnreadWhenDue(cfg, checked);
    LeadsOn(cfg, w0, checked, Serve(Refused, ""));
    var starting := Step(cfg, checked, Serve(Refused, ""));
    SecretAnswered(cfg, starting, "");
    LeadsOn(cfg, w0, starting, Serve(Done, ""));
    var es :| Run(cfg, w0, es) == Answer(cfg, starting, "");
  }

  /* ---------- a record that is lost ---------- */

  lemma RecordRefused(cfg: Config, w: World)
    requires w.worker.call == WriteStatus(RecordJob) && w.stored.Some?
    ensures Shows(Step(cfg, w, Serve(Refused, "")), w.stored.value, w.jobs, w.workspaces, w.worker.(call := Idle),
                  w.hist.runs)
  {
  }

  lemma CreationMeetsJob(cfg: Config, w: World)
    requires w.worker.call.CreateJob? && JobNameCreated(cfg, w.worker) in w.jobs
    ensures Answer(cfg, w, "") == w.(worker := w.worker.(call := RefetchToAdopt(JobNameCreated(cfg, w.worker))))
  {
  }

  lemma JobRefetched(cfg: Config, w: World, t: TfRun)
    requires w.worker.call.RefetchToAdopt? && w.stored == Some(t)
    ensures Answer(cfg, w, "") == w.(worker := Take(w.worker.(mem := t), AfterAdopt(t, w.worker.call.jobName)))
  {
  }

  /** The record of the first Job is lost: the next reconcile meets that Job and adopts it, with no second one created
      and without its hash. */
  lemma LostRecordLeadsToAdoption(cfg: Config, w0: World, id: string) returns (w: World)
    requires WellNamed(cfg) && New(cfg, w0, id)
    ensures var spec := w0.stored.value.spec;
            var name := cfg.jobName(1, SpecHash(cfg, spec));
            && Leads(cfg, w0, w) && w.worker.call.Idle? && w.stored.Some?
            && w.stored.value.spec == spec && w.stored.value.generation == 1
            && w.stored.value.finalizer && !w.stored.value.deleting
            && w.stored.value.status.workspaceID == id && id in w.workspaces
            && w.stored.value.status.activeJobName == name && w.stored.value.status.lastSpecHash == ""
            && w.jobs.Keys == {name} && w.jobs[name].kind.Apply? && !w.jobs[name].finished
            && |w.hist.runs| == 1 && w.hist.runs[0].cause.SpecChange?
            && w.hist.runs[0].generation == 1 && w.hist.runs[0].hash == SpecHash(cfg, spec)
  {
    hide Step;
    var decided := FirstDecision(cfg, w0, id);
    var t := decided.stored.value;
    JobAnswered(cfg, decided, t);
    LeadsOn(cfg, w0, decided, Serve(Done, ""));
    LeadsOn(cfg, w0, Answer(cfg, decided, ""), Serve(Done, ""));
    var created := Answer(cfg, Answer(cfg, decided, ""), "");
    RecordRefused(cfg, created);
    LeadsOn(cfg, w0, created, Serve(Refused, ""));
    w := AdoptionFollows(cfg, w0, Step(cfg, created, Serve(Refused, "")), t);
  }

  lemma AdoptionFollows(cfg: Config, w0: World, w: World, t: TfRun) returns (w': World)
    requires Leads(cfg, w0, w) && Ready(w) && w.stored == Some(t) && t.status.lastSpecHash == ""
    requires cfg.jobName(t.generation, SpecHash(cfg, t.spec)) in w.jobs
    ensures Leads(cfg, w0, w')
    ensures var name := cfg.jobName(t.generation, SpecHash(cfg, t.spec));
            Shows(w', Bump(t).(status := AfterAdopt(t, name).status), w.jobs, w.workspaces, w'.worker, w.hist.runs)
    ensures w'.worker.call.Idle?
  {
    hide Step;
    DecidesToRunSpec(cfg, w);
    LeadsToDecided(cfg, w0, w, "");
    var d := Decided(cfg, w, "");
    SecretAnswered(cfg, d, "");
    LeadsOn(cfg, w0, d, Serve(Done, ""));
    var creating := Answer(cfg, d, "");
    CreationMeetsJob(cfg, creating);
    LeadsOn(cfg, w0, creating, Serve(Done, ""));
    var met := Answer(cfg, creating, "");
    JobRefetched(cfg, met, t);
    LeadsOn(cfg, w0, met, Serve(Done, ""));
    var adopting := Answer(cfg, met, "");
    WriteAnswered(cfg, adopting, t);
    LeadsOn(cfg, w0, adopting, Serve(Done, ""));
    w' := Answer(cfg, adopting, "");
  }

  /** So after a lost record a change is run twice: the adopted Job completes, and its hash is still not recorded. */
  lemma LostRecordRunsChangeTwice(cfg: Config, w0: World, id: string)
    requires WellNamed(cfg) && New(cfg, w0, id)
    ensures exists es :: var runs := Run(cfg, w0, es).hist.runs;
              && |runs| == 2 && runs[0].cause.SpecChange? && runs[1].cause.SpecChange?
              && runs[0].generation == runs[1].generation && runs[0].hash == runs[1].hash
  {
    hide Step;
    var adopted := LostRecordLeadsToAdoption(cfg, w0, id);
    var t := adopted.stored.value;
    JobCompleted(cfg, adopted, t.status.activeJobName);
    LeadsToCompleted(cfg, w0, adopted, t.status.activeJobName);
    var done := Completed(cfg, adopted, t.status.activeJobName);
    DecidesToRunSpec(cfg, done);
    LeadsToDecided(cfg, w0, done, "");
    var d := Decided(cfg, done, "");
    JobAnswered(cfg, d, t);
    LeadsOn(cfg, w0, d, Serve(Done, ""));
    LeadsOn(cfg, w0, Answer(cfg, d, ""), Serve(Done, ""));
    var es :| Run(cfg, w0, es) == Answer(cfg, Answer(cfg, d, ""), "");
  }

  /** Nor is it only a lost first record: in every reachable state, a record that is missed at an unchanged generation
      leaves a spec change to be run again, and a continuation meets the Job if it is still there. */
  lemma MissedRecordIsMet(cfg: Config, w0: World, es: seq<Event>, e: Event)
    requires WellNamed(cfg) && Initial(cfg, w0)
    requires var w := Run(cfg, w0, es);
             && MissedRecord(w, e) && w.stored.Some? && !w.stored.value.deleting
             && var t := w.stored.value;
                && Supported(t.spec) && t.status.workspaceID != "" && t.status.workspaceID in w.workspaces
                && t.status.lastSpecHash != SpecHash(cfg, t.spec) && t.status.activeJobName !in w.jobs
                && cfg.jobName(t.generation, SpecHash(cfg, t.spec)) in w.jobs
    ensures exists on :: var w := Run(cfg, Step(cfg, Run(cfg, w0, es), e), on);
              w.worker.call.CreateJob? && JobNameCreated(cfg, w.worker) in w.jobs
  {
    var w := Run(cfg, w0, es);
    CoreHolds(cfg, w0, es);
    var missed := Step(cfg, w, e);
    RecordMissed(cfg, w, e);
    JobIsMet(cfg, missed);
  }

  lemma RecordMissed(cfg: Config, w: World, e: Event)
    requires MissedRecord(w, e)
    ensures var w' := Step(cfg, w, e);
            w'.stored == w.stored && w'.jobs == w.jobs && w'.workspaces == w.workspaces && w'.worker.call.Idle?
  {
  }

  lemma JobIsMet(cfg: Config, w: World)
    requires Ready(w) && w.stored.value.status.lastSpecHash != SpecHash(cfg, w.stored.value.spec)
    requires cfg.jobName(w.stored.value.generation, SpecHash(cfg, w.stored.value.spec)) in w.jobs
    ensures exists on :: var w' := Run(cfg, w, on);
              w'.worker.call.CreateJob? && JobNameCreated(cfg, w'.worker) in w'.jobs
  {
    hide Step;
    LeadsNowhere(cfg, w);
    DecidesToRunSpec(cfg, w);
    LeadsToDecided(cfg, w, w, "");
    var d := Decided(cfg, w, "");
    SecretAnswered(cfg, d, "");
    LeadsOn(cfg, w, d, Serve(Done, ""));
    var on :| Run(cfg, w, on) == Answer(cfg, d, "");
  }

  /* ---------- a creation that goes unanswered ---------- */

  /** The Job is created, but the reconcile sees an error and notes a failure. */
  lemma CreationUnanswered(cfg: Config, w: World)
    requires w.worker.call.CreateJob? && JobNameCreated(cfg, w.worker) !in w.jobs && w.stored.Some?
    ensures Shows(Step(cfg, w, Serve(Unanswered, "")), w.stored.value,
                  w.jobs[JobNameCreated(cfg, w.worker) := NewJob(cfg, w.worker)], w.workspaces,
                  Take(w.worker, Write(w.worker.mem.status.(phase := Failed), Note)), w.hist.runs + [NewRun(cfg, w)])
    ensures Step(cfg, w, Serve(Unanswered, "")).clock == w.clock
  {
  }

  /** A state at rest whose interval is due. */
  predicate Due(cfg: Config, w: World) {
    && Ready(w) && w.jobs == map[]
    && var t := w.stored.value;
       && t.status.lastSpecHash == SpecHash(cfg, t.spec) && !PendingExists(t.status)
       && t.spec.runInterval.Some? && t.spec.runInterval.value >= MIN_INTERVAL
       && t.status.nextRunTime.Some? && t.status.nextRunTime.value <= w.clock
  }

  lemma DecidesIntervalRun(cfg: Config, w: World)
    requires Due(cfg, w)
    ensures var t := w.stored.value;
            Decided(cfg, w, "") ==
              w.(worker := Worker(FetchSecret(SpecHash(cfg, t.spec), IntervalDue), t, true, true, false))
  {
    DecisionReached(cfg, w, "");
  }

  /** The first Job completed, and its interval over. */
  lemma FirstIntervalOver(cfg: Config, w0: World, interval: nat, id: string) returns (w: World)
    requires WellNamed(cfg) && New(cfg, w0, id)
    requires w0.stored.value.spec.runInterval == Some(interval) && interval >= MIN_INTERVAL
    ensures Leads(cfg, w0, w) && Due(cfg, w) && w.stored.value.spec.runInterval == Some(interval)
  {
    hide Step;
    var name := cfg.jobName(1, SpecHash(cfg, w0.stored.value.spec));
    var decided := FirstDecision(cfg, w0, id);
    RunRecorded(cfg, decided, "");
    LeadsToRecord(cfg, w0, decided, "");
    var recorded := RunToRecord(cfg, decided, "");
    JobCompleted(cfg, recorded, name);
    LeadsToCompleted(cfg, w0, recorded, name);
    var done := Completed(cfg, recorded, name);
    TimePasses(cfg, done, interval);
    LeadsOn(cfg, w0, done, Tick(interval));
    w := Step(cfg, done, Tick(interval));
  }

  /** An interval run whose creation goes unanswered leaves no trace in the status. */
  lemma IntervalRunUnnoticed(cfg: Config, w0: World, w: World) returns (w': World)
    requires WellNamed(cfg) && Leads(cfg, w0, w) && Due(cfg, w)
    ensures Leads(cfg, w0, w') && Due(cfg, w') && w'.clock == w.clock && w'.stored.value.spec == w.stored.value.spec
    ensures |w'.hist.runs| == |w.hist.runs| + 1
    ensures var r := w'.hist.runs[|w.hist.runs|];
            r.cause.IntervalDue? && r.at == w.clock && r.interval == w.stored.value.spec.runInterval
  {
    hide Step;
    var t := w.stored.value;
    DecidesIntervalRun(cfg, w);
    LeadsToDecided(cfg, w0, w, "");
    var d := Decided(cfg, w, "");
    SecretAnswered(cfg, d, "");
    LeadsOn(cfg, w0, d, Serve(Done, ""));
    var creating := Answer(cfg, d, "");
    CreationUnanswered(cfg, creating);
    LeadsOn(cfg, w0, creating, Serve(Unanswered, ""));
    var created := Step(cfg, creating, Serve(Unanswered, ""));
    WriteAnswered(cfg, created, t);
    ClockStands(cfg, created);
    LeadsOn(cfg, w0, created, Serve(Done, ""));
    var noted := Answer(cfg, created, "");
    var name := JobNameCreated(cfg, creating.worker);
    JobCompleted(cfg, noted, name);
    LeadsToCompleted(cfg, w0, noted, name);
    w' := Completed(cfg, noted, name);
  }

  lemma ClockStands(cfg: Config, w: World)
    ensures Answer(cfg, w, "").clock == w.clock
  {
  }

  /** Two interval runs at the same time: the second comes sooner than the first plus its interval, with every status
      write reliable. */
  lemma UnansweredCreationBreaksSpacing(cfg: Config, w0: World, interval: nat, id: string)
    requires WellNamed(cfg) && New(cfg, w0, id)
    requires w0.stored.value.spec.runInterval == Some(interval) && interval >= MIN_INTERVAL
    ensures exists es :: var runs := Run(cfg, w0, es).hist.runs;
              && |runs| >= 2
              && var r, next := runs[|runs| - 2], runs[|runs| - 1];
                 && r.cause.IntervalDue? && next.cause.IntervalDue?
                 && r.interval == Some(interval) && next.at < r.at + interval
  {
    hide Step;
    var due := FirstIntervalOver(cfg, w0, interval, id);
    var again := IntervalRunUnnoticed(cfg, w0, due);
    var t := again.stored.value;
    DecidesIntervalRun(cfg, again);
    LeadsToDecided(cfg, w0, again, "");
    var d := Decided(cfg, again, "");
    JobAnswered(cfg, d, t);
    LeadsOn(cfg, w0, d, Serve(Done, ""));
    LeadsOn(cfg, w0, Answer(cfg, d, ""), Serve(Done, ""));
    var es :| Run(cfg, w0, es) == Answer(cfg, Answer(cfg, d, ""), "");
  }

  /* ---------- a workspace that could not be created ---------- */

  /** A failed creation is noted, and the reconcile goes on: a Job is created with no workspace recorded. */
  lemma JobWithoutWorkspace(cfg: Config, w0: World, id: string)
    requires WellNamed(cfg) && New(cfg, w0, id)
    ensures exists es :: var w := Run(cfg, w0, es);
              w.hist.runs != [] && w.stored.Some? && w.stored.value.status.workspaceID == ""
                && w.workspaces == w0.workspaces
  {
    hide Step;
    var t := w0.stored.value;
    LeadsNowhere(cfg, w0);
    FirstReadAnswered(cfg, w0, t);
    var read := Answer(cfg, w0, "");
    LeadsOn(cfg, w0, w0, Serve(Done, ""));
    FinalizerAnswered(cfg, read, t);
    var held := Answer(cfg, read, "");
    LeadsOn(cfg, w0, read, Serve(Done, ""));
    EnsureFails(cfg, held);
    var failed := Step(cfg, held, Serve(Refused, ""));
    LeadsOn(cfg, w0, held, Serve(Refused, ""));
    WriteAnswered(cfg, failed, held.stored.value);
    var noted := Answer(cfg, failed, "");
    LeadsOn(cfg, w0, failed, Serve(Done, ""));
    JobAnswered(cfg, noted, noted.stored.value);
    LeadsOn(cfg, w0, noted, Serve(Done, ""));
    LeadsOn(cfg, w0, Answer(cfg, noted, ""), Serve(Done, ""));
    var es :| Run(cfg, w0, es) == Answer(cfg, Answer(cfg, noted, ""), "");
  }
  /* ---------- an edit and its revert ---------- */

  /** A reconcile of an edited TfRun whose recorded Job is active: the hash of the edit is stored as pending. */
  lemma EditIsPending(cfg: Config, w0: World, w: World) returns (w': World)
    requires Leads(cfg, w0, w) && w.worker.call.Idle? && w.stored.Some?
    requires var t := w.stored.value;
             && t.finalizer && !t.deleting && Supported(t.spec)
             && t.status.workspaceID != "" && t.status.workspaceID in w.workspaces
             && t.status.activeJobName != "" && t.status.activeJobName in w.jobs
             && IsJobActive(w.jobs[t.status.activeJobName])
             && t.status.lastSpecHash != SpecHash(cfg, t.spec)
    ensures Leads(cfg, w0, w') && w'.worker.call.Idle?
    ensures var t := w.stored.value;
            Shows(w', Bump(t).(status := t.status.(pendingExecHash := SpecHash(cfg, t.spec),
                                                   pendingReason := "SpecChange")),
                  w.jobs, w.workspaces, w'.worker, w.hist.runs)
  {
    hide Step;
    var t := w.stored.value;
    ReadAnswered(cfg, w, "");
    var checking := Answer(cfg, w, "");
    LeadsOn(cfg, w0, w, Serve(Done, ""));
    CheckAnswered(cfg, checking, "");
    var checked := Answer(cfg, checking, "");
    LeadsOn(cfg, w0, checking, Serve(Done, ""));
    ActiveJobSeen(cfg, checked);
    var seen := Answer(cfg, checked, "");
    LeadsOn(cfg, w0, checked, Serve(Done, ""));
    WriteAnswered(cfg, seen, t);
    w' := Answer(cfg, seen, "");
    LeadsOn(cfg, w0, seen, Serve(Done, ""));
  }

  lemma ActiveJobSeen(cfg: Config, w: World)
    requires w.worker.call.FetchJob? && w.worker.mem.status.activeJobName in w.jobs
    requires IsJobActive(w.jobs[w.worker.mem.status.activeJobName])
    requires w.worker.mem.status.lastSpecHash != SpecHash(cfg, w.worker.mem.spec)
    ensures var t := w.worker.mem;
            Answer(cfg, w, "") ==
              w.(worker := Take(w.worker, Write(t.status.(pendingExecHash := SpecHash(cfg, t.spec),
                                                          pendingReason := "SpecChange"), Note)))
  {
  }

  lemma JobStarts(cfg: Config, w: World, name: string)
    requires name in w.jobs && !w.jobs[name].finished
    ensures Step(cfg, w, Progress(name, Report(1, 0, 0, false))) ==
              w.(jobs := w.jobs[name := w.jobs[name].(active := 1, succeeded := 0, failed := 0, finished := false)])
  {
  }

  lemma DecidesToRunPending(cfg: Config, w: World)
    requires Ready(w) && PendingExists(w.stored.value.status) && 8 <= |w.stored.value.status.pendingExecHash|
    requires w.stored.value.status.lastSpecHash == SpecHash(cfg, w.stored.value.spec)
    ensures var t := w.stored.value;
            Decided(cfg, w, "") ==
              w.(worker := Worker(FetchSecret(t.status.pendingExecHash, PendingRun), t, true, true, false))
  {
    DecisionReached(cfg, w, "");
  }

  /** The spec is edited while its Job is active, and edited back: the pending run is for the hash of the edit, but is
      built from the first spec. */
  lemma RevertMislabelsARun(cfg: Config, w0: World, spec: Spec, id: string)
    requires WellNamed(cfg) && New(cfg, w0, id) && Supported(spec)
    requires SpecHash(cfg, spec) != SpecHash(cfg, w0.stored.value.spec)
    ensures exists es :: exists r :: r in Run(cfg, w0, es).hist.runs && r.hash != r.built
  {
    hide Step;
    var decided := FirstDecision(cfg, w0, id);
    var first := w0.stored.value.spec;
    var name := cfg.jobName(1, SpecHash(cfg, first));
    RunRecorded(cfg, decided, "");
    LeadsToRecord(cfg, w0, decided, "");
    var recorded := RunToRecord(cfg, decided, "");
    JobStarts(cfg, recorded, name);
    LeadsOn(cfg, w0, recorded, Progress(name, Report(1, 0, 0, false)));
    var active := Step(cfg, recorded, Progress(name, Report(1, 0, 0, false)));
    EditLands(cfg, active, spec);
    LeadsOn(cfg, w0, active, Edit(spec));
    var edited := Step(cfg, active, Edit(spec));
    var pending := EditIsPending(cfg, w0, edited);
    EditLands(cfg, pending, first);
    LeadsOn(cfg, w0, pending, Edit(first));
    PendingRunIsMislabelled(cfg, w0, Step(cfg, pending, Edit(first)), name);
  }

  lemma PendingRunIsMislabelled(cfg: Config, w0: World, w: World, name: string)
    requires Leads(cfg, w0, w) && w.worker.call.Idle? && w.stored.Some?
    requires w.jobs.Keys == {name} && w.jobs[name].kind.Apply? && !w.jobs[name].finished
    requires var t := w.stored.value;
             && t.finalizer && !t.deleting && Supported(t.spec)
             && t.status.workspaceID != "" && t.status.workspaceID in w.workspaces
             && PendingExists(t.status) && 8 <= |t.status.pendingExecHash|
             && t.status.lastSpecHash == SpecHash(cfg, t.spec)
    ensures exists es :: exists r :: r in Run(cfg, w0, es).hist.runs && r.hash != r.built
  {
    var t := w.stored.value;
    JobCompleted(cfg, w, name);
    LeadsToCompleted(cfg, w0, w, name);
    var done := Completed(cfg, w, name);
    DecidesToRunPending(cfg, done);
    LeadsToDecided(cfg, w0, done, "");
    var d := Decided(cfg, done, "");
    JobAnswered(cfg, d, t);
    LeadsOn(cfg, w0, d, Serve(Done, ""));
    LeadsOn(cfg, w0, Answer(cfg, d, ""), Serve(Done, ""));
    var end := Answer(cfg, Answer(cfg, d, ""), "");
    var es :| Run(cfg, w0, es) == end;
    var r := end.hist.runs[|end.hist.runs| - 1];
    assert r in Run(cfg, w0, es).hist.runs;
  }
}
