/** Unhindered reconciles, call by call. */
module Schedules {
  import opened Types
  import opened Machine

  /** The pending call is performed and answered. */
  function Answer(cfg: Config, w: World, id: string): World { Step(cfg, w, Serve(Done, id)) }

  /** Between reconciles, with an object that has its finalizer and its workspace, and no Job of the recorded name. */
  predicate Ready(w: World) {
    && w.worker.call.Idle? && w.stored.Some?
    && var t := w.stored.value;
       && t.finalizer && !t.deleting && Supported(t.spec)
       && t.status.workspaceID != "" && t.status.workspaceID in w.workspaces
       && t.status.activeJobName !in w.jobs
  }

  lemma ReadAnswered(cfg: Config, w: World, id: string)
    requires w.worker.call.Idle? && w.stored.Some?
    requires var t := w.stored.value; t.finalizer && !t.deleting && Supported(t.spec) && t.status.workspaceID != ""
    ensures Answer(cfg, w, id) == w.(worker := Worker(CheckWorkspace, w.stored.value, true, false, false))
  {
  }

  /** The workspace check of a copy whose recorded Job is gone: the Job is looked up if one is recorded. */
  lemma CheckAnswered(cfg: Config, w: World, id: string)
    requires w.worker.call.CheckWorkspace? && w.worker.mem.status.workspaceID in w.workspaces
    ensures var k := w.worker.(verified := true);
            Answer(cfg, w, id) ==
              w.(worker := if k.mem.status.activeJobName != "" then k.(call := FetchJob)
                           else Take(k, Decide(cfg, k.mem, None, w.clock)))
  {
  }

  lemma FetchAnswered(cfg: Config, w: World, id: string)
    requires w.worker.call.FetchJob? && w.worker.mem.status.activeJobName !in w.jobs
    ensures Answer(cfg, w, id) == w.(worker := Take(w.worker, Decide(cfg, w.worker.mem, None, w.clock)))
  {
  }

  /** A reconcile served up to its decision. */
  function Decided(cfg: Config, w: World, id: string): World {
    var checked := Answer(cfg, Answer(cfg, w, id), id);
    if checked.worker.call.FetchJob? then Answer(cfg, checked, id) else checked
  }

  lemma DecisionReached(cfg: Config, w: World, id: string)
    requires Ready(w)
    ensures var k := Worker(Idle, w.stored.value, true, true, false);
            Decided(cfg, w, id) == w.(worker := Take(k, Decide(cfg, w.stored.value, None, w.clock)))
  {
    ReadAnswered(cfg, w, id);
    CheckAnswered(cfg, Answer(cfg, w, id), id);
    var checked := Answer(cfg, Answer(cfg, w, id), id);
    if checked.worker.call.FetchJob? {
      FetchAnswered(cfg, checked, id);
    }
  }

  lemma SecretAnswered(cfg: Config, w: World, id: string)
    requires w.worker.call.FetchSecret?
    ensures Answer(cfg, w, id) == w.(worker := w.worker.(call := CreateJob(w.worker.call.hash, w.worker.call.cause)))
  {
  }

  lemma CreateAnswered(cfg: Config, w: World, id: string)
    requires w.worker.call.CreateJob? && JobNameCreated(cfg, w.worker) !in w.jobs
    ensures Answer(cfg, w, id) ==
              w.(jobs := w.jobs[JobNameCreated(cfg, w.worker) := NewJob(cfg, w.worker)],
                 worker := Take(w.worker, Write(RecordRun(cfg, w.worker.mem, w.worker.call.hash, w.clock), RecordJob)),
                 hist := w.hist.(runs := w.hist.runs + [NewRun(cfg, w)]))
  {
  }

  lemma RecordAnswered(cfg: Config, w: World, id: string)
    requires w.worker.call == WriteStatus(RecordJob) && Current(w) && w.hist.runs != []
    ensures Answer(cfg, w, id) ==
              w.(stored := Some(Bump(w.stored.value).(status := w.worker.mem.status)),
                 worker := w.worker.(call := Idle, mem := Bump(w.worker.mem)),
                 hist := w.hist.(lastRecorded := Some(w.hist.runs[|w.hist.runs| - 1])))
  {
  }

  lemma NoteAnswered(cfg: Config, w: World, id: string)
    requires w.worker.call == WriteStatus(Note) && w.stored.Some?
    requires w.worker.mem == w.stored.value.(status := w.worker.mem.status)
    ensures var w' := Answer(cfg, w, id);
            && w'.stored == Some(Bump(w.stored.value).(status := w.worker.mem.status))
            && w'.worker.call.Idle? && w'.jobs == w.jobs && w'.hist.runs == w.hist.runs
  {
  }

  /* ---------- a reconcile that starts a run ---------- */

  /** From its decision to start a run until the record of the Job is stored. */
  function RunToRecord(cfg: Config, w: World, id: string): World {
    Answer(cfg, Answer(cfg, Answer(cfg, w, id), id), id)
  }

  lemma RunRecorded(cfg: Config, w: World, id: string)
    requires w.worker.call.FetchSecret? && w.stored.Some? && w.worker.mem == w.stored.value
    requires cfg.jobName(w.worker.mem.generation, w.worker.call.hash) !in w.jobs
    ensures var t, hash := w.stored.value, w.worker.call.hash;
            var name := cfg.jobName(t.generation, hash);
            var w' := RunToRecord(cfg, w, id);
            && w'.stored == Some(Bump(t).(status := RecordRun(cfg, t, hash, w.clock)))
            && w'.jobs == w.jobs[name := Job(Apply, t.generation, hash, SpecHash(cfg, t.spec), 0, 0, 0, false)]
            && w'.worker.call.Idle? && w'.workspaces == w.workspaces && w'.clock == w.clock
            && w'.hist.runs == w.hist.runs + [RunRecord(name, t.generation, hash, SpecHash(cfg, t.spec),
                                                        w.worker.call.cause, w.clock, t.spec.runInterval)]
  {
    SecretAnswered(cfg, w, id);
    CreateAnswered(cfg, Answer(cfg, w, id), id);
    RecordAnswered(cfg, Answer(cfg, Answer(cfg, w, id), id), id);
  }

  /** One unhindered reconcile to its end. */
  function Reconciled(cfg: Config, w: World, id: string): World {
    var d := Decided(cfg, w, id);
    if d.worker.call.FetchSecret? then RunToRecord(cfg, d, id)
    else if d.worker.call.WriteStatus? then Answer(cfg, d, id)
    else d
  }

  /** The Job succeeds and is removed. */
  function Completed(cfg: Config, w: World, name: string): World {
    Step(cfg, Step(cfg, w, Progress(name, Report(0, 1, 0, true))), Expire(name))
  }

  lemma JobCompleted(cfg: Config, w: World, name: string)
    requires name in w.jobs && w.jobs[name].kind.Apply? && !w.jobs[name].finished
    ensures Completed(cfg, w, name) == w.(jobs := w.jobs - {name})
  {
    var reported := Step(cfg, w, Progress(name, Report(0, 1, 0, true)));
    assert reported.hist == w.hist && reported.worker == w.worker;
    assert Completed(cfg, w, name).jobs == w.jobs - {name};
  }

  /** Some events lead from one world to the other. */
  ghost predicate Leads(cfg: Config, w: World, w': World) { exists es :: Run(cfg, w, es) == w' }

  lemma LeadsNowhere(cfg: Config, w: World)
    ensures Leads(cfg, w, w)
  {
    assert Run(cfg, w, []) == w;
  }

  lemma LeadsOn(cfg: Config, w: World, w': World, e: Event)
    requires Leads(cfg, w, w')
    ensures Leads(cfg, w, Step(cfg, w', e))
  {
    var es :| Run(cfg, w, es) == w';
    assert (es + [e])[..|es|] == es;
    assert Run(cfg, w, es + [e]) == Step(cfg, w', e);
  }

  lemma LeadsToDecided(cfg: Config, w: World, w': World, id: string)
    requires Leads(cfg, w, w')
    ensures Leads(cfg, w, Decided(cfg, w', id))
  {
    var answer := Serve(Done, id);
    LeadsOn(cfg, w, w', answer);
    LeadsOn(cfg, w, Answer(cfg, w', id), answer);
    LeadsOn(cfg, w, Answer(cfg, Answer(cfg, w', id), id), answer);
  }

  lemma LeadsToRecord(cfg: Config, w: World, w': World, id: string)
    requires Leads(cfg, w, w')
    ensures Leads(cfg, w, RunToRecord(cfg, w', id))
  {
    var answer := Serve(Done, id);
    LeadsOn(cfg, w, w', answer);
    LeadsOn(cfg, w, Answer(cfg, w', id), answer);
    LeadsOn(cfg, w, Answer(cfg, Answer(cfg, w', id), id), answer);
  }

  lemma LeadsToCompleted(cfg: Config, w: World, w': World, name: string)
    requires Leads(cfg, w, w')
    ensures Leads(cfg, w, Completed(cfg, w', name))
  {
    LeadsOn(cfg, w, w', Progress(name, Report(0, 1, 0, true)));
    LeadsOn(cfg, w, Step(cfg, w', Progress(name, Report(0, 1, 0, true))), Expire(name));
  }
}
