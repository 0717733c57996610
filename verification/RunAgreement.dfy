/** Whether the three views of one run agree: the response, the ledger replayed from the
    recorded events, and the lifecycle file. */
module RunAgreement {
  import opened Ledger
  import opened Verification
  import opened RunPipeline
  import State = SessionState

  /** The tables that a log of attempts leaves behind. */
  function TablesOf(h: Hash, root: string, t: Tables, log: seq<Attempt>): Tables {
    Replay(h, root, t, Committed(log))
  }

  lemma {:induction false} EmitTables(h: Hash, root: string, t: Tables, env: Env, log: seq<Attempt>, e: Event)
    ensures TablesOf(h, root, t, Emit(env, log, e))
         == if Accepted(env, |log|) then Record(h, root, TablesOf(h, root, t, log), Stamp(env, |log|, e))
            else TablesOf(h, root, t, log)
  {
    ReplayNext(h, root, t, log, Attempt(Stamp(env, |log|, e), Accepted(env, |log|)));
  }

  // ---- The three status columns of a run ----

  datatype View = View(run: Status, work: Status, session: Status)

  function ViewOf(t: Tables, ids: Ids): View {
    View(RunStatusOf(t, ids.run), WorkStatusOf(t, ids.work), SessionStatusOf(t, ids.session))
  }

  /** An event of this run that does not make storage invent a work item. */
  predicate OfRun(ids: Ids, e: Event) {
    e.run == ids.run && (e.work != "" || WorkStatus(e.typ) == NoStatus)
  }

  /** What a recorded event writes to the three columns; NoStatus where it writes nothing. */
  function EffectOf(ids: Ids, e: Event): View {
    View(RunStatus(e),
         if e.work == ids.work then WorkStatus(e.typ) else NoStatus,
         if e.session == ids.session then AgentStatus(e) else NoStatus)
  }

  function Overwrite(earlier: Status, later: Status): Status {
    if later == NoStatus then earlier else later
  }

  /** Recording one event of the run writes its effects to the columns. A run row that is only
      being created gets a status of its own when the event carries none. */
  lemma {:induction false} RecordView(h: Hash, root: string, t: Tables, ids: Ids, e: Event)
    requires Generated(ids) && OfRun(ids, e)
    ensures Written(ViewOf(t, ids), ViewOf(Record(h, root, t, e), ids), EffectOf(ids, e))
  {
    if RunStatusOf(t, ids.run) != NoStatus || RunStatus(e) != NoStatus {
      RecordViewRun(h, root, t, ids, e);
    }
    RecordViewWork(h, root, t, ids, e);
    RecordSessionStatus(h, root, t, e, ids.session);
  }

  lemma {:induction false} RecordViewRun(h: Hash, root: string, t: Tables, ids: Ids, e: Event)
    requires Generated(ids) && OfRun(ids, e) && (RunStatusOf(t, ids.run) != NoStatus || RunStatus(e) != NoStatus)
    ensures RunStatusOf(Record(h, root, t, e), ids.run) == Overwrite(RunStatusOf(t, ids.run), RunStatus(e))
  {
    RecordRunStatus(h, root, t, e, ids.run);
  }

  lemma {:induction false} RecordViewWork(h: Hash, root: string, t: Tables, ids: Ids, e: Event)
    requires Generated(ids) && OfRun(ids, e)
    ensures WorkStatusOf(Record(h, root, t, e), ids.work)
         == Overwrite(WorkStatusOf(t, ids.work), if e.work == ids.work then WorkStatus(e.typ) else NoStatus)
  {
    RecordWorkStatus(h, root, t, e, ids.work);
  }

  /** The columns `after` are those `before` overwritten by `x`. */
  predicate Written(before: View, after: View, x: View) {
    && after.work == Overwrite(before.work, x.work)
    && after.session == Overwrite(before.session, x.session)
    && (before.run != NoStatus || x.run != NoStatus ==> after.run == Overwrite(before.run, x.run))
  }

  ghost predicate FollowsAt(f: seq<Attempt> -> View, env: Env, ids: Ids, log: seq<Attempt>, e: Event) {
    OfRun(ids, e) ==>
      if Accepted(env, |log|) then Written(f(log), f(Emit(env, log, e)), EffectOf(ids, e)) else f(Emit(env, log, e)) == f(log)
  }

  /** `f` reads the columns off a log of attempts. */
  ghost predicate Follows(f: seq<Attempt> -> View, env: Env, ids: Ids) {
    forall log, e :: FollowsAt(f, env, ids, log, e)
  }

  function Reader(h: Hash, root: string, t: Tables, ids: Ids): seq<Attempt> -> View {
    log => ViewOf(TablesOf(h, root, t, log), ids)
  }

  lemma {:induction false} TablesFollow(h: Hash, root: string, t: Tables, env: Env, ids: Ids)
    requires Generated(ids)
    ensures Follows(Reader(h, root, t, ids), env, ids)
  {
    var f := Reader(h, root, t, ids);
    forall log: seq<Attempt>, e: Event ensures FollowsAt(f, env, ids, log, e) {
      if OfRun(ids, e) {
        EmitTables(h, root, t, env, log, e);
        RecordView(h, root, TablesOf(h, root, t, log), ids, Stamp(env, |log|, e));
        assert EffectOf(ids, Stamp(env, |log|, e)) == EffectOf(ids, e);
      }
    }
  }

  // ---- The effects of the events that end a run ----

  function Verdict(success: bool): Status {
    if success then Completed else Failed
  }

  /** The effect of an emitted event, together with the fact that it belongs to the run. */
  predicate Writes(ids: Ids, e: Event, run: Status, work: Status, session: Status) {
    OfRun(ids, e) && EffectOf(ids, e) == View(run, work, session)
  }

  lemma {:induction false} WorkOutcomeWrites(req: Request, ids: Ids, ok: bool)
    requires Generated(ids)
    ensures var e := Fill(req, WorkOutcome(ids, ok));
            Writes(ids, e, if ok then Executing else Failed, Verdict(ok), EffectOf(ids, e).session)
  {
  }

  lemma {:induction false} RunEndedWrites(req: Request, ids: Ids, success: bool)
    requires Generated(ids)
    ensures Writes(ids, Fill(req, RunEnded(ids, success)), Verdict(success), NoStatus, if success then Running else Crashed)
  {
  }

  lemma {:induction false} AgentEndedWrites(req: Request, ids: Ids, success: bool)
    requires Generated(ids)
    ensures Writes(ids, Fill(req, AgentEnded(ids, success)), Verdict(success), NoStatus, Stopped)
  {
  }

  lemma {:induction false} DiagnosisWrites(req: Request, ids: Ids)
    requires Generated(ids)
    ensures Writes(ids, Fill(req, Diagnosis(ids)), NoStatus, NoStatus, if NamedSession(req) == ids.session then Running else NoStatus)
  {
  }

  lemma {:induction false} VerificationWrites(ids: Ids, o: PlanOptions, passed: bool)
    requires Generated(ids) && o.run == ids.run && o.work == ids.work
    ensures Writes(ids, VerificationEvent(o, passed), Verdict(passed), if passed then Verified else Failed, NoStatus)
  {
  }

  lemma {:induction false} EvidenceWrites(ids: Ids, o: PlanOptions, ev: CheckEvidence)
    requires Generated(ids) && o.run == ids.run
    ensures Writes(ids, EvidenceEvent(o, ev), NoStatus, NoStatus, NoStatus)
  {
  }

  // ---- The phases, on the columns ----

  lemma {:induction false} EmitAllOne(env: Env, req: Request, log: seq<Attempt>, e: Event)
    ensures EmitAll(env, req, log, [e]) == Emit(env, log, Fill(req, e))
  {
    assert [e][..0] == [];
  }

  lemma {:induction false} EmitAllTwo(env: Env, req: Request, log: seq<Attempt>, a: Event, b: Event)
    ensures EmitAll(env, req, log, [a, b]) == Emit(env, Emit(env, log, Fill(req, a)), Fill(req, b))
  {
    EmitAllOne(env, req, log, a);
    assert [a, b][..1] == [a];
  }

  lemma {:induction false} TwoWrites(f: seq<Attempt> -> View, env: Env, log: seq<Attempt>, ids: Ids, a: Event, b: Event,
                                     run: Status, session: Status)
    requires Follows(f, env, ids) && run != NoStatus
    requires Writes(ids, a, run, NoStatus, session) && Writes(ids, b, run, NoStatus, Stopped)
    requires Accepted(env, |log| + 1)
    ensures f(Emit(env, Emit(env, log, a), b)) == View(run, f(log).work, Stopped)
  {
    OneWrite(f, env, log, ids, a, run, NoStatus, session);
    OneWrite(f, env, Emit(env, log, a), ids, b, run, NoStatus, Stopped);
  }

  lemma {:induction false} OneWrite(f: seq<Attempt> -> View, env: Env, log: seq<Attempt>, ids: Ids, e: Event,
                                    run: Status, work: Status, session: Status)
    requires Follows(f, env, ids) && Writes(ids, e, run, work, session)
    ensures var v := f(Emit(env, log, e));
            if Accepted(env, |log|) then Written(f(log), v, View(run, work, session)) else v == f(log)
  {
    assert FollowsAt(f, env, ids, log, e);
  }

  /** The part of the effect that concerns the work item. */
  predicate WritesWork(ids: Ids, e: Event, work: Status) {
    OfRun(ids, e) && EffectOf(ids, e).work == work
  }

  lemma {:induction false} WorkWrite(f: seq<Attempt> -> View, env: Env, log: seq<Attempt>, ids: Ids, e: Event, work: Status)
    requires Follows(f, env, ids) && WritesWork(ids, e, work)
    ensures f(Emit(env, log, e)).work == if Accepted(env, |log|) then Overwrite(f(log).work, work) else f(log).work
  {
    assert FollowsAt(f, env, ids, log, e);
  }

  lemma {:induction false} TerminalLog(env: Env, req: Request, log: seq<Attempt>, ids: Ids, success: bool)
    ensures var l2 := Emit(env, Emit(env, log, Fill(req, RunEnded(ids, success))), Fill(req, AgentEnded(ids, success)));
            EmitAll(env, req, log, TerminalEvents(ids, success))
            == if success then l2 else Emit(env, l2, Fill(req, Diagnosis(ids)))
  {
    var a, b, c := RunEnded(ids, success), AgentEnded(ids, success), Diagnosis(ids);
    EmitAllTwo(env, req, log, a, b);
    if success {
      assert TerminalEvents(ids, success) == [a, b];
    } else {
      EmitAllAppend(env, req, log, [a, b], [c]);
      EmitAllOne(env, req, EmitAll(env, req, log, [a, b]), c);
    }
  }

  /** The session column after the terminal events, once the agent_stopped record is accepted: a
      diagnosis that names the session puts it back to running. */
  function FinalSession(env: Env, stop: nat, req: Request, ids: Ids, success: bool): Status {
    if !success && NamedSession(req) == ids.session && Accepted(env, stop + 1) then Running else Stopped
  }

  /** The agent_stopped record alone fixes the run and session columns; the terminal events leave
      the work item alone. */
  lemma {:induction false} TerminalEffect(f: seq<Attempt> -> View, env: Env, log: seq<Attempt>, req: Request, ids: Ids, success: bool)
    requires Follows(f, env, ids) && Generated(ids) && Accepted(env, |log| + 1)
    ensures f(EmitAll(env, req, log, TerminalEvents(ids, success)))
         == View(Verdict(success), f(log).work, FinalSession(env, |log| + 1, req, ids, success))
  {
    var a, b := Fill(req, RunEnded(ids, success)), Fill(req, AgentEnded(ids, success));
    RunEndedWrites(req, ids, success);
    AgentEndedWrites(req, ids, success);
    TwoWrites(f, env, log, ids, a, b, Verdict(success), if success then Running else Crashed);
    TerminalLog(env, req, log, ids, success);
    if !success {
      DiagnosedEffect(f, env, Emit(env, Emit(env, log, a), b), req, ids);
    }
  }

  lemma {:induction false} DiagnosedEffect(f: seq<Attempt> -> View, env: Env, log: seq<Attempt>, req: Request, ids: Ids)
    requires Follows(f, env, ids) && Generated(ids) && f(log).run != NoStatus
    ensures f(Emit(env, log, Fill(req, Diagnosis(ids))))
         == f(log).(session := if NamedSession(req) == ids.session && Accepted(env, |log|) then Running else f(log).session)
  {
    DiagnosisWrites(req, ids);
    OneWrite(f, env, log, ids, Fill(req, Diagnosis(ids)), NoStatus, NoStatus,
             if NamedSession(req) == ids.session then Running else NoStatus);
  }

  lemma {:induction false} EvidenceTail(f: seq<Attempt> -> View, env: Env, log: seq<Attempt>, ids: Ids, o: PlanOptions,
                                        evidence: seq<CheckEvidence>)
    requires Follows(f, env, ids) && Generated(ids) && o.run == ids.run
    ensures f(EmitUntilFailure(env, log, EvidenceEvents(o, evidence))).work == f(log).work
    decreases |evidence|
  {
    if evidence != [] {
      var e := EvidenceEvent(o, evidence[0]);
      EvidenceWrites(ids, o, evidence[0]);
      OneWrite(f, env, log, ids, e, NoStatus, NoStatus, NoStatus);
      assert EvidenceEvents(o, evidence)[1..] == EvidenceEvents(o, evidence[1..]);
      if Accepted(env, |log|) {
        EvidenceTail(f, env, Emit(env, log, e), ids, o, evidence[1..]);
      }
    }
  }

  /** Verification moves the work item to its verdict exactly when the verdict is recorded. */
  lemma {:induction false} VerificationEffect(f: seq<Attempt> -> View, env: Env, log: seq<Attempt>, ids: Ids, o: PlanOptions,
                                              passed: bool, evidence: seq<CheckEvidence>)
    requires Follows(f, env, ids) && Generated(ids) && o.run == ids.run && o.work == ids.work
    ensures f(EmitUntilFailure(env, log, VerificationEvents(o, passed, evidence))).work
         == if !Accepted(env, |log|) then f(log).work else if passed then Verified else Failed
  {
    var e := VerificationEvent(o, passed);
    var es := VerificationEvents(o, passed, evidence);
    assert es[0] == e && es[1..] == EvidenceEvents(o, evidence);
    VerificationWrites(ids, o, passed);
    OneWrite(f, env, log, ids, e, Verdict(passed), if passed then Verified else Failed, NoStatus);
    if Accepted(env, |log|) {
      EvidenceTail(f, env, Emit(env, log, e), ids, o, evidence);
    }
  }

  // ---- The worker's stream ----

  /** What is left of `left` after attempts that write the given work statuses. */
  function LastWritten(env: Env, from: nat, works: seq<Status>, left: Status): Status
    decreases |works|
  {
    if works == [] then left
    else
      var n := |works| - 1;
      var before := LastWritten(env, from, works[..n], left);
      if Accepted(env, from + n) then Overwrite(before, works[n]) else before
  }

  /** An event of the run, before its ids are filled in, that will write `work` to the work item. */
  predicate WorkTemplate(ids: Ids, e: Event, work: Status) {
    && e.run == ids.run
    && ((e.work == ids.work && WorkStatus(e.typ) == work) || (e.work == "" && WorkStatus(e.typ) == NoStatus == work))
  }

  lemma {:induction false} FilledTemplate(req: Request, ids: Ids, e: Event, work: Status)
    requires Generated(ids) && WorkTemplate(ids, e, work)
    ensures WritesWork(ids, Fill(req, e), work)
  {
  }

  ghost predicate WorksWritten(ids: Ids, es: seq<Event>, works: seq<Status>) {
    |es| == |works| && forall i :: 0 <= i < |es| ==> WorkTemplate(ids, es[i], works[i])
  }

  lemma {:induction false} WorksWrittenAppend(ids: Ids, a: seq<Event>, b: seq<Event>, wa: seq<Status>, wb: seq<Status>)
    requires WorksWritten(ids, a, wa) && WorksWritten(ids, b, wb)
    ensures WorksWritten(ids, a + b, wa + wb)
  {
  }

  lemma {:induction false} TemplateWrite(f: seq<Attempt> -> View, env: Env, log: seq<Attempt>, req: Request, ids: Ids, e: Event, work: Status)
    requires Follows(f, env, ids) && Generated(ids) && WorkTemplate(ids, e, work)
    ensures f(Emit(env, log, Fill(req, e))).work == if Accepted(env, |log|) then Overwrite(f(log).work, work) else f(log).work
  {
    FilledTemplate(req, ids, e, work);
    WorkWrite(f, env, log, ids, Fill(req, e), work);
  }

  /** The logs after each attempt of a series. */
  ghost predicate Chain(env: Env, req: Request, es: seq<Event>, logs: seq<seq<Attempt>>) {
    && |logs| == |es| + 1
    && forall i :: 0 <= i < |es| ==> Linked(env, req, es[i], logs[i], logs[i + 1])
  }

  predicate Linked(env: Env, req: Request, e: Event, before: seq<Attempt>, after: seq<Attempt>) {
    after == Emit(env, before, Fill(req, e))
  }

  lemma {:induction false} LinkedWrite(f: seq<Attempt> -> View, env: Env, req: Request, ids: Ids, e: Event, work: Status,
                                       before: seq<Attempt>, after: seq<Attempt>)
    requires Follows(f, env, ids) && Generated(ids) && WorkTemplate(ids, e, work) && Linked(env, req, e, before, after)
    ensures |after| == |before| + 1
    ensures f(after).work == if Accepted(env, |before|) then Overwrite(f(before).work, work) else f(before).work
  {
    TemplateWrite(f, env, before, req, ids, e, work);
  }

  lemma {:induction false} ChainWork(f: seq<Attempt> -> View, env: Env, req: Request, ids: Ids, es: seq<Event>,
                                     works: seq<Status>, logs: seq<seq<Attempt>>, i: nat)
    requires Follows(f, env, ids) && Generated(ids) && WorksWritten(ids, es, works) && Chain(env, req, es, logs) && i <= |es|
    ensures |logs[i]| == |logs[0]| + i
    ensures f(logs[i]).work == LastWritten(env, |logs[0]|, works[..i], f(logs[0]).work)
  {
    if i > 0 {
      ChainWork(f, env, req, ids, es, works, logs, i - 1);
      assert Linked(env, req, es[i - 1], logs[i - 1], logs[i - 1 + 1]);
      LinkedWrite(f, env, req, ids, es[i - 1], works[i - 1], logs[i - 1], logs[i]);
      LastWrittenSnoc(env, |logs[0]|, works[..i - 1], works[i - 1], f(logs[0]).work);
      assert works[..i] == works[..i - 1] + [works[i - 1]];
    }
  }

  lemma {:induction false} LogChain(env: Env, req: Request, log: seq<Attempt>, es: seq<Event>) returns (logs: seq<seq<Attempt>>)
    ensures Chain(env, req, es, logs) && logs[0] == log && logs[|es|] == EmitAll(env, req, log, es)
  {
    logs := seq(|es| + 1, i requires 0 <= i <= |es| => EmitAll(env, req, log, es[..i]));
    forall i | 0 <= i < |es| ensures Linked(env, req, es[i], logs[i], logs[i + 1]) {
      EmitAllSnoc(env, req, log, es[..i], es[i]);
      assert es[..i + 1] == es[..i] + [es[i]];
    }
    assert es[..|es|] == es;
  }

  lemma {:induction false} EmitAllWork(f: seq<Attempt> -> View, env: Env, log: seq<Attempt>, req: Request, ids: Ids,
                                       es: seq<Event>, works: seq<Status>)
    requires Follows(f, env, ids) && Generated(ids) && WorksWritten(ids, es, works)
    ensures f(EmitAll(env, req, log, es)).work == LastWritten(env, |log|, works, f(log).work)
  {
    var logs := LogChain(env, req, log, es);
    ChainWork(f, env, req, ids, es, works, logs, |es|);
    assert works[..|works|] == works;
  }

  /** Some tool event of the stream was recorded. */
  predicate ToolRecorded(env: Env, from: nat, evts: seq<WorkerEvent>)
    decreases |evts|
  {
    evts != [] &&
    (ToolRecorded(env, from, evts[..|evts| - 1])
     || (!evts[|evts| - 1].kind.OtherKind? && Accepted(env, from + |evts| - 1)))
  }

  function StreamWorks(evts: seq<WorkerEvent>): (r: seq<Status>)
    ensures |r| == |evts|
  {
    seq(|evts|, i requires 0 <= i < |evts| => if evts[i].kind.OtherKind? then NoStatus else Running)
  }

  /** The stream leaves the work item running once a tool event is recorded, and as it was before that. */
  lemma {:induction false} StreamLeaves(env: Env, from: nat, evts: seq<WorkerEvent>, left: Status)
    ensures LastWritten(env, from, StreamWorks(evts), left) == if ToolRecorded(env, from, evts) then Running else left
    decreases |evts|
  {
    if evts != [] {
      var n := |evts| - 1;
      StreamLeaves(env, from, evts[..n], left);
      assert StreamWorks(evts)[..n] == StreamWorks(evts[..n]);
    }
  }

  lemma {:induction false} LastWrittenSnoc(env: Env, from: nat, works: seq<Status>, work: Status, left: Status)
    ensures LastWritten(env, from, works + [work], left)
         == if Accepted(env, from + |works|) then Overwrite(LastWritten(env, from, works, left), work)
            else LastWritten(env, from, works, left)
  {
    assert (works + [work])[..|works|] == works;
  }

  lemma {:induction false} StreamWritten(ids: Ids, evts: seq<WorkerEvent>)
    ensures WorksWritten(ids, StreamEvents(evts, ids), StreamWorks(evts))
  {
  }

  lemma {:induction false} OutcomeWritten(ids: Ids, ok: bool)
    ensures WorksWritten(ids, [WorkOutcome(ids, ok)], [Verdict(ok)])
  {
  }

  lemma {:induction false} DrainWritten(ids: Ids, evts: seq<WorkerEvent>, ok: bool)
    ensures WorksWritten(ids, StreamEvents(evts, ids) + [WorkOutcome(ids, ok)], StreamWorks(evts) + [Verdict(ok)])
  {
    StreamWritten(ids, evts);
    OutcomeWritten(ids, ok);
    WorksWrittenAppend(ids, StreamEvents(evts, ids), [WorkOutcome(ids, ok)], StreamWorks(evts), [Verdict(ok)]);
  }

  /** What the stream and the outcome of the worker leave of `left`. */
  function DrainedWork(env: Env, from: nat, evts: seq<WorkerEvent>, ok: bool, left: Status): Status {
    if Accepted(env, from + |evts|) then Verdict(ok) else if ToolRecorded(env, from, evts) then Running else left
  }

  lemma {:induction false} DrainLeaves(env: Env, from: nat, evts: seq<WorkerEvent>, ok: bool, left: Status)
    ensures LastWritten(env, from, StreamWorks(evts) + [Verdict(ok)], left) == DrainedWork(env, from, evts, ok, left)
  {
    LastWrittenSnoc(env, from, StreamWorks(evts), Verdict(ok), left);
    StreamLeaves(env, from, evts, left);
  }

  /** The work item after the stream and the worker's outcome. */
  lemma {:induction false} DrainEffect(f: seq<Attempt> -> View, env: Env, log: seq<Attempt>, req: Request, ids: Ids, w: World)
    requires Follows(f, env, ids) && Generated(ids)
    ensures f(DrainedLog(env, log, req, ids, w)).work == DrainedWork(env, |log|, w.events, WorkerOk(w), f(log).work)
  {
    var ok := WorkerOk(w);
    DrainWritten(ids, w.events, ok);
    EmitAllWork(f, env, log, req, ids, StreamEvents(w.events, ids) + [WorkOutcome(ids, ok)], StreamWorks(w.events) + [Verdict(ok)]);
    DrainLeaves(env, |log|, w.events, ok, f(log).work);
  }

  // ---- The ledger and the outcome ----

  /** The outcome of a committed run over a sink. */
  predicate Outcome(env: Env, log: seq<Attempt>, req: Request, ids: Ids, w: World) {
    Succeeds(req, w, VerdictRecorded(env, DrainedLog(env, log, req, ids, w), req))
  }

  /** Where the agent_stopped record of a run comes in the log. */
  function StopAt(env: Env, log: seq<Attempt>, req: Request, ids: Ids, w: World): nat {
    |VerifiedLog(env, DrainedLog(env, log, req, ids, w), req, ids, w)| + 1
  }

  predicate StopRecorded(env: Env, log: seq<Attempt>, req: Request, ids: Ids, w: World) {
    Accepted(env, StopAt(env, log, req, ids, w))
  }

  /** Which of the records that touch the work item are accepted: any tool event, the worker's
      outcome, the verdict. */
  datatype Kept = Kept(tool: bool, outcome: bool, verdict: bool)

  function KeptIn(env: Env, log: seq<Attempt>, w: World): Kept {
    var n := |log| + |w.events|;
    Kept(ToolRecorded(env, |log|, w.events), Accepted(env, n), Accepted(env, n + 1))
  }

  /** The work status that a run leaves on an item that had the status `left` before. */
  function FinalWorkStatus(req: Request, w: World, left: Status, kept: Kept): Status {
    if Verifies(req, w) && kept.verdict then (if ChecksPass(req, w) then Verified else Failed)
    else if kept.outcome then Verdict(WorkerOk(w))
    else if kept.tool then Running
    else left
  }

  lemma {:induction false} VerifiedEffect(f: seq<Attempt> -> View, env: Env, drained: seq<Attempt>, req: Request, ids: Ids, w: World)
    requires Follows(f, env, ids) && Generated(ids)
    ensures f(VerifiedLog(env, drained, req, ids, w)).work
         == if Verifies(req, w) && Accepted(env, |drained|) then (if ChecksPass(req, w) then Verified else Failed)
            else f(drained).work
  {
    if Verifies(req, w) {
      BuiltPlanRunnable(Specs(req), req.cwd, w.runner);
      var plan := BuildPlan(Specs(req), req.cwd);
      VerificationEffect(f, env, drained, ids, Options(req, ids), RequiredPass(plan, w.runner), Collect(plan, w.runner));
    }
  }

  lemma {:induction false} FinalStatusComposed(env: Env, log: seq<Attempt>, req: Request, w: World, left: Status)
    ensures FinalWorkStatus(req, w, left, KeptIn(env, log, w))
         == if Verifies(req, w) && Accepted(env, |log| + |w.events| + 1) then (if ChecksPass(req, w) then Verified else Failed)
            else DrainedWork(env, |log|, w.events, WorkerOk(w), left)
  {
  }

  lemma {:induction false} ViewBeforeEnd(f: seq<Attempt> -> View, env: Env, log: seq<Attempt>, req: Request, ids: Ids, w: World)
    requires Follows(f, env, ids) && Generated(ids)
    ensures f(VerifiedLog(env, DrainedLog(env, log, req, ids, w), req, ids, w)).work
         == FinalWorkStatus(req, w, f(log).work, KeptIn(env, log, w))
  {
    var drained := DrainedLog(env, log, req, ids, w);
    DrainEffect(f, env, log, req, ids, w);
    VerdictPosition(env, log, req, ids, w);
    VerifiedEffect(f, env, drained, req, ids, w);
    FinalStatusComposed(env, log, req, w, f(log).work);
  }

  lemma {:induction false} ViewAfterRun(f: seq<Attempt> -> View, env: Env, log: seq<Attempt>, req: Request, ids: Ids, w: World)
    requires Follows(f, env, ids) && Generated(ids) && StopRecorded(env, log, req, ids, w)
    ensures var success := Outcome(env, log, req, ids, w);
            f(CompletedLog(env, log, req, ids, w))
            == View(Verdict(success),
                    FinalWorkStatus(req, w, f(log).work, KeptIn(env, log, w)),
                    FinalSession(env, StopAt(env, log, req, ids, w), req, ids, success))
  {
    ViewBeforeEnd(f, env, log, req, ids, w);
    TerminalEffect(f, env, VerifiedLog(env, DrainedLog(env, log, req, ids, w), req, ids, w), req, ids, Outcome(env, log, req, ids, w));
  }

  /** The ledger after a committed run, whatever was in it before, whatever the worker streamed
      and whichever records were lost, except agent_stopped. */
  lemma {:induction false} LedgerAfterRun(h: Hash, root: string, t: Tables, env: Env, log: seq<Attempt>, req: Request, ids: Ids, w: World)
    requires Generated(ids) && StopRecorded(env, log, req, ids, w)
    ensures var success := Outcome(env, log, req, ids, w);
            ViewOf(TablesOf(h, root, t, CompletedLog(env, log, req, ids, w)), ids)
            == View(Verdict(success),
                    FinalWorkStatus(req, w, WorkStatusOf(TablesOf(h, root, t, log), ids.work), KeptIn(env, log, w)),
                    FinalSession(env, StopAt(env, log, req, ids, w), req, ids, success))
  {
    var f := Reader(h, root, t, ids);
    TablesFollow(h, root, t, env, ids);
    ViewAfterRun(f, env, log, req, ids, w);
    assert f(log) == ViewOf(TablesOf(h, root, t, log), ids);
    assert f(CompletedLog(env, log, req, ids, w)) == ViewOf(TablesOf(h, root, t, CompletedLog(env, log, req, ids, w)), ids);
  }

  /** The columns that agree with the outcome: the run completed exactly on success, its session
      stopped, and its work verified, completed or failed by passed checks, success without
      checks, or failure. */
  function Agreed(req: Request, success: bool): View {
    View(if success then Completed else Failed,
         if !success then Failed else if Specs(req) == [] then Completed else Verified,
         Stopped)
  }

  /** The records that decide the work item are accepted: with checks the verdict and, if they
      passed, all the evidence; without verification the worker's outcome. */
  predicate Decided(env: Env, log: seq<Attempt>, req: Request, ids: Ids, w: World) {
    if Verifies(req, w) then
      && KeptIn(env, log, w).verdict
      && (ChecksPass(req, w) ==> VerdictRecorded(env, DrainedLog(env, log, req, ids, w), req))
    else KeptIn(env, log, w).outcome
  }

  /** The verdict is the first attempt after the drained log. */
  lemma {:induction false} VerdictPosition(env: Env, log: seq<Attempt>, req: Request, ids: Ids, w: World)
    ensures |DrainedLog(env, log, req, ids, w)| == |log| + |w.events| + 1
    ensures VerdictRecorded(env, DrainedLog(env, log, req, ids, w), req) ==> Accepted(env, |log| + |w.events| + 1)
  {
  }

  /** When the deciding records and agent_stopped are accepted the ledger agrees with the outcome,
      whatever else is lost. */
  lemma {:induction false} LedgerAgreesWithOutcome(h: Hash, root: string, t: Tables, env: Env, log: seq<Attempt>, req: Request, ids: Ids, w: World)
    requires Generated(ids) && StopRecorded(env, log, req, ids, w) && Decided(env, log, req, ids, w)
    requires NamedSession(req) != ids.session
    ensures ViewOf(TablesOf(h, root, t, CompletedLog(env, log, req, ids, w)), ids) == Agreed(req, Outcome(env, log, req, ids, w))
  {
    LedgerAfterRun(h, root, t, env, log, req, ids, w);
    VerdictPosition(env, log, req, ids, w);
  }

  /** A status that says nothing yet about how the work ended. */
  predicate Undecided(s: Status) {
    s == NoStatus || s == Ready || s == Running
  }

  lemma {:induction false} FinalStatusIff(env: Env, log: seq<Attempt>, req: Request, ids: Ids, w: World, left: Status)
    requires Undecided(left)
    ensures FinalWorkStatus(req, w, left, KeptIn(env, log, w)) == Agreed(req, Outcome(env, log, req, ids, w)).work
       <==> Decided(env, log, req, ids, w)
  {
    VerdictPosition(env, log, req, ids, w);
  }

  /** The events before the worker write nothing that decides the work item. */
  lemma {:induction false} LeadInWritten(ids: Ids) returns (es: seq<Event>, works: seq<Status>)
    ensures es == CreationEvents(ids) + StartEvents(ids) && WorksWritten(ids, es, works)
    ensures forall i :: 0 <= i < |works| ==> Undecided(works[i])
  {
    es, works := CreationEvents(ids) + StartEvents(ids), [NoStatus, Ready, NoStatus] + [NoStatus, Running];
    assert WorksWritten(ids, CreationEvents(ids), [NoStatus, Ready, NoStatus]);
    assert WorksWritten(ids, StartEvents(ids), [NoStatus, Running]);
    WorksWrittenAppend(ids, CreationEvents(ids), StartEvents(ids), [NoStatus, Ready, NoStatus], [NoStatus, Running]);
  }

  lemma {:induction false} StaysUndecided(env: Env, from: nat, works: seq<Status>, left: Status)
    requires Undecided(left) && forall i :: 0 <= i < |works| ==> Undecided(works[i])
    ensures Undecided(LastWritten(env, from, works, left))
    decreases |works|
  {
    if works != [] {
      StaysUndecided(env, from, works[..|works| - 1], left);
    }
  }

  lemma {:induction false} UndecidedAfter(h: Hash, root: string, t: Tables, env: Env, log: seq<Attempt>, req: Request, ids: Ids,
                                          es: seq<Event>, works: seq<Status>)
    requires Generated(ids) && Undecided(WorkStatusOf(TablesOf(h, root, t, log), ids.work))
    requires WorksWritten(ids, es, works) && forall i :: 0 <= i < |works| ==> Undecided(works[i])
    ensures Undecided(WorkStatusOf(TablesOf(h, root, t, EmitAll(env, req, log, es)), ids.work))
  {
    var f := Reader(h, root, t, ids);
    TablesFollow(h, root, t, env, ids);
    assert f(log).work == WorkStatusOf(TablesOf(h, root, t, log), ids.work);
    EmitAllWork(f, env, log, req, ids, es, works);
    StaysUndecided(env, |log|, works, f(log).work);
    assert f(EmitAll(env, req, log, es)).work == WorkStatusOf(TablesOf(h, root, t, EmitAll(env, req, log, es)), ids.work);
  }

  lemma {:induction false} LeadInUndecided(h: Hash, root: string, t: Tables, env: Env, log: seq<Attempt>, req: Request, ids: Ids)
    requires Generated(ids) && ids.work !in TablesOf(h, root, t, log).works
    ensures Undecided(WorkStatusOf(TablesOf(h, root, t, EmitAll(env, req, log, CreationEvents(ids) + StartEvents(ids))), ids.work))
  {
    var es, works := LeadInWritten(ids);
    UndecidedAfter(h, root, t, env, log, req, ids, es, works);
  }

  // ---- The session column ----

  /** An event of the run that does not report the agent as stopped. */
  predicate Unstopping(ids: Ids, e: Event) {
    OfRun(ids, e) && e.typ != AgentStopped
  }

  lemma {:induction false} EmitUnstopped(f: seq<Attempt> -> View, env: Env, log: seq<Attempt>, ids: Ids, e: Event)
    requires Follows(f, env, ids) && f(log).session != Stopped && (Unstopping(ids, e) || (OfRun(ids, e) && !Accepted(env, |log|)))
    ensures f(Emit(env, log, e)).session != Stopped
  {
    assert FollowsAt(f, env, ids, log, e);
  }

  /** Event templates of the run that do not report the agent as stopped. */
  ghost predicate NoStops(es: seq<Event>) {
    forall i :: 0 <= i < |es| ==> es[i].typ != AgentStopped
  }

  lemma {:induction false} FilledUnstopping(req: Request, ids: Ids, e: Event, work: Status)
    requires Generated(ids) && WorkTemplate(ids, e, work) && e.typ != AgentStopped
    ensures Unstopping(ids, Fill(req, e))
  {
    FilledTemplate(req, ids, e, work);
  }

  ghost predicate FilledNoStops(req: Request, ids: Ids, es: seq<Event>) {
    forall i :: 0 <= i < |es| ==> Unstopping(ids, Fill(req, es[i]))
  }

  lemma {:induction false} ChainUnstopped(f: seq<Attempt> -> View, env: Env, req: Request, ids: Ids, es: seq<Event>,
                                          logs: seq<seq<Attempt>>, i: nat)
    requires Follows(f, env, ids) && FilledNoStops(req, ids, es)
    requires Chain(env, req, es, logs) && i <= |es| && f(logs[0]).session != Stopped
    ensures f(logs[i]).session != Stopped
  {
    if i > 0 {
      ChainUnstopped(f, env, req, ids, es, logs, i - 1);
      assert Linked(env, req, es[i - 1], logs[i - 1], logs[i - 1 + 1]);
      assert Unstopping(ids, Fill(req, es[i - 1]));
      EmitUnstopped(f, env, logs[i - 1], ids, Fill(req, es[i - 1]));
    }
  }

  lemma {:induction false} EmitAllUnstopped(f: seq<Attempt> -> View, env: Env, log: seq<Attempt>, req: Request, ids: Ids,
                                            es: seq<Event>, works: seq<Status>)
    requires Follows(f, env, ids) && Generated(ids) && WorksWritten(ids, es, works) && NoStops(es)
    requires f(log).session != Stopped
    ensures f(EmitAll(env, req, log, es)).session != Stopped
  {
    forall i | 0 <= i < |es| ensures Unstopping(ids, Fill(req, es[i])) {
      FilledUnstopping(req, ids, es[i], works[i]);
    }
    var logs := LogChain(env, req, log, es);
    ChainUnstopped(f, env, req, ids, es, logs, |es|);
  }

  lemma {:induction false} UntilFailureUnstopped(f: seq<Attempt> -> View, env: Env, log: seq<Attempt>, ids: Ids, es: seq<Event>)
    requires Follows(f, env, ids) && f(log).session != Stopped
    requires forall i :: 0 <= i < |es| ==> Unstopping(ids, es[i])
    ensures f(EmitUntilFailure(env, log, es)).session != Stopped
    decreases |es|
  {
    if es != [] {
      EmitUnstopped(f, env, log, ids, es[0]);
      if Accepted(env, |log|) {
        UntilFailureUnstopped(f, env, Emit(env, log, es[0]), ids, es[1..]);
      }
    }
  }

  lemma {:induction false} VerdictUnstopping(req: Request, ids: Ids, w: World, i: nat)
    requires Generated(ids) && i < |VerdictEvents(req, ids, w)|
    ensures Unstopping(ids, VerdictEvents(req, ids, w)[i])
  {
    BuiltPlanRunnable(Specs(req), req.cwd, w.runner);
    var plan := BuildPlan(Specs(req), req.cwd);
    if i == 0 {
      VerificationWrites(ids, Options(req, ids), RequiredPass(plan, w.runner));
    } else {
      EvidenceWrites(ids, Options(req, ids), Collect(plan, w.runner)[i - 1]);
    }
  }

  lemma {:induction false} DrainUnstopping(ids: Ids, evts: seq<WorkerEvent>, ok: bool)
    ensures NoStops(StreamEvents(evts, ids) + [WorkOutcome(ids, ok)])
  {
  }

  lemma {:induction false} UnstoppedBeforeEnd(f: seq<Attempt> -> View, env: Env, log: seq<Attempt>, req: Request, ids: Ids, w: World)
    requires Follows(f, env, ids) && Generated(ids) && f(log).session != Stopped
    ensures f(VerifiedLog(env, DrainedLog(env, log, req, ids, w), req, ids, w)).session != Stopped
  {
    var ok := WorkerOk(w);
    var es, works := StreamEvents(w.events, ids) + [WorkOutcome(ids, ok)], StreamWorks(w.events) + [Verdict(ok)];
    DrainWritten(ids, w.events, ok);
    DrainUnstopping(ids, w.events, ok);
    EmitAllUnstopped(f, env, log, req, ids, es, works);
    if Verifies(req, w) {
      forall i | 0 <= i < |VerdictEvents(req, ids, w)| ensures Unstopping(ids, VerdictEvents(req, ids, w)[i]) {
        VerdictUnstopping(req, ids, w, i);
      }
      UntilFailureUnstopped(f, env, DrainedLog(env, log, req, ids, w), ids, VerdictEvents(req, ids, w));
    }
  }

  /** Without the agent_stopped record the terminal events leave the session open. */
  lemma {:induction false} LostStopLeavesOpen(f: seq<Attempt> -> View, env: Env, log: seq<Attempt>, req: Request, ids: Ids, success: bool)
    requires Follows(f, env, ids) && Generated(ids) && !Accepted(env, |log| + 1) && f(log).session != Stopped
    ensures f(EmitAll(env, req, log, TerminalEvents(ids, success))).session != Stopped
  {
    var a, b, c := Fill(req, RunEnded(ids, success)), Fill(req, AgentEnded(ids, success)), Fill(req, Diagnosis(ids));
    RunEndedWrites(req, ids, success);
    AgentEndedWrites(req, ids, success);
    DiagnosisWrites(req, ids);
    TerminalLog(env, req, log, ids, success);
    EndUnstopped(f, env, log, ids, a, b);
    if !success {
      EmitUnstopped(f, env, Emit(env, Emit(env, log, a), b), ids, c);
    }
  }

  lemma {:induction false} EndUnstopped(f: seq<Attempt> -> View, env: Env, log: seq<Attempt>, ids: Ids, a: Event, b: Event)
    requires Follows(f, env, ids) && !Accepted(env, |log| + 1) && f(log).session != Stopped
    requires Unstopping(ids, a) && OfRun(ids, b)
    ensures f(Emit(env, Emit(env, log, a), b)).session != Stopped
  {
    EmitUnstopped(f, env, log, ids, a);
    EmitUnstopped(f, env, Emit(env, log, a), ids, b);
  }

  lemma {:induction false} LedgerUnstopped(h: Hash, root: string, t: Tables, env: Env, log: seq<Attempt>, req: Request, ids: Ids, w: World)
    requires Generated(ids) && !StopRecorded(env, log, req, ids, w)
    requires SessionStatusOf(TablesOf(h, root, t, log), ids.session) != Stopped
    ensures ViewOf(TablesOf(h, root, t, CompletedLog(env, log, req, ids, w)), ids).session != Stopped
  {
    var f := Reader(h, root, t, ids);
    TablesFollow(h, root, t, env, ids);
    assert f(log) == ViewOf(TablesOf(h, root, t, log), ids);
    UnstoppedBeforeEnd(f, env, log, req, ids, w);
    LostStopLeavesOpen(f, env, VerifiedLog(env, DrainedLog(env, log, req, ids, w), req, ids, w), req, ids, Outcome(env, log, req, ids, w));
    assert f(CompletedLog(env, log, req, ids, w)) == ViewOf(TablesOf(h, root, t, CompletedLog(env, log, req, ids, w)), ids);
  }

  // ---- When response and ledger agree ----

  /** The agent_stopped record is accepted, and no diagnosis of a failed run that names the session
      itself reopens it. */
  predicate Ended(env: Env, log: seq<Attempt>, req: Request, ids: Ids, w: World) {
    && StopRecorded(env, log, req, ids, w)
    && FinalSession(env, StopAt(env, log, req, ids, w), req, ids, Outcome(env, log, req, ids, w)) == Stopped
  }

  /** Exactly when response and ledger agree after a committed run whose work item was undecided and
      whose session was not stopped when the worker started, whatever was lost. */
  lemma {:induction false} AgreementIff(h: Hash, root: string, t: Tables, env: Env, log: seq<Attempt>, req: Request, ids: Ids, w: World)
    requires Generated(ids) && Undecided(WorkStatusOf(TablesOf(h, root, t, log), ids.work))
    requires SessionStatusOf(TablesOf(h, root, t, log), ids.session) != Stopped
    ensures ViewOf(TablesOf(h, root, t, CompletedLog(env, log, req, ids, w)), ids) == Agreed(req, Outcome(env, log, req, ids, w))
       <==> Decided(env, log, req, ids, w) && Ended(env, log, req, ids, w)
  {
    if StopRecorded(env, log, req, ids, w) {
      LedgerAfterRun(h, root, t, env, log, req, ids, w);
      FinalStatusIff(env, log, req, ids, w, WorkStatusOf(TablesOf(h, root, t, log), ids.work));
    } else {
      LedgerUnstopped(h, root, t, env, log, req, ids, w);
    }
  }

  lemma {:induction false} LeadInUnstopping(ids: Ids)
    ensures NoStops(CreationEvents(ids) + StartEvents(ids))
  {
  }

  lemma {:induction false} LeadInUnstopped(h: Hash, root: string, t: Tables, env: Env, log: seq<Attempt>, req: Request, ids: Ids)
    requires Generated(ids) && ids.session !in TablesOf(h, root, t, log).sessions
    ensures SessionStatusOf(TablesOf(h, root, t, EmitAll(env, req, log, CreationEvents(ids) + StartEvents(ids))), ids.session) != Stopped
  {
    var f := Reader(h, root, t, ids);
    TablesFollow(h, root, t, env, ids);
    var es, works := LeadInWritten(ids);
    LeadInUnstopping(ids);
    assert f(log).session == SessionStatusOf(TablesOf(h, root, t, log), ids.session);
    EmitAllUnstopped(f, env, log, req, ids, es, works);
    assert f(EmitAll(env, req, log, es)).session == SessionStatusOf(TablesOf(h, root, t, EmitAll(env, req, log, es)), ids.session);
  }

  /** The same for a whole run with a fresh work item and session, whatever records are lost: the
      ledger agrees with the response exactly when the deciding records and agent_stopped were
      accepted. Losing the worker's outcome matters only without verification; losing the verdict,
      or evidence of passed checks, always does. */
  lemma {:induction false} LedgerAgreesIff(h: Hash, root: string, t: Tables, env: Env, log: seq<Attempt>, req: Request, ids: Ids, w: World,
                                           pre: seq<Attempt>)
    requires Generated(ids)
    requires ids.work !in TablesOf(h, root, t, log).works && ids.session !in TablesOf(h, root, t, log).sessions
    requires Accepts(req, w) && w.factoryOk && w.spawnOk && pre == EmitAll(env, req, log, PreWorkerEvents(req, ids, w))
    ensures ViewOf(TablesOf(h, root, t, CompletedLog(env, pre, req, ids, w)), ids) == Agreed(req, Outcome(env, pre, req, ids, w))
       <==> Decided(env, pre, req, ids, w) && Ended(env, pre, req, ids, w)
  {
    LeadInUndecided(h, root, t, env, log, req, ids);
    LeadInUnstopped(h, root, t, env, log, req, ids);
    AgreementIff(h, root, t, env, pre, req, ids, w);
  }

  // ---- Verification fails closed ----

  /** A run that declares a check succeeds exactly when the worker did, every check's command
      passed and, with a sink, the verdict and all evidence were recorded. */
  lemma {:induction false} VerificationFailsClosed(req: Request, w: World, recorded: bool)
    requires DeclaresCheck(req.checks)
    ensures Succeeds(req, w, recorded) <==>
              && !w.waitFailed && w.result.success && recorded
              && forall i :: 0 <= i < |Specs(req)| ==>
                   var r := w.runner(BuildCheck(Specs(req)[i], req.cwd, i)); !r.failed && r.exitCode == 0
  {
    ChecksParsedIffDeclared(req.checks);
    BuiltPlanRunnable(Specs(req), req.cwd, w.runner);
    assert forall i :: 0 <= i < |Specs(req)| ==>
      (Passes(w.runner, BuildCheck(Specs(req)[i], req.cwd, i)) <==>
         var r := w.runner(BuildCheck(Specs(req)[i], req.cwd, i)); !r.failed && r.exitCode == 0);
  }

  /** Without a declared check success is the worker's own. */
  lemma {:induction false} UncheckedRunSucceedsIff(req: Request, w: World, recorded: bool)
    requires !DeclaresCheck(req.checks)
    ensures Succeeds(req, w, recorded) <==> !w.waitFailed && w.result.success
  {
    ChecksParsedIffDeclared(req.checks);
  }

  lemma {:induction false} MalformedCheckFailsRun(req: Request, w: World, recorded: bool, k: nat)
    requires FalseFails(w.runner) && k < |Specs(req)| && Malformed(Specs(req)[k])
    ensures !Succeeds(req, w, recorded)
  {
    MalformedSpecFailsPlan(Specs(req), req.cwd, w.runner, k);
  }

  lemma {:induction false} UntilFailureExtends(env: Env, log: seq<Attempt>, es: seq<Event>)
    ensures var r := EmitUntilFailure(env, log, es); |r| >= |log| && r[..|log|] == log
    decreases |es|
  {
    if es != [] {
      var next := Emit(env, log, es[0]);
      assert next[..|log|] == log;
      if Accepted(env, |log|) {
        UntilFailureExtends(env, next, es[1..]);
        var r := EmitUntilFailure(env, next, es[1..]);
        assert r[..|log|] == r[..|next|][..|log|];
      }
    }
  }

  lemma {:induction false} UntilFailureAllRecorded(env: Env, log: seq<Attempt>, es: seq<Event>)
    ensures var r := EmitUntilFailure(env, log, es);
            AllAccepted(env, |log|, |es|) <==> |r| == |log| + |es| && forall i :: |log| <= i < |r| ==> r[i].ok
    decreases |es|
  {
    if es != [] {
      var next := Emit(env, log, es[0]);
      if Accepted(env, |log|) {
        UntilFailureAllRecorded(env, next, es[1..]);
        UntilFailureExtends(env, next, es[1..]);
        var r := EmitUntilFailure(env, next, es[1..]);
        assert r[..|next|][|log|] == next[|log|];
      } else {
        assert !next[|log|].ok;
      }
    }
  }

  /** What `recorded` means in terms of the log: the verdict and every piece of evidence are
      there, none refused. */
  lemma {:induction false} RecordedMeansInLog(env: Env, drained: seq<Attempt>, req: Request, ids: Ids, w: World)
    requires Verifies(req, w)
    ensures VerdictRecorded(env, drained, req) <==>
              var r := VerifiedLog(env, drained, req, ids, w);
              |r| == |drained| + |Specs(req)| + 1 && forall i :: |drained| <= i < |r| ==> r[i].ok
  {
    assert |VerdictEvents(req, ids, w)| == |Specs(req)| + 1;
    UntilFailureAllRecorded(env, drained, VerdictEvents(req, ids, w));
  }

  // ---- The lifecycle file ----

  /** Whatever calls that do not overlap the run's transitions reach the store before and after
      the terminal one, either it reported an error, which the response then carries as a warning,
      or the stored lifecycle is the run's own from then on. */
  lemma {:induction false} SerialStoreAgreesOrWarns(ss: State.Sessions, timeout: State.Time, before: seq<State.Call>,
                                              after: seq<State.Call>, req: Request, ids: Ids, w: World, success: bool)
    ensures var mid := State.Calls(AfterStart(ss, req, ids, w), timeout, before);
            EndOutcome(mid, req, ids, w, success).Ok? ==>
              State.LifecycleOf(State.Calls(AfterEnd(mid, req, ids, w, success), timeout, after), ids.session)
              == FinalLifecycle(success)
  {
    var mid := State.Calls(AfterStart(ss, req, ids, w), timeout, before);
    if EndOutcome(mid, req, ids, w, success).Ok? {
      var end := AfterEnd(mid, req, ids, w, success);
      assert State.LifecycleOf(end, ids.session) == FinalLifecycle(success);
      State.TerminalIsAbsorbing(end, timeout, after, ids.session);
    }
  }

  /** A fresh session, no failed write of its own, and other callers that leave it alone while the
      worker runs: no warning. */
  lemma {:induction false} UndisturbedRunDoesNotWarn(ss: State.Sessions, timeout: State.Time, req: Request, ids: Ids, w: World, success: bool)
    requires Generated(ids) && ids.session !in ss
    requires w.startWrite == State.Written && w.endWrite == State.Written
    requires State.LeaveAlone(AfterStart(ss, req, ids, w), timeout, w.meanwhile, ids.session)
    ensures EndOutcome(State.Calls(AfterStart(ss, req, ids, w), timeout, w.meanwhile), req, ids, w, success).Ok?
  {
    var started := AfterStart(ss, req, ids, w);
    assert State.LifecycleOf(started, ids.session) == State.Running;
    State.LeftAlone(started, timeout, w.meanwhile, ids.session);
  }

  /** A stale sweep between the two transitions makes a successful run warn and a failed one
      overwrite the blocked record. */
  lemma {:induction false} SweptRunWarnsIffSuccessful(ss: State.Sessions, timeout: State.Time, now: State.Time, order: seq<State.Id>,
                                                      req: Request, ids: Ids, w: World, success: bool)
    requires Generated(ids) && ids.session !in ss
    requires w.startWrite == State.Written && w.endWrite == State.Written
    requires State.Scan(AfterStart(ss, req, ids, w), timeout, now, order) == State.Stale(ids.session)
    ensures var swept := State.AfterSweep(AfterStart(ss, req, ids, w), timeout, now, order, State.Written);
            EndOutcome(swept, req, ids, w, success).Err? <==> success
  {
    State.ScanFinds(AfterStart(ss, req, ids, w), timeout, now, order);
  }

  // ---- The spawn-failure exit ----

  lemma {:induction false} ViewAfterAbort(f: seq<Attempt> -> View, env: Env, log: seq<Attempt>, req: Request, ids: Ids)
    requires Follows(f, env, ids) && Generated(ids) && Accepted(env, |log| + 1) && Accepted(env, |log| + 3)
    ensures f(EmitAll(env, req, log, AbortEvents(ids))) == View(Failed, Failed, FinalSession(env, |log| + 3, req, ids, false))
  {
    var a, b := Blank(AgentFailed, ids.run).(session := ids.session, status := Failed), WorkOutcome(ids, false);
    var l1 := Emit(env, log, Fill(req, a));
    var l2 := Emit(env, l1, Fill(req, b));
    EmitAllTwo(env, req, log, a, b);
    EmitAllAppend(env, req, log, [a, b], TerminalEvents(ids, false));
    WorkOutcomeWrites(req, ids, false);
    WorkWrite(f, env, l1, ids, Fill(req, b), Failed);
    TerminalEffect(f, env, l2, req, ids, false);
  }

  /** The ledger after either abort, once work_failed and agent_stopped are recorded: the run, its
      work and its session have ended as failed, but for a session that the request names. */
  lemma {:induction false} LedgerAfterAbort(h: Hash, root: string, t: Tables, env: Env, log: seq<Attempt>, req: Request, ids: Ids)
    requires Generated(ids) && Accepted(env, |log| + 1) && Accepted(env, |log| + 3)
    ensures ViewOf(TablesOf(h, root, t, EmitAll(env, req, log, AbortEvents(ids))), ids)
         == View(Failed, Failed, FinalSession(env, |log| + 3, req, ids, false))
  {
    var f := Reader(h, root, t, ids);
    TablesFollow(h, root, t, env, ids);
    ViewAfterAbort(f, env, log, req, ids);
    assert f(EmitAll(env, req, log, AbortEvents(ids))) == ViewOf(TablesOf(h, root, t, EmitAll(env, req, log, AbortEvents(ids))), ids);
  }

  /** On a spawn failure the file and the ledger part: the ledger says failed while the session
      file of a fresh session stays at running, exactly when its first write succeeded. */
  lemma {:induction false} SpawnFailureLeavesFileRunning(ss: State.Sessions, req: Request, ids: Ids, w: World)
    requires Generated(ids) && ids.session !in ss
    ensures State.LifecycleOf(AfterStart(ss, req, ids, w), ids.session) == State.Running
       <==> w.startWrite == State.Written
  {
  }
}
