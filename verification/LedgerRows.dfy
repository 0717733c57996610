/** What recording an event leaves in its rows, column by column, and the verification row of a run. */
module LedgerRows {
  import opened Ledger
  import opened Verification
  import opened RunPipeline
  import opened RunAgreement
  import State = SessionState

  // ---- One event ----

  /** The row of a verification says what its last event said. */
  lemma {:induction false} VerificationRowStatus(h: Hash, t: Tables, e: Event)
    requires IsVerification(e.typ)
    ensures var u := After(h, t, e);
            var id := if e.verification != "" then e.verification else h(VerificationKey(e.id));
            && id in u.verifications
            && (e.typ == VerificationStarted ==> u.verifications[id].status == Running)
            && (e.typ == VerificationPassed ==> u.verifications[id].status == Passed)
            && (e.typ == VerificationFailed ==> u.verifications[id].status == Failed)
            && (id !in t.verifications ==>
                  && u.verifications[id].run == e.run
                  && u.verifications[id].work == if e.work != "" then e.work else h(WorkForVerification(e.run)))
  {
  }

  /** The row of a tool call: a started call may carry the guard's decision. */
  lemma {:induction false} ToolCallRowStatus(h: Hash, t: Tables, e: Event)
    requires IsToolCall(e.typ)
    ensures var u := After(h, t, e);
            var id := if e.toolCall != "" then e.toolCall else h(ToolCallKey(e.id));
            && id in u.toolCalls
            && (e.typ == ToolCallCompleted ==> u.toolCalls[id].status == Completed)
            && (e.typ == ToolCallFailed ==> u.toolCalls[id].status == Failed)
            && (e.typ == ToolCallBlocked ==> u.toolCalls[id].status == Blocked)
            && (e.typ == ToolCallStarted ==>
                  u.toolCalls[id].status == if e.status in {Allowed, Blocked, Failed} then e.status else Started)
            && (id !in t.toolCalls ==>
                  u.toolCalls[id].run == e.run && u.toolCalls[id].work == e.work && u.toolCalls[id].session == e.session)
  {
    assert After(h, t, e).toolCalls == UpsertToolCall(h, t.toolCalls, e);
  }

  /** The event types that touch a work item, with the status each leaves. */
  const WORK_STATUS: map<EventType, Status> := map[
    WorkCreated := Ready,
    WorkStarted := Running, ToolCallStarted := Running, ToolCallCompleted := Running,
    WorkCompleted := Completed, VerificationPassed := Verified,
    WorkFailed := Failed, VerificationFailed := Failed, ToolCallFailed := Failed,
    ToolCallBlocked := Blocked]

  lemma {:induction false} WorkTypeTable(typ: EventType)
    ensures WorkStatus(typ) == if typ in WORK_STATUS then WORK_STATUS[typ] else NoStatus
  {
  }

  /** What the row of the event's work item says afterwards. */
  lemma {:induction false} WorkRowStatus(h: Hash, t: Tables, e: Event)
    requires e.work != ""
    ensures var u := After(h, t, e);
            && (WorkStatus(e.typ) != NoStatus ==> e.work in u.works && u.works[e.work].status == WorkStatus(e.typ))
            && (WorkStatus(e.typ) == NoStatus ==> u.works == t.works)
            && (WorkStatus(e.typ) != NoStatus && e.work !in t.works ==> u.works[e.work].run == e.run)
  {
    assert After(h, t, e).works == WorksAfter(h, t.works, e);
  }

  /** A session is stopped or crashed by its own events or by a failed status, and running otherwise;
      it keeps its work item until an event names another. */
  lemma {:induction false} SessionRowStatus(h: Hash, t: Tables, e: Event)
    requires e.session != ""
    ensures var u := After(h, t, e);
            && e.session in u.sessions
            && u.sessions[e.session].status
               == (if e.typ == AgentStopped then Stopped
                   else if e.typ == AgentFailed || (e.status == Failed && e.typ != AgentHeartbeat) then Crashed
                   else Running)
            && (e.work != "" ==> u.sessions[e.session].work == e.work)
            && (e.work == "" ==> u.sessions[e.session].work == if e.session in t.sessions then t.sessions[e.session].work else "")
            && (e.session !in t.sessions ==> u.sessions[e.session].run == e.run)
  {
    assert After(h, t, e).sessions == SessionsAfter(t.sessions, e);
  }

  /** The event types that set the status of a run when the event carries no lifecycle. */
  const RUN_STATUS: map<EventType, Status> := map[
    RunCreated := Scoped,
    AgentSpawned := Executing, WorkStarted := Executing, ToolCallStarted := Executing, ToolCallCompleted := Executing,
    WorkCompleted := Executing, VerificationStarted := Verifying, VerificationPassed := Completed,
    VerificationFailed := Failed, ToolCallFailed := Failed, WorkFailed := Failed, AgentFailed := Failed,
    ToolCallBlocked := Blocked]

  /** A lifecycle that an event carries overrides its type. */
  const LIFECYCLE_STATUS: map<State.Lifecycle, Status> := map[
    State.Inactive := Inactive, State.Running := Executing, State.Blocked := Blocked, State.AskUser := Blocked,
    State.Finished := Completed, State.Failed := Failed, State.Cancelled := Cancelled]

  lemma {:induction false} RunTypeTable(typ: EventType)
    ensures ProjectRun(NoLifecycle, typ) == if typ in RUN_STATUS then RUN_STATUS[typ] else NoStatus
  {
  }

  lemma {:induction false} RunLifecycleTable(l: State.Lifecycle, typ: EventType)
    ensures l in LIFECYCLE_STATUS && ProjectRun(Known(l), typ) == LIFECYCLE_STATUS[l]
  {
  }

  /** What the row of the event's run says afterwards: a new run without a status is scoped. */
  lemma {:induction false} RunRowStatus(h: Hash, t: Tables, e: Event)
    ensures var status := ProjectRun(e.lifecycle, e.typ);
            var u := After(h, t, e);
            && e.run in u.runs
            && (status != NoStatus ==> u.runs[e.run].status == status)
            && (status == NoStatus ==> u.runs[e.run].status == if e.run in t.runs then t.runs[e.run].status else Scoped)
            && (e.run !in t.runs ==> u.runs[e.run].repo == h(RepoKey(e.root)))
    ensures e.lifecycle.Unlisted? ==> ProjectRun(e.lifecycle, e.typ) == OtherStatus(e.lifecycle.word)
  {
    assert After(h, t, e).runs == UpsertRun(h, t.runs, e);
  }

  /** Evidence and diagnoses are written with the ids of their event. */
  lemma {:induction false} WrittenOnceRowIds(h: Hash, t: Tables, e: Event)
    ensures var u := After(h, t, e);
            var id := if e.evidence != "" then e.evidence else h(EvidenceKey(e.id));
            e.typ == EvidenceCreated && id !in t.evidence ==>
              id in u.evidence && u.evidence[id].run == e.run && u.evidence[id].work == e.work && u.evidence[id].session == e.session
    ensures var u := After(h, t, e);
            var id := h(DiagnosisKey(e.id));
            e.typ == FailureDiagnosed && id !in t.diagnoses ==>
              && id in u.diagnoses && u.diagnoses[id].run == e.run && u.diagnoses[id].session == e.session
              && u.diagnoses[id].verification == e.verification
              && u.diagnoses[id].work == if e.work != "" then e.work else h(WorkForFailure(e.run))
    ensures var u := After(h, t, e);
            e.id !in t.events ==>
              && e.id in u.events && u.events[e.id].run == e.run && u.events[e.id].typ == e.typ && u.events[e.id].work == e.work
              && u.events[e.id].session == e.session && u.events[e.id].evidence == e.evidence
              && u.events[e.id].toolCall == e.toolCall && u.events[e.id].verification == e.verification
  {
  }

  /** What an event leaves out: the run is the request's or derived, the id is derived, the project is
      the store's own; all else is as given. */
  lemma {:induction false} Defaults(h: Hash, root: string, e: Event)
    ensures var n := Normalise(h, root, e);
            && (e.run != "" ==> n.run == e.run)
            && (e.run == "" && e.request != "" ==> n.run == e.request)
            && (e.run == "" && e.request == "" ==> n.run == h(RunKey(e.typ, e.root, e.stamp)))
            && (e.id != "" ==> n.id == e.id)
            && (e.id == "" ==> n.id == h(EventKey(n.run, e.typ, e.request, e.stamp)))
            && (e.root != "" ==> n.root == e.root) && (e.root == "" ==> n.root == root)
            && n.typ == e.typ && n.work == e.work && n.session == e.session && n.evidence == e.evidence
            && n.toolCall == e.toolCall && n.verification == e.verification && n.status == e.status && n.lifecycle == e.lifecycle
  {
  }

  // ---- The verification row of a run ----

  function VerificationStatusOf(t: Tables, id: Id): Status {
    if id in t.verifications then t.verifications[id].status else NoStatus
  }

  lemma {:induction false} OtherEventsKeepVerifications(h: Hash, root: string, t: Tables, env: Env, log: seq<Attempt>, e: Event)
    requires !IsVerification(e.typ)
    ensures TablesOf(h, root, t, Emit(env, log, e)).verifications == TablesOf(h, root, t, log).verifications
  {
    EmitTables(h, root, t, env, log, e);
    RecordKeepsVerifications(h, root, TablesOf(h, root, t, log), Stamp(env, |log|, e));
  }

  lemma {:induction false} RecordKeepsVerifications(h: Hash, root: string, t: Tables, e: Event)
    requires !IsVerification(e.typ)
    ensures Record(h, root, t, e).verifications == t.verifications
  {
  }

  lemma {:induction false} SeriesKeepsVerifications(h: Hash, root: string, t: Tables, env: Env, req: Request, log: seq<Attempt>, es: seq<Event>)
    requires forall i :: 0 <= i < |es| ==> !IsVerification(es[i].typ)
    ensures TablesOf(h, root, t, EmitAll(env, req, log, es)).verifications == TablesOf(h, root, t, log).verifications
    decreases |es|
  {
    if es != [] {
      var n := |es| - 1;
      SeriesKeepsVerifications(h, root, t, env, req, log, es[..n]);
      OtherEventsKeepVerifications(h, root, t, env, EmitAll(env, req, log, es[..n]), Fill(req, es[n]));
    }
  }

  lemma {:induction false} EvidenceKeepsVerifications(h: Hash, root: string, t: Tables, env: Env, log: seq<Attempt>, es: seq<Event>)
    requires forall i :: 0 <= i < |es| ==> !IsVerification(es[i].typ)
    ensures TablesOf(h, root, t, EmitUntilFailure(env, log, es)).verifications == TablesOf(h, root, t, log).verifications
    decreases |es|
  {
    if es != [] {
      OtherEventsKeepVerifications(h, root, t, env, log, es[0]);
      if Accepted(env, |log|) {
        EvidenceKeepsVerifications(h, root, t, env, Emit(env, log, es[0]), es[1..]);
      }
    }
  }

  lemma {:induction false} VerdictWritten(h: Hash, root: string, t: Tables, e: Event)
    requires e.verification != "" && (e.typ == VerificationPassed || e.typ == VerificationFailed)
    ensures VerificationStatusOf(Record(h, root, t, e), e.verification) == if e.typ == VerificationPassed then Passed else Failed
  {
    VerificationRowStatus(h, t, Normalise(h, root, e));
  }

  lemma {:induction false} EmittedVerdict(h: Hash, root: string, t: Tables, env: Env, log: seq<Attempt>, e: Event)
    requires Accepted(env, |log|) && e.verification != "" && (e.typ == VerificationPassed || e.typ == VerificationFailed)
    ensures VerificationStatusOf(TablesOf(h, root, t, Emit(env, log, e)), e.verification)
         == if e.typ == VerificationPassed then Passed else Failed
  {
    var stamped := Stamp(env, |log|, e);
    assert stamped.typ == e.typ && stamped.verification == e.verification;
    EmitTables(h, root, t, env, log, e);
    VerdictWritten(h, root, TablesOf(h, root, t, log), stamped);
  }

  lemma {:induction false} VerdictRow(h: Hash, root: string, t: Tables, env: Env, log: seq<Attempt>, es: seq<Event>)
    requires Accepted(env, |log|) && es != [] && es[0].verification != ""
    requires es[0].typ == VerificationPassed || es[0].typ == VerificationFailed
    requires forall i :: 0 < i < |es| ==> !IsVerification(es[i].typ)
    ensures VerificationStatusOf(TablesOf(h, root, t, EmitUntilFailure(env, log, es)), es[0].verification)
         == if es[0].typ == VerificationPassed then Passed else Failed
  {
    EmittedVerdict(h, root, t, env, log, es[0]);
    EvidenceKeepsVerifications(h, root, t, env, Emit(env, log, es[0]), es[1..]);
  }

  lemma {:induction false} VerdictShape(req: Request, ids: Ids, w: World)
    ensures var es := VerdictEvents(req, ids, w);
            && es != [] && es[0].verification == ids.verification
            && es[0].typ == (if ChecksPass(req, w) then VerificationPassed else VerificationFailed)
            && forall i :: 0 < i < |es| ==> !IsVerification(es[i].typ)
  {
    BuiltPlanRunnable(Specs(req), req.cwd, w.runner);
    var plan := BuildPlan(Specs(req), req.cwd);
    VerificationReports(Options(req, ids), RequiredPass(plan, w.runner), Collect(plan, w.runner));
    VerdictReports(Options(req, ids), RequiredPass(plan, w.runner));
    forall i | 0 < i < |VerdictEvents(req, ids, w)| ensures !IsVerification(VerdictEvents(req, ids, w)[i].typ) {
      EvidenceReports(Options(req, ids), Collect(plan, w.runner)[i - 1]);
    }
  }

  lemma {:induction false} TerminalTypes(ids: Ids, success: bool)
    ensures forall i :: 0 <= i < |TerminalEvents(ids, success)| ==> !IsVerification(TerminalEvents(ids, success)[i].typ)
  {
  }

  lemma {:induction false} VerifiedRow(h: Hash, root: string, t: Tables, env: Env, drained: seq<Attempt>, req: Request, ids: Ids, w: World)
    requires Generated(ids) && Verifies(req, w) && Accepted(env, |drained|)
    ensures VerificationStatusOf(TablesOf(h, root, t, VerifiedLog(env, drained, req, ids, w)), ids.verification)
         == if ChecksPass(req, w) then Passed else Failed
  {
    VerdictShape(req, ids, w);
    VerdictRow(h, root, t, env, drained, VerdictEvents(req, ids, w));
  }

  lemma {:induction false} TerminalKeepsVerdict(h: Hash, root: string, t: Tables, env: Env, log: seq<Attempt>, req: Request, ids: Ids,
                                                success: bool, status: Status)
    requires VerificationStatusOf(TablesOf(h, root, t, log), ids.verification) == status
    ensures VerificationStatusOf(TablesOf(h, root, t, EmitAll(env, req, log, TerminalEvents(ids, success))), ids.verification) == status
  {
    TerminalTypes(ids, success);
    SeriesKeepsVerifications(h, root, t, env, req, log, TerminalEvents(ids, success));
  }

  /** The command of every check of the run passes. */
  ghost predicate EveryCommandPasses(req: Request, w: World) {
    forall i :: 0 <= i < |Specs(req)| ==>
      var r := w.runner(BuildCheck(Specs(req)[i], req.cwd, i)); !r.failed && r.exitCode == 0
  }

  lemma {:induction false} ChecksPassIff(req: Request, w: World)
    ensures ChecksPass(req, w) <==> EveryCommandPasses(req, w)
  {
    BuiltPlanRunnable(Specs(req), req.cwd, w.runner);
    assert forall i :: 0 <= i < |Specs(req)| ==>
      (Passes(w.runner, BuildCheck(Specs(req)[i], req.cwd, i)) <==>
         var r := w.runner(BuildCheck(Specs(req)[i], req.cwd, i)); !r.failed && r.exitCode == 0);
  }

  /** After a verified run whose verdict was recorded, the verification row says passed exactly when
      the command of every check exited with 0, and failed otherwise. */
  lemma {:induction false} RunVerificationRow(h: Hash, root: string, t: Tables, env: Env, log: seq<Attempt>, req: Request, ids: Ids, w: World)
    requires Generated(ids) && Verifies(req, w) && Accepted(env, |log| + |w.events| + 1)
    ensures VerificationStatusOf(TablesOf(h, root, t, CompletedLog(env, log, req, ids, w)), ids.verification)
         == if EveryCommandPasses(req, w) then Passed else Failed
  {
    var drained := DrainedLog(env, log, req, ids, w);
    var status := if EveryCommandPasses(req, w) then Passed else Failed;
    VerdictPosition(env, log, req, ids, w);
    ChecksPassIff(req, w);
    VerifiedRow(h, root, t, env, drained, req, ids, w);
    EndKeepsVerdict(h, root, t, env, log, req, ids, w, status);
  }

  lemma {:induction false} EndKeepsVerdict(h: Hash, root: string, t: Tables, env: Env, log: seq<Attempt>, req: Request, ids: Ids, w: World, status: Status)
    requires VerificationStatusOf(TablesOf(h, root, t, VerifiedLog(env, DrainedLog(env, log, req, ids, w), req, ids, w)), ids.verification) == status
    ensures VerificationStatusOf(TablesOf(h, root, t, CompletedLog(env, log, req, ids, w)), ids.verification) == status
  {
    TerminalKeepsVerdict(h, root, t, env, VerifiedLog(env, DrainedLog(env, log, req, ids, w), req, ids, w), req, ids,
                         Outcome(env, log, req, ids, w), status);
  }
}
