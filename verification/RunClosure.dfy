/** The schema over whole runs: from an empty ledger, every attempt of every exit of handleRun
    leaves a database in which each foreign key refers to a row that is present and each status
    satisfies its CHECK clause. */
module RunClosure {
  import opened Ledger
  import opened LedgerIntegrity
  import opened Verification
  import opened RunPipeline
  import opened RunAgreement

  /** The database, the sink and the ids of one run. */
  datatype Setting = Setting(h: Hash, root: string, env: Env, ids: Ids)

  function Database(s: Setting, log: seq<Attempt>): Tables {
    TablesOf(s.h, s.root, Empty, log)
  }

  /** The sink loses nothing. */
  ghost predicate Lossless(env: Env) {
    forall n: nat :: Accepted(env, n)
  }

  /** The payload names no work item, tool call, evidence or verification of its own. */
  predicate NamesNothing(req: Request) {
    req.namedWork == req.namedEvidence == req.namedToolCall == req.namedVerification == ""
  }

  /** Every state the database goes through while the log is written is closed. */
  ghost predicate ClosedThroughout(s: Setting, log: seq<Attempt>) {
    forall k :: 0 <= k <= |log| ==> Closed(Database(s, log[..k]))
  }

  /** The run's work item, and on request its verification, are in the database. */
  predicate Has(s: Setting, log: seq<Attempt>, verification: bool) {
    s.ids.work in Database(s, log).works && (verification ==> s.ids.verification in Database(s, log).verifications)
  }

  /** An event that names at most the run's own work item and verification. */
  predicate NamesOwn(ids: Ids, e: Event) {
    && e.evidence == "" && e.toolCall == ""
    && (e.work == "" || e.work == ids.work)
    && (e.verification == "" || e.verification == ids.verification)
    && (e.work == "" ==> !e.typ.VerificationStarted? && !e.typ.FailureDiagnosed?)
  }

  lemma {:induction false} OwnEventKeepsClosed(h: Hash, root: string, t: Tables, ids: Ids, e: Event)
    requires Closed(t) && NamesOwn(ids, e)
    requires e.work == "" || ids.work in t.works || WorkStatus(e.typ) != NoStatus
    requires e.verification == "" || ids.verification in t.verifications || IsVerification(e.typ)
    ensures var u := Record(h, root, t, e);
            && Closed(u)
            && (ids.work in t.works ==> ids.work in u.works)
            && (ids.verification in t.verifications ==> ids.verification in u.verifications)
  {
    var n := Normalise(h, root, e);
    assert Grounded(h, t, n);
    GroundedKeepsClosed(h, t, n);
    KeysGrow(h, t, n);
  }

  lemma {:induction false} EmitKeepsClosed(s: Setting, log: seq<Attempt>, e: Event)
    requires Lossless(s.env) && ClosedThroughout(s, log) && NamesOwn(s.ids, e)
    requires e.work == "" || s.ids.work in Database(s, log).works || WorkStatus(e.typ) != NoStatus
    requires e.verification == "" || s.ids.verification in Database(s, log).verifications || IsVerification(e.typ)
    ensures ClosedThroughout(s, Emit(s.env, log, e))
    ensures s.ids.work in Database(s, log).works ==> s.ids.work in Database(s, Emit(s.env, log, e)).works
    ensures s.ids.verification in Database(s, log).verifications ==>
              s.ids.verification in Database(s, Emit(s.env, log, e)).verifications
  {
    var next := Emit(s.env, log, e);
    assert Accepted(s.env, |log|);
    assert log[..|log|] == log;
    assert Closed(Database(s, log));
    EmitTables(s.h, s.root, Empty, s.env, log, e);
    OwnEventKeepsClosed(s.h, s.root, Database(s, log), s.ids, Stamp(s.env, |log|, e));
    ClosedSnoc(s, log, next[|log|]);
  }

  lemma {:induction false} ClosedSnoc(s: Setting, log: seq<Attempt>, a: Attempt)
    requires ClosedThroughout(s, log) && Closed(Database(s, log + [a]))
    ensures ClosedThroughout(s, log + [a])
  {
    var next := log + [a];
    forall k | 0 <= k <= |next| ensures Closed(Database(s, next[..k])) {
      if k <= |log| {
        assert next[..k] == log[..k];
      } else {
        assert next[..k] == next;
      }
    }
  }

  /** The event creates its work item. */
  lemma {:induction false} EmitCreatesWork(s: Setting, log: seq<Attempt>, e: Event)
    requires Lossless(s.env) && e.work == s.ids.work != "" && WorkStatus(e.typ) != NoStatus
    ensures s.ids.work in Database(s, Emit(s.env, log, e)).works
  {
    assert Accepted(s.env, |log|);
    EmitTables(s.h, s.root, Empty, s.env, log, e);
    var n := Normalise(s.h, s.root, Stamp(s.env, |log|, e));
    WorkPresence(s.h, Database(s, log).works, n);
  }

  /** The verdict creates its verification. */
  lemma {:induction false} EmitCreatesVerification(s: Setting, log: seq<Attempt>, e: Event)
    requires Lossless(s.env) && e.verification == s.ids.verification != "" && IsVerification(e.typ)
    ensures s.ids.verification in Database(s, Emit(s.env, log, e)).verifications
  {
    assert Accepted(s.env, |log|);
    EmitTables(s.h, s.root, Empty, s.env, log, e);
    var n := Normalise(s.h, s.root, Stamp(s.env, |log|, e));
    NamedPresence(s.h, Database(s, log), n);
  }

  /** An event template of the run that needs nothing but the run's own work item. */
  predicate Plain(ids: Ids, e: Event) {
    NamesOwn(ids, e) && e.verification == "" && e.run == ids.run
  }

  lemma {:induction false} FilledStaysOwn(req: Request, ids: Ids, e: Event)
    requires NamesNothing(req) && Plain(ids, e)
    ensures Plain(ids, Fill(req, e).(run := ids.run)) && Fill(req, e).typ == e.typ && Fill(req, e).work == e.work
    ensures NamesOwn(ids, Fill(req, e)) && Fill(req, e).verification == ""
  {
  }

  lemma {:induction false} PlainEventsKeepClosed(s: Setting, req: Request, log: seq<Attempt>, es: seq<Event>)
    requires Lossless(s.env) && NamesNothing(req) && ClosedThroughout(s, log) && s.ids.work in Database(s, log).works
    requires forall i :: 0 <= i < |es| ==> Plain(s.ids, es[i])
    ensures var r := EmitAll(s.env, req, log, es);
            ClosedThroughout(s, r) && s.ids.work in Database(s, r).works
    decreases |es|
  {
    if es != [] {
      var n := |es| - 1;
      PlainEventsKeepClosed(s, req, log, es[..n]);
      FilledStaysOwn(req, s.ids, es[n]);
      EmitKeepsClosed(s, EmitAll(s.env, req, log, es[..n]), Fill(req, es[n]));
    }
  }

  /** Closed at every step, with the run's work item in place at the end. */
  ghost predicate Sound(s: Setting, log: seq<Attempt>) {
    ClosedThroughout(s, log) && s.ids.work in Database(s, log).works
  }

  /** The first event of a run names no work item; the second one creates it. */
  lemma {:induction false} OpeningCloses(s: Setting, req: Request, a: Event, b: Event)
    requires Lossless(s.env) && NamesNothing(req) && s.ids.work != ""
    requires Plain(s.ids, a) && a.work == ""
    requires Plain(s.ids, b) && b.work == s.ids.work && WorkStatus(b.typ) != NoStatus
    ensures Sound(s, EmitAll(s.env, req, [], [a, b]))
  {
    FilledStaysOwn(req, s.ids, a);
    FilledStaysOwn(req, s.ids, b);
    assert ClosedThroughout(s, []);
    EmitAllTwo(s.env, req, [], a, b);
    EmitKeepsClosed(s, [], Fill(req, a));
    EmitKeepsClosed(s, Emit(s.env, [], Fill(req, a)), Fill(req, b));
    EmitCreatesWork(s, Emit(s.env, [], Fill(req, a)), Fill(req, b));
  }

  lemma {:induction false} PlainEventsKeepSound(s: Setting, req: Request, es: seq<Event>, more: seq<Event>)
    requires Lossless(s.env) && NamesNothing(req) && Sound(s, EmitAll(s.env, req, [], es))
    requires forall i :: 0 <= i < |more| ==> Plain(s.ids, more[i])
    ensures Sound(s, EmitAll(s.env, req, [], es + more))
  {
    EmitAllAppend(s.env, req, [], es, more);
    PlainEventsKeepClosed(s, req, EmitAll(s.env, req, [], es), more);
  }

  lemma {:induction false} OpeningThreeClose(s: Setting, req: Request, a: Event, b: Event, c: Event)
    requires Lossless(s.env) && NamesNothing(req) && s.ids.work != ""
    requires Plain(s.ids, a) && a.work == ""
    requires Plain(s.ids, b) && b.work == s.ids.work && WorkStatus(b.typ) != NoStatus
    requires Plain(s.ids, c)
    ensures Sound(s, EmitAll(s.env, req, [], [a, b] + [c]))
  {
    OpeningCloses(s, req, a, b);
    PlainEventsKeepSound(s, req, [a, b], [c]);
  }

  lemma {:induction false} CreationParts(ids: Ids) returns (a: Event, b: Event, c: Event)
    ensures CreationEvents(ids) == [a, b] + [c] && Plain(ids, a) && Plain(ids, b) && Plain(ids, c)
    ensures a.work == "" && b.work == ids.work && WorkStatus(b.typ) != NoStatus
  {
    a, b, c := CreationEvents(ids)[0], CreationEvents(ids)[1], CreationEvents(ids)[2];
  }

  /** run_created, work_created, agent_spawned on an empty database. */
  lemma {:induction false} CreationCloses(s: Setting, req: Request)
    requires Lossless(s.env) && NamesNothing(req) && Generated(s.ids)
    ensures Sound(s, EmitAll(s.env, req, [], CreationEvents(s.ids)))
  {
    var a, b, c := CreationParts(s.ids);
    OpeningThreeClose(s, req, a, b, c);
  }

  lemma {:induction false} LaunchEventsArePlain(ids: Ids)
    requires Generated(ids)
    ensures forall i :: 0 <= i < |StartEvents(ids)| ==> Plain(ids, StartEvents(ids)[i])
    ensures forall i :: 0 <= i < |AbortEvents(ids)| ==> Plain(ids, AbortEvents(ids)[i])
  {
  }

  lemma {:induction false} StreamEventsArePlain(ids: Ids, evts: seq<WorkerEvent>, ok: bool)
    requires Generated(ids)
    ensures var es := StreamEvents(evts, ids) + [WorkOutcome(ids, ok)]; forall i :: 0 <= i < |es| ==> Plain(ids, es[i])
  {
  }

  lemma {:induction false} TerminalEventsArePlain(ids: Ids, success: bool)
    requires Generated(ids)
    ensures forall i :: 0 <= i < |TerminalEvents(ids, success)| ==> Plain(ids, TerminalEvents(ids, success)[i])
  {
  }

  /** Both aborts and the start of a committed run keep the database closed at every step. */
  lemma {:induction false} PreWorkerKeepsClosed(s: Setting, req: Request, w: World)
    requires Lossless(s.env) && NamesNothing(req) && Generated(s.ids) && Accepts(req, w)
    ensures Sound(s, EmitAll(s.env, req, [], PreWorkerEvents(req, s.ids, w)))
  {
    var created, start, abort := CreationEvents(s.ids), StartEvents(s.ids), AbortEvents(s.ids);
    CreationCloses(s, req);
    LaunchEventsArePlain(s.ids);
    if !w.factoryOk {
      PlainEventsKeepSound(s, req, created, abort);
    } else {
      PlainEventsKeepSound(s, req, created, start);
      if !w.spawnOk {
        PlainEventsKeepSound(s, req, created + start, abort);
      }
    }
  }

  lemma {:induction false} OwnEventsKeepClosed(s: Setting, log: seq<Attempt>, es: seq<Event>)
    requires Lossless(s.env) && ClosedThroughout(s, log) && Has(s, log, true)
    requires forall i :: 0 <= i < |es| ==> NamesOwn(s.ids, es[i])
    ensures var r := EmitUntilFailure(s.env, log, es);
            ClosedThroughout(s, r) && s.ids.work in Database(s, r).works
    decreases |es|
  {
    if es != [] {
      assert Accepted(s.env, |log|);
      EmitKeepsClosed(s, log, es[0]);
      OwnEventsKeepClosed(s, Emit(s.env, log, es[0]), es[1..]);
    }
  }

  /** A verdict creates its verification, to which the events after it may refer. */
  lemma {:induction false} VerdictKeepsClosed(s: Setting, log: seq<Attempt>, es: seq<Event>)
    requires Lossless(s.env) && ClosedThroughout(s, log) && s.ids.work in Database(s, log).works
    requires es != [] && IsVerification(es[0].typ) && es[0].verification == s.ids.verification != ""
    requires forall i :: 0 <= i < |es| ==> NamesOwn(s.ids, es[i])
    ensures var r := EmitUntilFailure(s.env, log, es);
            ClosedThroughout(s, r) && s.ids.work in Database(s, r).works
  {
    assert Accepted(s.env, |log|);
    EmitKeepsClosed(s, log, es[0]);
    EmitCreatesVerification(s, log, es[0]);
    OwnEventsKeepClosed(s, Emit(s.env, log, es[0]), es[1..]);
  }

  lemma {:induction false} VerificationNamesOwn(ids: Ids, o: PlanOptions, passed: bool, evidence: seq<CheckEvidence>)
    requires o.work == ids.work != "" && o.verification == ids.verification
    ensures var es := VerificationEvents(o, passed, evidence);
            && es != [] && IsVerification(es[0].typ) && es[0].verification == ids.verification
            && forall i :: 0 <= i < |es| ==> NamesOwn(ids, es[i])
  {
  }

  lemma {:induction false} VerificationKeepsClosed(s: Setting, log: seq<Attempt>, o: PlanOptions, passed: bool, evidence: seq<CheckEvidence>)
    requires Lossless(s.env) && ClosedThroughout(s, log) && s.ids.work in Database(s, log).works && Generated(s.ids)
    requires o.work == s.ids.work && o.verification == s.ids.verification
    ensures var r := EmitUntilFailure(s.env, log, VerificationEvents(o, passed, evidence));
            ClosedThroughout(s, r) && s.ids.work in Database(s, r).works
  {
    VerificationNamesOwn(s.ids, o, passed, evidence);
    VerdictKeepsClosed(s, log, VerificationEvents(o, passed, evidence));
  }

  /** The committed run, from whatever closed log its first phase left, keeps it closed at every step. */
  lemma {:induction false} CommittedRunKeepsClosed(s: Setting, req: Request, w: World, log: seq<Attempt>)
    requires Lossless(s.env) && NamesNothing(req) && Generated(s.ids)
    requires ClosedThroughout(s, log) && s.ids.work in Database(s, log).works
    ensures ClosedThroughout(s, CompletedLog(s.env, log, req, s.ids, w))
  {
    var success := Outcome(s.env, log, req, s.ids, w);
    StreamEventsArePlain(s.ids, w.events, WorkerOk(w));
    TerminalEventsArePlain(s.ids, success);
    PlainEventsKeepClosed(s, req, log, StreamEvents(w.events, s.ids) + [WorkOutcome(s.ids, WorkerOk(w))]);
    var drained := DrainedLog(s.env, log, req, s.ids, w);
    if Verifies(req, w) {
      BuiltPlanRunnable(Specs(req), req.cwd, w.runner);
      var plan := BuildPlan(Specs(req), req.cwd);
      VerificationKeepsClosed(s, drained, Options(req, s.ids), RequiredPass(plan, w.runner), Collect(plan, w.runner));
    }
    PlainEventsKeepClosed(s, req, VerifiedLog(s.env, drained, req, s.ids, w), TerminalEvents(s.ids, success));
  }

  /** All three exits of a run that got its ids: factory error, spawn error and completion. */
  lemma {:induction false} EveryExitKeepsClosed(s: Setting, req: Request, w: World)
    requires Lossless(s.env) && NamesNothing(req) && Generated(s.ids) && Accepts(req, w)
    ensures var pre := EmitAll(s.env, req, [], PreWorkerEvents(req, s.ids, w));
            ClosedThroughout(s, if w.factoryOk && w.spawnOk then CompletedLog(s.env, pre, req, s.ids, w) else pre)
  {
    PreWorkerKeepsClosed(s, req, w);
    if w.factoryOk && w.spawnOk {
      CommittedRunKeepsClosed(s, req, w, EmitAll(s.env, req, [], PreWorkerEvents(req, s.ids, w)));
    }
  }

  /** The condition is needed: a payload that names an id of its own makes the very first event of
      the run refer to a row that does not exist. */
  lemma {:induction false} NamedIdDangles(h: Hash, root: string, req: Request, e: Event)
    requires !NamesNothing(req) && e.typ == RunCreated
    requires e.work == req.namedWork && e.evidence == req.namedEvidence && e.toolCall == req.namedToolCall
    requires e.verification == req.namedVerification
    ensures !Closed(Record(h, root, Empty, e))
  {
    var n := Normalise(h, root, e);
    assert n.typ == RunCreated && n.work == e.work && n.evidence == e.evidence && n.toolCall == e.toolCall
        && n.verification == e.verification;
    assert !NamesGrounded(Empty, n);
    NewEventKeepsClosedIff(h, Empty, n);
  }

  lemma {:induction false} FirstEventDangles(s: Setting, req: Request)
    requires Lossless(s.env) && !NamesNothing(req)
    ensures !Closed(Database(s, Emit(s.env, [], Fill(req, CreationEvents(s.ids)[0]))))
  {
    var e := Fill(req, CreationEvents(s.ids)[0]);
    assert Accepted(s.env, 0);
    EmitTables(s.h, s.root, Empty, s.env, [], e);
    NamedIdDangles(s.h, s.root, req, Stamp(s.env, 0, e));
  }

  lemma {:induction false} EmitAllExtends(env: Env, req: Request, log: seq<Attempt>, es: seq<Event>)
    ensures var r := EmitAll(env, req, log, es); |r| >= |log| && r[..|log|] == log
    decreases |es|
  {
    if es != [] {
      EmitAllExtends(env, req, log, es[..|es| - 1]);
    }
  }

  lemma {:induction false} CompletedLogExtends(env: Env, log: seq<Attempt>, req: Request, ids: Ids, w: World)
    ensures var r := CompletedLog(env, log, req, ids, w); |r| >= |log| && r[..|log|] == log
  {
    var drained := DrainedLog(env, log, req, ids, w);
    var verified := VerifiedLog(env, drained, req, ids, w);
    EmitAllExtends(env, req, log, StreamEvents(w.events, ids) + [WorkOutcome(ids, WorkerOk(w))]);
    UntilFailureExtends(env, drained, VerdictEvents(req, ids, w));
    EmitAllExtends(env, req, verified, TerminalEvents(ids, Outcome(env, log, req, ids, w)));
    Extends(log, drained, verified);
    Extends(log, verified, CompletedLog(env, log, req, ids, w));
  }

  lemma {:induction false} Extends<T>(a: seq<T>, b: seq<T>, c: seq<T>)
    requires |a| <= |b| <= |c| && b[..|a|] == a && c[..|b|] == b
    ensures c[..|a|] == a
  {
    assert c[..|a|] == c[..|b|][..|a|];
  }

  /** The log of a run, on whichever exit it takes. */
  function ExitLog(env: Env, req: Request, ids: Ids, w: World): seq<Attempt> {
    var pre := EmitAll(env, req, [], PreWorkerEvents(req, ids, w));
    if Accepts(req, w) && w.factoryOk && w.spawnOk then CompletedLog(env, pre, req, ids, w) else pre
  }

  lemma {:induction false} FirstOfSeries(env: Env, req: Request, es: seq<Event>)
    requires es != []
    ensures var r := EmitAll(env, req, [], es); |r| >= 1 && r[..1] == Emit(env, [], Fill(req, es[0]))
  {
    var first := EmitAll(env, req, [], [es[0]]);
    EmitAllOne(env, req, [], es[0]);
    assert es == [es[0]] + es[1..];
    EmitAllAppend(env, req, [], [es[0]], es[1..]);
    EmitAllExtends(env, req, first, es[1..]);
  }

  lemma {:induction false} FirstAttempt(env: Env, req: Request, ids: Ids, w: World)
    requires Accepts(req, w)
    ensures var r := ExitLog(env, req, ids, w);
            |r| >= 1 && r[..1] == Emit(env, [], Fill(req, CreationEvents(ids)[0]))
  {
    var es := PreWorkerEvents(req, ids, w);
    var pre := EmitAll(env, req, [], es);
    assert es[0] == CreationEvents(ids)[0];
    FirstOfSeries(env, req, es);
    if w.factoryOk && w.spawnOk {
      CompletedLogExtends(env, pre, req, ids, w);
      Extends(pre[..1], pre, CompletedLog(env, pre, req, ids, w));
    }
  }

  /** From an empty ledger and with nothing lost, every state along every exit of a run is closed
      exactly when the payload names no work item, tool call, evidence or verification. */
  lemma {:induction false} RunClosedIff(s: Setting, req: Request, w: World)
    requires Lossless(s.env) && Generated(s.ids) && Accepts(req, w)
    ensures ClosedThroughout(s, ExitLog(s.env, req, s.ids, w)) <==> NamesNothing(req)
  {
    if NamesNothing(req) {
      EveryExitKeepsClosed(s, req, w);
    } else {
      var r := ExitLog(s.env, req, s.ids, w);
      FirstAttempt(s.env, req, s.ids, w);
      FirstEventDangles(s, req);
      assert !Closed(Database(s, r[..1]));
    }
  }

  // ---- What every attempt of a run has in common ----

  /** An event of the run that carries no id of its own and, if it carries a lifecycle, one that
      stands for a run status. */
  predicate OwnEvent(ids: Ids, e: Event) {
    e.id == "" && e.run == ids.run && Admitted(e.lifecycle)
  }

  ghost predicate OwnAttempts(ids: Ids, log: seq<Attempt>) {
    forall i :: 0 <= i < |log| ==> OwnEvent(ids, log[i].event)
  }

  ghost predicate OwnTemplates(ids: Ids, es: seq<Event>) {
    forall i :: 0 <= i < |es| ==> OwnEvent(ids, es[i])
  }

  lemma {:induction false} EmitOwn(env: Env, ids: Ids, log: seq<Attempt>, e: Event)
    requires OwnAttempts(ids, log) && OwnEvent(ids, e)
    ensures OwnAttempts(ids, Emit(env, log, e))
  {
    assert OwnEvent(ids, Stamp(env, |log|, e));
  }

  lemma {:induction false} FillOwn(req: Request, ids: Ids, e: Event)
    requires Generated(ids) && OwnEvent(ids, e)
    ensures OwnEvent(ids, Fill(req, e))
  {
  }

  lemma {:induction false} EmitAllOwn(env: Env, req: Request, ids: Ids, log: seq<Attempt>, es: seq<Event>)
    requires Generated(ids) && OwnAttempts(ids, log) && OwnTemplates(ids, es)
    ensures OwnAttempts(ids, EmitAll(env, req, log, es))
    decreases |es|
  {
    if es != [] {
      var n := |es| - 1;
      EmitAllOwn(env, req, ids, log, es[..n]);
      FillOwn(req, ids, es[n]);
      EmitOwn(env, ids, EmitAll(env, req, log, es[..n]), Fill(req, es[n]));
    }
  }

  lemma {:induction false} UntilFailureOwn(env: Env, ids: Ids, log: seq<Attempt>, es: seq<Event>)
    requires OwnAttempts(ids, log) && OwnTemplates(ids, es)
    ensures OwnAttempts(ids, EmitUntilFailure(env, log, es))
    decreases |es|
  {
    if es != [] {
      EmitOwn(env, ids, log, es[0]);
      if Accepted(env, |log|) {
        UntilFailureOwn(env, ids, Emit(env, log, es[0]), es[1..]);
      }
    }
  }

  lemma {:induction false} LaunchOwn(ids: Ids)
    ensures OwnTemplates(ids, CreationEvents(ids)) && OwnTemplates(ids, StartEvents(ids))
  {
  }

  lemma {:induction false} AbortOwn(ids: Ids)
    ensures OwnTemplates(ids, AbortEvents(ids))
  {
  }

  lemma {:induction false} FirstPhaseOwn(env: Env, req: Request, ids: Ids, w: World)
    requires Generated(ids)
    ensures OwnAttempts(ids, EmitAll(env, req, [], PreWorkerEvents(req, ids, w)))
  {
    LaunchOwn(ids);
    AbortOwn(ids);
    EmitAllOwn(env, req, ids, [], PreWorkerEvents(req, ids, w));
  }

  lemma {:induction false} StreamOwn(ids: Ids, evts: seq<WorkerEvent>, ok: bool)
    ensures OwnTemplates(ids, StreamEvents(evts, ids) + [WorkOutcome(ids, ok)])
  {
  }

  lemma {:induction false} TerminalOwn(ids: Ids, success: bool)
    ensures OwnTemplates(ids, TerminalEvents(ids, success))
  {
  }

  lemma {:induction false} VerdictOwn(req: Request, ids: Ids, w: World)
    ensures OwnTemplates(ids, VerdictEvents(req, ids, w))
  {
  }

  lemma {:induction false} SecondPhaseOwn(env: Env, log: seq<Attempt>, req: Request, ids: Ids, w: World)
    requires Generated(ids) && OwnAttempts(ids, log)
    ensures OwnAttempts(ids, CompletedLog(env, log, req, ids, w))
  {
    var success := Outcome(env, log, req, ids, w);
    var drained := DrainedLog(env, log, req, ids, w);
    StreamOwn(ids, w.events, WorkerOk(w));
    EmitAllOwn(env, req, ids, log, StreamEvents(w.events, ids) + [WorkOutcome(ids, WorkerOk(w))]);
    VerdictOwn(req, ids, w);
    UntilFailureOwn(env, ids, drained, VerdictEvents(req, ids, w));
    TerminalOwn(ids, success);
    EmitAllOwn(env, req, ids, VerifiedLog(env, drained, req, ids, w), TerminalEvents(ids, success));
  }

  lemma {:induction false} ExitLogOwn(env: Env, req: Request, ids: Ids, w: World)
    requires Generated(ids)
    ensures OwnAttempts(ids, ExitLog(env, req, ids, w))
  {
    FirstPhaseOwn(env, req, ids, w);
    SecondPhaseOwn(env, EmitAll(env, req, [], PreWorkerEvents(req, ids, w)), req, ids, w);
  }

  // ---- The status CHECK clauses over whole runs ----

  lemma {:induction false} LeadsKeepsChecked(h: Hash, root: string, a: Attempt, before: Tables, after: Tables)
    requires Leads(h, root, a, before, after) && Checked(before) && Admitted(a.event.lifecycle)
    ensures Checked(after)
  {
    if a.ok {
      var e := Normalise(h, root, a.event);
      assert e.lifecycle == a.event.lifecycle;
      RecordKeepsCheckedIff(h, before, e);
    }
  }

  lemma {:induction false} StagesStayChecked(h: Hash, root: string, ids: Ids, log: seq<Attempt>, stages: seq<Tables>, i: nat)
    requires Staged(h, root, log, stages) && Checked(stages[0]) && OwnAttempts(ids, log) && i <= |log|
    ensures Checked(stages[i])
  {
    if i > 0 {
      StagesStayChecked(h, root, ids, log, stages, i - 1);
      assert Leads(h, root, log[i - 1], stages[i - 1], stages[i - 1 + 1]);
      assert OwnEvent(ids, log[i - 1].event);
      LeadsKeepsChecked(h, root, log[i - 1], stages[i - 1], stages[i]);
    }
  }

  lemma {:induction false} OwnAttemptsKeepChecked(h: Hash, root: string, t: Tables, ids: Ids, log: seq<Attempt>, k: nat)
    requires Checked(t) && OwnAttempts(ids, log) && k <= |log|
    ensures Checked(TablesOf(h, root, t, log[..k]))
  {
    var stages := Stages(h, root, t, log[..k]);
    StagesStayChecked(h, root, ids, log[..k], stages, k);
  }

  /** Whatever records are lost, every state of the database along every exit of a run satisfies the
      status CHECK clauses, if it did before the run. */
  lemma {:induction false} EveryExitKeepsChecked(h: Hash, root: string, t: Tables, env: Env, req: Request, ids: Ids, w: World, k: nat)
    requires Checked(t) && Generated(ids) && k <= |ExitLog(env, req, ids, w)|
    ensures Checked(TablesOf(h, root, t, ExitLog(env, req, ids, w)[..k]))
  {
    ExitLogOwn(env, req, ids, w);
    OwnAttemptsKeepChecked(h, root, t, ids, ExitLog(env, req, ids, w), k);
  }
}
