/** The two-phase run protocol of internal/orchestrator/phases.go and run.go. The worker, the
    command runner, the sink and the file writes are parameters that may fail at any point. */
module RunPipeline {
  import opened Wrappers
  import opened Text
  import opened Ledger
  import opened Verification
  import State = SessionState

  // ---- Requests and the outside world ----

  datatype Request = Request(requestId: Id, session: Id, project: string, cwd: string, goal: string,
                             namedRun: Id, namedWork: Id, namedSession: Id, namedEvidence: Id, namedToolCall: Id,
                             namedVerification: Id, checks: ChecksField)

  /** The generated ids. */
  datatype Ids = Ids(run: Id, work: Id, session: Id, verification: Id)

  predicate Generated(ids: Ids) {
    ids.run != "" && ids.work != "" && ids.session != "" && ids.verification != ""
  }

  datatype WorkerKind = ToolExecutionStart | ToolExecutionEnd | OtherKind(name: string)
  datatype WorkerEvent = WorkerEvent(kind: WorkerKind, stamp: string)
  datatype WorkerResult = WorkerResult(success: bool, reason: string)

  /** Everything a run depends on besides its request; `meanwhile` is what other callers do to the
      state store while the worker runs. */
  datatype World = World(configOk: bool, hasFactory: bool, factoryOk: bool, spawnOk: bool,
                         events: seq<WorkerEvent>, waitFailed: bool, result: WorkerResult, runner: Runner,
                         owner: Id, wallClock: State.Time, startTime: State.Time, startWrite: State.Write,
                         meanwhile: seq<State.Call>, endTime: State.Time, endWrite: State.Write)

  /** recordStorageEvent's defaults. */
  function Fill(req: Request, e: Event): Event {
    e.(run := FirstNonEmpty(e.run, FirstNonEmpty(req.namedRun, req.requestId)),
       work := FirstNonEmpty(e.work, req.namedWork),
       session := FirstNonEmpty(e.session, NamedSession(req)),
       evidence := FirstNonEmpty(e.evidence, req.namedEvidence),
       toolCall := FirstNonEmpty(e.toolCall, req.namedToolCall),
       verification := FirstNonEmpty(e.verification, req.namedVerification),
       request := FirstNonEmpty(e.request, req.requestId),
       root := FirstNonEmpty(e.root, req.project))
  }

  /** The session that the request itself names. */
  function NamedSession(req: Request): Id {
    FirstNonEmpty(req.session, req.namedSession)
  }

  /** The attempt log after emitting several events one after the other. */
  function EmitAll(env: Env, req: Request, log: seq<Attempt>, es: seq<Event>): (r: seq<Attempt>)
    ensures |r| == |log| + |es|
    decreases |es|
  {
    if es == [] then log
    else Emit(env, EmitAll(env, req, log, es[..|es| - 1]), Fill(req, es[|es| - 1]))
  }

  lemma {:induction false} EmitAllAppend(env: Env, req: Request, log: seq<Attempt>, a: seq<Event>, b: seq<Event>)
    ensures EmitAll(env, req, log, a + b) == EmitAll(env, req, EmitAll(env, req, log, a), b)
    decreases |b|
  {
    if b == [] {
      assert a + b == a;
    } else {
      var n := |b| - 1;
      assert (a + b)[..|a + b| - 1] == a + b[..n];
      EmitAllAppend(env, req, log, a, b[..n]);
    }
  }

  lemma {:induction false} EmitAllSnoc(env: Env, req: Request, log: seq<Attempt>, es: seq<Event>, e: Event)
    ensures EmitAll(env, req, log, es + [e]) == Emit(env, EmitAll(env, req, log, es), Fill(req, e))
  {
    assert (es + [e])[..|es|] == es;
  }

  lemma {:induction false} OneMore<T>(xs: seq<T>, i: nat)
    requires i < |xs|
    ensures xs[..i] + [xs[i]] == xs[..i + 1]
    ensures i + 1 == |xs| ==> xs[..i + 1] == xs
  {
  }

  // ---- The events a run emits ----

  function CreationEvents(ids: Ids): seq<Event> {
    [ Blank(RunCreated, ids.run).(status := Created),
      Blank(WorkCreated, ids.run).(work := ids.work, status := Ready),
      Blank(AgentSpawned, ids.run).(work := ids.work, session := ids.session, status := Spawning) ]
  }

  function StartEvents(ids: Ids): seq<Event> {
    [ Blank(RunStatusChanged, ids.run).(session := ids.session, status := Executing, lifecycle := Known(State.Running)),
      Blank(WorkStarted, ids.run).(work := ids.work, status := Running) ]
  }

  function WorkOutcome(ids: Ids, workerOk: bool): Event {
    Blank(if workerOk then WorkCompleted else WorkFailed, ids.run)
      .(work := ids.work, status := if workerOk then Completed else Failed)
  }

  function FinalLifecycle(success: bool): State.Lifecycle {
    if success then State.Finished else State.Failed
  }

  function RunEnded(ids: Ids, success: bool): Event {
    Blank(RunStatusChanged, ids.run)
      .(session := ids.session, status := if success then Completed else Failed,
        lifecycle := Known(FinalLifecycle(success)))
  }

  function AgentEnded(ids: Ids, success: bool): Event {
    Blank(AgentStopped, ids.run)
      .(session := ids.session, status := if success then Completed else Failed,
        lifecycle := Known(FinalLifecycle(success)))
  }

  function Diagnosis(ids: Ids): Event {
    Blank(FailureDiagnosed, ids.run).(work := ids.work, status := Diagnosed)
  }

  function TerminalEvents(ids: Ids, success: bool): seq<Event> {
    [RunEnded(ids, success), AgentEnded(ids, success)] + if success then [] else [Diagnosis(ids)]
  }

  /** The exit shared by a factory error and a spawn error: agent_failed, then recordRunFailure. */
  function AbortEvents(ids: Ids): seq<Event> {
    [Blank(AgentFailed, ids.run).(session := ids.session, status := Failed), WorkOutcome(ids, false)]
    + TerminalEvents(ids, false)
  }

  function WorkerEventToStorage(evt: WorkerEvent, ids: Ids): Event {
    var base := Blank(AgentHeartbeat, ids.run).(work := ids.work, session := ids.session, stamp := evt.stamp);
    match evt.kind
    case ToolExecutionStart => base.(typ := ToolCallStarted, status := Started)
    case ToolExecutionEnd => base.(typ := ToolCallCompleted, status := Completed)
    case OtherKind(_) => base.(status := Running)
  }

  function StreamEvents(evts: seq<WorkerEvent>, ids: Ids): (r: seq<Event>)
    ensures |r| == |evts|
  {
    seq(|evts|, i requires 0 <= i < |evts| => WorkerEventToStorage(evts[i], ids))
  }

  /** A goal that trimming leaves empty consists of spaces only. */
  lemma {:induction false} BlankIff(s: string)
    ensures TrimSpace(s) == "" <==> AllSpace(s)
  {
    var l, r := TrimShape(s);
    if TrimSpace(s) != "" {
      assert s[|l|] == TrimSpace(s)[0];
    }
  }

  // ---- What a run does, as functions of its inputs ----

  predicate Accepts(req: Request, w: World) {
    TrimSpace(req.goal) != "" && w.hasFactory && w.configOk
  }

  function PreWorkerEvents(req: Request, ids: Ids, w: World): seq<Event> {
    if !Accepts(req, w) then []
    else if !w.factoryOk then CreationEvents(ids) + AbortEvents(ids)
    else if !w.spawnOk then CreationEvents(ids) + StartEvents(ids) + AbortEvents(ids)
    else CreationEvents(ids) + StartEvents(ids)
  }

  predicate WorkerOk(w: World) {
    !w.waitFailed && w.result.success
  }

  function Specs(req: Request): seq<string> {
    ParseChecks(req.checks)
  }

  predicate ChecksPass(req: Request, w: World) {
    BuiltPlanRunnable(Specs(req), req.cwd, w.runner);
    RequiredPass(BuildPlan(Specs(req), req.cwd), w.runner)
  }

  predicate Verifies(req: Request, w: World) {
    WorkerOk(w) && Specs(req) != []
  }

  /** The run succeeds; `recorded` says whether the verification events reached the sink. */
  predicate Succeeds(req: Request, w: World, recorded: bool) {
    WorkerOk(w) && (Specs(req) == [] || (ChecksPass(req, w) && recorded))
  }

  function Options(req: Request, ids: Ids): PlanOptions {
    PlanOptions(ids.run, ids.work, ids.verification, req.project)
  }

  function VerdictEvents(req: Request, ids: Ids, w: World): seq<Event> {
    BuiltPlanRunnable(Specs(req), req.cwd, w.runner);
    var plan := BuildPlan(Specs(req), req.cwd);
    VerificationEvents(Options(req, ids), RequiredPass(plan, w.runner), Collect(plan, w.runner))
  }

  /** The log when the worker is done and its outcome has been recorded. */
  function DrainedLog(env: Env, log: seq<Attempt>, req: Request, ids: Ids, w: World): seq<Attempt> {
    EmitAll(env, req, log, StreamEvents(w.events, ids) + [WorkOutcome(ids, WorkerOk(w))])
  }

  predicate VerdictRecorded(env: Env, drained: seq<Attempt>, req: Request) {
    AllAccepted(env, |drained|, |Specs(req)| + 1)
  }

  function VerifiedLog(env: Env, drained: seq<Attempt>, req: Request, ids: Ids, w: World): seq<Attempt> {
    if Verifies(req, w) then EmitUntilFailure(env, drained, VerdictEvents(req, ids, w)) else drained
  }

  /** The log after runWithWorker. */
  function CompletedLog(env: Env, log: seq<Attempt>, req: Request, ids: Ids, w: World): seq<Attempt> {
    var drained := DrainedLog(env, log, req, ids, w);
    EmitAll(env, req, VerifiedLog(env, drained, req, ids, w),
            TerminalEvents(ids, Succeeds(req, w, VerdictRecorded(env, drained, req))))
  }

  function StartInput(req: Request, w: World): State.Input {
    State.Input(Some(State.Running), "run_execute", w.owner, req.requestId, "", None, None, w.startTime)
  }

  function EndInput(req: Request, w: World, success: bool): State.Input {
    State.Input(Some(FinalLifecycle(success)), "run_terminate", w.owner, req.requestId, "", None, None, w.endTime)
  }

  function StartOutcome(ss: State.Sessions, req: Request, ids: Ids, w: World): State.Outcome {
    State.TransitionOutcome(ss, ids.session, StartInput(req, w), w.wallClock, w.startWrite)
  }

  function AfterStart(ss: State.Sessions, req: Request, ids: Ids, w: World): State.Sessions {
    State.AfterTransition(ss, ids.session, StartInput(req, w), w.wallClock, w.startWrite)
  }

  function EndOutcome(ss: State.Sessions, req: Request, ids: Ids, w: World, success: bool): State.Outcome {
    State.TransitionOutcome(ss, ids.session, EndInput(req, w, success), w.wallClock, w.endWrite)
  }

  function AfterEnd(ss: State.Sessions, req: Request, ids: Ids, w: World, success: bool): State.Sessions {
    State.AfterTransition(ss, ids.session, EndInput(req, w, success), w.wallClock, w.endWrite)
  }

  // ---- Warnings and responses ----

  datatype Warning =
    | StorageEventNotRecorded
    | RunningTransitionSkipped
    | TerminalTransitionSkipped
    | VerificationExecutionError
    | RunFailed

  datatype ErrorClass = InvalidConfig | Unknown
  datatype Action = ActionNone | ActionWarn
  datatype Response = Response(ok: bool, action: Action, error: Option<ErrorClass>, warnings: seq<Warning>)

  /** The number of refused attempts among `count` consecutive ones. */
  function Refusals(env: Env, from: nat, count: nat): nat
    decreases count
  {
    if count == 0 then 0
    else Refusals(env, from, count - 1) + if Accepted(env, from + count - 1) then 0 else 1
  }

  /** No warning yet about the terminal transition or about the run as a whole. */
  predicate Unfinished(ws: seq<Warning>) {
    TerminalTransitionSkipped !in ws && RunFailed !in ws
  }

  /** Only storage warnings come or go. */
  predicate OthersKept(a: seq<Warning>, b: seq<Warning>) {
    && (RunningTransitionSkipped in a <==> RunningTransitionSkipped in b)
    && (TerminalTransitionSkipped in a <==> TerminalTransitionSkipped in b)
    && (VerificationExecutionError in a <==> VerificationExecutionError in b)
    && (RunFailed in a <==> RunFailed in b)
  }

  lemma {:induction false} OthersKeptTransitive(a: seq<Warning>, b: seq<Warning>, c: seq<Warning>)
    requires OthersKept(a, b) && OthersKept(b, c)
    ensures OthersKept(a, c)
  {
  }

  // ---- The pipeline ----

  class RunContext {
    const req: Request
    const ids: Ids
    const world: World
    const sink: Sink?
    const states: State.Store?

    var workerSuccess: bool
    var workerEventCount: nat
    var verifyResult: Option<bool>
    var success: bool
    var finalLifecycle: State.Lifecycle
    var warnings: seq<Warning>

    constructor (req: Request, ids: Ids, world: World, sink: Sink?, states: State.Store?)
      ensures this.req == req && this.ids == ids && this.world == world
      ensures this.sink == sink && this.states == states
      ensures warnings == [] && workerEventCount == 0 && verifyResult == None
    {
      this.req, this.ids, this.world, this.sink, this.states := req, ids, world, sink, states;
      workerSuccess, workerEventCount, verifyResult := false, 0, None;
      success, finalLifecycle, warnings := false, State.Inactive, [];
    }

    /** emit: record the event or keep a warning. */
    method Emit(e: Event)
      modifies this`warnings, sink
      ensures sink != null ==> sink.log == Ledger.Emit(sink.env, old(sink.log), Fill(req, e))
      ensures warnings == if sink == null || Accepted(sink.env, old(|sink.log|)) then old(warnings)
                          else old(warnings) + [StorageEventNotRecorded]
    {
      if sink != null {
        var ok := sink.Record(Fill(req, e));
        if !ok {
          warnings := warnings + [StorageEventNotRecorded];
        }
      }
    }

    /** One more event of a series. */
    method EmitNext(ghost start: seq<Attempt>, ghost done: seq<Event>, e: Event)
      requires sink != null ==> sink.log == EmitAll(sink.env, req, start, done)
      modifies this`warnings, sink
      ensures sink != null ==> sink.log == EmitAll(sink.env, req, start, done + [e])
      ensures warnings == if sink == null || Accepted(sink.env, |start| + |done|) then old(warnings)
                          else old(warnings) + [StorageEventNotRecorded]
      ensures |warnings| == |old(warnings)| +
                            if sink == null then 0
                            else Refusals(sink.env, |start|, |done| + 1) - Refusals(sink.env, |start|, |done|)
      ensures OthersKept(old(warnings), warnings)
    {
      if sink != null {
        EmitAllSnoc(sink.env, req, start, done, e);
      }
      Emit(e);
    }

    /** Emitting several events: each refused one adds a storage warning, and only those do. */
    method EmitEach(es: seq<Event>)
      modifies this`warnings, sink
      ensures sink != null ==> sink.log == EmitAll(sink.env, req, old(sink.log), es)
      ensures |warnings| == |old(warnings)| + if sink == null then 0 else Refusals(sink.env, old(|sink.log|), |es|)
      ensures OthersKept(old(warnings), warnings)
      decreases |es|
    {
      if es != [] {
        var n := |es| - 1;
        EmitEach(es[..n]);
        ghost var before := warnings;
        EmitNext(old(if sink == null then [] else sink.log), es[..n], es[n]);
        OthersKeptTransitive(old(warnings), before, warnings);
        OneMore(es, n);
      }
    }

    /** The common exit of a factory error and a spawn error. */
    method Abort(ghost start: seq<Attempt>, ghost before: seq<Event>)
      requires Unfinished(warnings)
      requires sink != null ==> sink.log == EmitAll(sink.env, req, start, before)
      modifies this`warnings, sink
      ensures Unfinished(warnings)
      ensures sink != null ==> sink.log == EmitAll(sink.env, req, start, before + AbortEvents(ids))
      ensures OthersKept(old(warnings), warnings)
    {
      EmitEach(AbortEvents(ids));
      if sink != null {
        EmitAllAppend(sink.env, req, start, before, AbortEvents(ids));
      }
    }

    method EmitStart(ghost start: seq<Attempt>)
      requires Unfinished(warnings)
      requires sink != null ==> sink.log == EmitAll(sink.env, req, start, CreationEvents(ids))
      modifies this`warnings, sink, states
      ensures Unfinished(warnings)
      ensures sink != null ==> sink.log == EmitAll(sink.env, req, start, CreationEvents(ids) + StartEvents(ids))
      ensures states != null ==> states.sessions == AfterStart(old(states.sessions), req, ids, world)
      ensures RunningTransitionSkipped in warnings <==>
                RunningTransitionSkipped in old(warnings) || (states != null && StartOutcome(old(states.sessions), req, ids, world).Err?)
      ensures VerificationExecutionError in warnings <==> VerificationExecutionError in old(warnings)
    {
      if states != null {
        var r := states.Transition(ids.session, StartInput(req, world), world.wallClock, world.startWrite);
        if r.Err? {
          warnings := warnings + [RunningTransitionSkipped];
        }
      }
      EmitEach(StartEvents(ids));
      if sink != null {
        EmitAllAppend(sink.env, req, start, CreationEvents(ids), StartEvents(ids));
      }
    }

    /** The factory, the running transition and Spawn, after the creation events. */
    method Launch(ghost start: seq<Attempt>) returns (bail: Option<ErrorClass>)
      requires Unfinished(warnings) && Accepts(req, world)
      requires sink != null ==> sink.log == EmitAll(sink.env, req, start, CreationEvents(ids))
      modifies this`warnings, sink, states
      ensures bail == if !world.factoryOk || !world.spawnOk then Some(Unknown) else None
      ensures sink != null ==> sink.log == EmitAll(sink.env, req, start, PreWorkerEvents(req, ids, world))
      ensures states != null ==>
                states.sessions == if world.factoryOk then AfterStart(old(states.sessions), req, ids, world)
                                   else old(states.sessions)
      ensures Unfinished(warnings)
      ensures RunningTransitionSkipped in warnings <==>
                RunningTransitionSkipped in old(warnings) || (world.factoryOk && states != null && StartOutcome(old(states.sessions), req, ids, world).Err?)
      ensures VerificationExecutionError in warnings <==> VerificationExecutionError in old(warnings)
    {
      if !world.factoryOk {
        Abort(start, CreationEvents(ids));
        return Some(Unknown);
      }
      EmitStart(start);
      if !world.spawnOk {
        Abort(start, CreationEvents(ids) + StartEvents(ids));
        return Some(Unknown);
      }
      bail := None;
    }

    /** preWorker: it may bail out on its input, on the factory or on Spawn. */
    method PreWorker() returns (bail: Option<ErrorClass>)
      requires Unfinished(warnings)
      modifies this`warnings, sink, states
      ensures bail == if !Accepts(req, world) then Some(InvalidConfig)
                      else if !world.factoryOk || !world.spawnOk then Some(Unknown)
                      else None
      ensures sink != null ==> sink.log == EmitAll(sink.env, req, old(sink.log), PreWorkerEvents(req, ids, world))
      ensures states != null ==>
                states.sessions == if Accepts(req, world) && world.factoryOk then AfterStart(old(states.sessions), req, ids, world)
                                   else old(states.sessions)
      ensures Unfinished(warnings)
      ensures RunningTransitionSkipped in warnings <==>
                RunningTransitionSkipped in old(warnings) || (Accepts(req, world) && world.factoryOk && states != null && StartOutcome(old(states.sessions), req, ids, world).Err?)
      ensures VerificationExecutionError in warnings <==> VerificationExecutionError in old(warnings)
    {
      if TrimSpace(req.goal) == "" || !world.hasFactory || !world.configOk {
        return Some(InvalidConfig);
      }
      ghost var start := if sink != null then sink.log else [];
      EmitEach(CreationEvents(ids));
      bail := Launch(start);
    }

    /** The worker's stream: one ledger event per worker event. */
    method Stream()
      requires Unfinished(warnings)
      modifies this`warnings, this`workerEventCount, sink
      ensures workerEventCount == old(workerEventCount) + |world.events|
      ensures sink != null ==> sink.log == EmitAll(sink.env, req, old(sink.log), StreamEvents(world.events, ids))
      ensures Unfinished(warnings) && OthersKept(old(warnings), warnings)
    {
      ghost var es := StreamEvents(world.events, ids);
      ghost var done: seq<Event> := [];
      for i := 0 to |world.events|
        invariant done == es[..i]
        invariant workerEventCount == old(workerEventCount) + i
        invariant sink != null ==> sink.log == EmitAll(sink.env, req, old(sink.log), done)
        invariant Unfinished(warnings) && OthersKept(old(warnings), warnings)
      {
        workerEventCount := workerEventCount + 1;
        EmitNext(old(if sink == null then [] else sink.log), done, WorkerEventToStorage(world.events[i], ids));
        OneMore(es, i);
        done := es[..i + 1];
      }
      assert done == es;
    }

    /** Draining the worker's stream and recording how it ended. */
    method Drain()
      requires Unfinished(warnings)
      modifies this`warnings, this`workerEventCount, this`workerSuccess, sink
      ensures workerEventCount == old(workerEventCount) + |world.events|
      ensures workerSuccess == (!world.waitFailed && world.result.success) == WorkerOk(world)
      ensures sink != null ==> sink.log == DrainedLog(sink.env, old(sink.log), req, ids, world)
      ensures Unfinished(warnings) && OthersKept(old(warnings), warnings)
    {
      Stream();
      workerSuccess := !world.waitFailed && world.result.success;
      EmitNext(old(if sink == null then [] else sink.log), StreamEvents(world.events, ids), WorkOutcome(ids, workerSuccess));
    }

    /** The verification step: a verifier that cannot finish counts as failed. */
    method Verify()
      requires Unfinished(warnings)
      modifies this`warnings, this`verifyResult, sink
      ensures !Verifies(req, world) ==> verifyResult == old(verifyResult)
      ensures Verifies(req, world) ==>
                verifyResult == Some(ChecksPass(req, world)
                                           && (sink == null || VerdictRecorded(sink.env, old(sink.log), req)))
      ensures sink != null ==> sink.log == VerifiedLog(sink.env, old(sink.log), req, ids, world)
      ensures Unfinished(warnings)
      ensures VerificationExecutionError in warnings <==>
                VerificationExecutionError in old(warnings)
                || (Verifies(req, world) && sink != null && !VerdictRecorded(sink.env, old(sink.log), req))
      ensures RunningTransitionSkipped in warnings <==> RunningTransitionSkipped in old(warnings)
    {
      var checks := ParseChecks(req.checks);
      if WorkerOk(world) && |checks| > 0 {
        var plan := BuildPlan(checks, req.cwd);
        BuiltPlanRunnable(checks, req.cwd, world.runner);
        var r := RunPlan(plan, world.runner, sink, Options(req, ids));
        if r.PlanError? {
          verifyResult := Some(false);
          warnings := warnings + [VerificationExecutionError];
        } else {
          verifyResult := Some(r.passed);
        }
      }
    }

    /** The terminal transition and the terminal events. */
    method Terminate()
      requires Unfinished(warnings)
      modifies this`warnings, sink, states
      ensures sink != null ==> sink.log == EmitAll(sink.env, req, old(sink.log), TerminalEvents(ids, success))
      ensures states != null ==> states.sessions == AfterEnd(old(states.sessions), req, ids, world, success)
      ensures TerminalTransitionSkipped in warnings
         <==> states != null && EndOutcome(old(states.sessions), req, ids, world, success).Err?
      ensures RunFailed !in warnings
      ensures RunningTransitionSkipped in warnings <==> RunningTransitionSkipped in old(warnings)
      ensures VerificationExecutionError in warnings <==> VerificationExecutionError in old(warnings)
    {
      ghost var skipped := false;
      if states != null {
        var r := states.Transition(ids.session, EndInput(req, world, success), world.wallClock, world.endWrite);
        if r.Err? {
          warnings := warnings + [TerminalTransitionSkipped];
          skipped := true;
        }
      }
      assert TerminalTransitionSkipped in warnings <==> skipped;
      assert RunFailed !in warnings;
      EmitEach(TerminalEvents(ids, success));
    }

    /** The part of runWithWorker before the terminal transition: drain, wait, verify, decide. */
    method Work()
      requires verifyResult == None && Unfinished(warnings)
      modifies this, sink
      ensures workerSuccess == (!world.waitFailed && world.result.success) == WorkerOk(world)
      ensures workerEventCount == old(workerEventCount) + |world.events|
      ensures success == Succeeds(req, world, sink == null
                                  || VerdictRecorded(sink.env, DrainedLog(sink.env, old(sink.log), req, ids, world), req))
      ensures finalLifecycle == (if success then State.Finished else State.Failed) == FinalLifecycle(success)
      ensures verifyResult.Some? <==> Verifies(req, world)
      ensures sink != null ==> sink.log == VerifiedLog(sink.env, DrainedLog(sink.env, old(sink.log), req, ids, world), req, ids, world)
      ensures Unfinished(warnings)
      ensures VerificationExecutionError in warnings <==>
                VerificationExecutionError in old(warnings)
                || (Verifies(req, world) && sink != null && !VerdictRecorded(sink.env, DrainedLog(sink.env, old(sink.log), req, ids, world), req))
      ensures RunningTransitionSkipped in warnings <==> RunningTransitionSkipped in old(warnings)
    {
      Drain();
      Verify();
      success := workerSuccess;
      if verifyResult.Some? && !verifyResult.value {
        success := false;
      }
      finalLifecycle := State.Finished;
      if !success {
        finalLifecycle := State.Failed;
      }
    }

    /** runWithWorker: drain, wait, verify and terminate; it always reaches the terminal events. */
    method RunWithWorker()
      requires verifyResult == None && Unfinished(warnings)
      modifies this, sink, states
      ensures workerSuccess == (!world.waitFailed && world.result.success) == WorkerOk(world)
      ensures workerEventCount == old(workerEventCount) + |world.events|
      ensures success == Succeeds(req, world, sink == null
                                  || VerdictRecorded(sink.env, DrainedLog(sink.env, old(sink.log), req, ids, world), req))
      ensures finalLifecycle == (if success then State.Finished else State.Failed) == FinalLifecycle(success)
      ensures verifyResult.Some? <==> Verifies(req, world)
      ensures sink != null ==> sink.log == CompletedLog(sink.env, old(sink.log), req, ids, world)
      ensures states != null ==>
                var mid := State.Calls(old(states.sessions), states.heartbeatTimeout, world.meanwhile);
                && states.sessions == AfterEnd(mid, req, ids, world, success)
                && (TerminalTransitionSkipped in warnings <==> EndOutcome(mid, req, ids, world, success).Err?)
      ensures states == null ==> TerminalTransitionSkipped !in warnings
      ensures RunFailed !in warnings
      ensures VerificationExecutionError in warnings <==>
                VerificationExecutionError in old(warnings)
                || (Verifies(req, world) && sink != null && !VerdictRecorded(sink.env, DrainedLog(sink.env, old(sink.log), req, ids, world), req))
      ensures RunningTransitionSkipped in warnings <==> RunningTransitionSkipped in old(warnings)
    {
      if states != null {
        states.Serve(world.meanwhile);
      }
      Work();
      Terminate();
    }

    /** handleRun. */
    method HandleRun() returns (response: Response)
      requires verifyResult == None && warnings == []
      modifies this, sink, states
      ensures var committed := Accepts(req, world) && world.factoryOk && world.spawnOk;
              && response.ok == committed
              && (response.error == if committed then None
                                    else if Accepts(req, world) then Some(Unknown) else Some(InvalidConfig))
              && (committed ==> (response.action == ActionNone <==> success))
              && (committed ==> (RunFailed in response.warnings <==> !success))
              && (committed <==> !AllSpace(req.goal) && world.hasFactory && world.configOk && world.factoryOk && world.spawnOk)
      ensures response.ok && response.action == ActionNone ==> !world.waitFailed && world.result.success
      ensures response.ok && Specs(req) == [] ==> (response.action == ActionNone <==> !world.waitFailed && world.result.success)
      ensures response.error == Some(InvalidConfig) <==> AllSpace(req.goal) || !world.hasFactory || !world.configOk
      ensures !response.ok ==> response.action == ActionWarn
      ensures RunningTransitionSkipped in response.warnings <==>
                Accepts(req, world) && world.factoryOk && states != null && StartOutcome(old(states.sessions), req, ids, world).Err?
      ensures VerificationExecutionError in response.warnings <==>
                && response.ok && Verifies(req, world) && sink != null
                && var pre := EmitAll(sink.env, req, old(sink.log), PreWorkerEvents(req, ids, world));
                   !VerdictRecorded(sink.env, DrainedLog(sink.env, pre, req, ids, world), req)
      ensures sink != null ==>
                var pre := EmitAll(sink.env, req, old(sink.log), PreWorkerEvents(req, ids, world));
                && (!response.ok ==> sink.log == pre)
                && (response.ok ==> sink.log == CompletedLog(sink.env, pre, req, ids, world))
                && (response.ok ==> success == Succeeds(req, world, VerdictRecorded(sink.env, DrainedLog(sink.env, pre, req, ids, world), req)))
      ensures states != null ==>
                && (response.ok ==>
                      var mid := State.Calls(AfterStart(old(states.sessions), req, ids, world), states.heartbeatTimeout, world.meanwhile);
                      && states.sessions == AfterEnd(mid, req, ids, world, success)
                      && (TerminalTransitionSkipped in response.warnings <==> EndOutcome(mid, req, ids, world, success).Err?))
                && (!response.ok && Accepts(req, world) && world.factoryOk ==>
                      states.sessions == AfterStart(old(states.sessions), req, ids, world))
    {
      BlankIff(req.goal);
      var bail := PreWorker();
      if bail.Some? {
        return Response(false, ActionWarn, bail, warnings);
      }
      RunWithWorker();
      response := BuildResponse();
    }

    /** buildRunResponse. */
    method BuildResponse() returns (response: Response)
      requires RunFailed !in warnings
      ensures response.ok && response.error == None
      ensures response.action == ActionNone <==> success
      ensures RunFailed in response.warnings <==> !success
      ensures forall w: Warning :: w != RunFailed ==> (w in response.warnings <==> w in warnings)
    {
      if success {
        response := Response(true, ActionNone, None, warnings);
      } else {
        response := Response(true, ActionWarn, None, warnings + [RunFailed]);
      }
    }
  }

  // ---- The run in plain terms ----

  function Types(es: seq<Event>): (r: seq<EventType>)
    ensures |r| == |es|
  {
    seq(|es|, i requires 0 <= i < |es| => es[i].typ)
  }

  lemma {:induction false} LaunchTypes(ids: Ids)
    ensures Types(CreationEvents(ids)) == [RunCreated, WorkCreated, AgentSpawned]
    ensures Types(StartEvents(ids)) == [RunStatusChanged, WorkStarted]
  {
  }

  lemma {:induction false} AbortTypes(ids: Ids)
    ensures Types(AbortEvents(ids)) == [AgentFailed, WorkFailed, RunStatusChanged, AgentStopped, FailureDiagnosed]
  {
  }

  lemma {:induction false} TypesAppend(a: seq<Event>, b: seq<Event>)
    ensures Types(a + b) == Types(a) + Types(b)
  {
  }

  /** The events of the first phase, by type, on each of its exits. */
  lemma {:induction false} FirstPhaseTrace(req: Request, ids: Ids, w: World)
    ensures AllSpace(req.goal) || !w.hasFactory || !w.configOk ==> PreWorkerEvents(req, ids, w) == []
    ensures !AllSpace(req.goal) && w.hasFactory && w.configOk ==>
              var created := [RunCreated, WorkCreated, AgentSpawned];
              var started := [RunStatusChanged, WorkStarted];
              var failed := [AgentFailed, WorkFailed, RunStatusChanged, AgentStopped, FailureDiagnosed];
              Types(PreWorkerEvents(req, ids, w))
              == if !w.factoryOk then created + failed
                 else if !w.spawnOk then created + started + failed
                 else created + started
  {
    BlankIff(req.goal);
    LaunchTypes(ids);
    AbortTypes(ids);
    TypesAppend(CreationEvents(ids), AbortEvents(ids));
    TypesAppend(CreationEvents(ids), StartEvents(ids));
    TypesAppend(CreationEvents(ids) + StartEvents(ids), AbortEvents(ids));
  }

  /** Which ids the events of a run carry: everything belongs to the run; the work item and the session
      are named where the event is about them. */
  lemma {:induction false} RunEventIds(ids: Ids, success: bool)
    ensures var es := CreationEvents(ids) + StartEvents(ids);
            && es[0].work == "" && es[1].work == es[2].work == es[4].work == ids.work && es[2].session == es[3].session == ids.session
            && es[0].session == es[1].session == es[4].session == "" && es[3].work == ""
            && es[3].lifecycle == Known(State.Running)
    ensures var es := TerminalEvents(ids, success);
            && es[0].session == es[1].session == ids.session && es[0].work == es[1].work == ""
            && es[0].lifecycle == es[1].lifecycle == Known(if success then State.Finished else State.Failed)
            && (!success ==> es[2].work == ids.work && es[2].session == "")
    ensures var es := AbortEvents(ids);
            es[0].session == ids.session && es[0].work == "" && es[1].work == ids.work && es[1].session == ""
  {
  }

  function Statuses(es: seq<Event>): (r: seq<Status>)
    ensures |r| == |es|
  {
    seq(|es|, i requires 0 <= i < |es| => es[i].status)
  }

  /** The status word of every event of a run. */
  lemma {:induction false} RunEventStatuses(ids: Ids, ok: bool)
    ensures Statuses(CreationEvents(ids)) == [Created, Ready, Spawning]
    ensures Statuses(StartEvents(ids)) == [Executing, Running]
    ensures WorkOutcome(ids, ok).status == if ok then Completed else Failed
    ensures Statuses(TerminalEvents(ids, true)) == [Completed, Completed]
    ensures Statuses(TerminalEvents(ids, false)) == [Failed, Failed, Diagnosed]
    ensures Statuses(AbortEvents(ids)) == [Failed, Failed, Failed, Failed, Diagnosed]
  {
  }

  /** Every verification event is about the run, its work item, its verification and its project. */
  lemma {:induction false} VerdictIds(req: Request, ids: Ids, w: World, i: nat)
    requires i < |VerdictEvents(req, ids, w)|
    ensures var e := VerdictEvents(req, ids, w)[i];
            e.run == ids.run && e.work == ids.work && e.verification == ids.verification && e.root == req.project
  {
  }

  /** The second phase ends by type with the worker's outcome, and the terminal events of the run. */
  lemma {:induction false} SecondPhaseTrace(ids: Ids, ok: bool, success: bool)
    ensures WorkOutcome(ids, ok).typ == (if ok then WorkCompleted else WorkFailed) && WorkOutcome(ids, ok).work == ids.work
    ensures Types(TerminalEvents(ids, success)) == [RunStatusChanged, AgentStopped] + if success then [] else [FailureDiagnosed]
  {
  }

  /** Each worker event becomes one ledger event of the run, with its own time. */
  lemma {:induction false} StreamTrace(evts: seq<WorkerEvent>, ids: Ids, i: nat)
    requires i < |evts|
    ensures var e := StreamEvents(evts, ids)[i];
            && (evts[i].kind == ToolExecutionStart ==> e.typ == ToolCallStarted && e.status == Started)
            && (evts[i].kind == ToolExecutionEnd ==> e.typ == ToolCallCompleted && e.status == Completed)
            && (evts[i].kind.OtherKind? ==> e.typ == AgentHeartbeat && e.status == Running)
            && e.run == ids.run && e.work == ids.work && e.session == ids.session && e.stamp == evts[i].stamp
  {
  }

  /** The first of several that is not empty. */
  function FirstOf(candidates: seq<string>): string {
    if candidates == [] then "" else if candidates[0] != "" then candidates[0] else FirstOf(candidates[1..])
  }

  lemma {:induction false} FirstOfTwo(a: string, b: string)
    ensures FirstOf([a, b]) == FirstNonEmpty(a, b)
  {
    assert [a, b][1..] == [b] && [b][1..] == [];
    assert FirstOf([b]) == b;
  }

  lemma {:induction false} FirstOfThree(a: string, b: string, c: string)
    ensures FirstOf([a, b, c]) == FirstNonEmpty(a, FirstNonEmpty(b, c))
  {
    assert [a, b, c][1..] == [b, c];
    FirstOfTwo(b, c);
  }

  /** The ids an event is recorded with: its own, else those of the request and its payload, the request's
      session before the payload's; everything else stays as it is. */
  lemma {:induction false} FilledIds(req: Request, e: Event)
    ensures var f := Fill(req, e);
            && f.run == FirstOf([e.run, req.namedRun, req.requestId])
            && f.session == FirstOf([e.session, req.session, req.namedSession])
            && f.work == FirstOf([e.work, req.namedWork]) && f.evidence == FirstOf([e.evidence, req.namedEvidence])
            && f.toolCall == FirstOf([e.toolCall, req.namedToolCall])
            && f.verification == FirstOf([e.verification, req.namedVerification])
            && f.request == FirstOf([e.request, req.requestId]) && f.root == FirstOf([e.root, req.project])
            && f.id == e.id && f.typ == e.typ && f.status == e.status && f.lifecycle == e.lifecycle && f.stamp == e.stamp
  {
    FirstOfThree(e.run, req.namedRun, req.requestId);
    FirstOfThree(e.session, req.session, req.namedSession);
    FirstOfTwo(e.work, req.namedWork);
    FirstOfTwo(e.evidence, req.namedEvidence);
    FirstOfTwo(e.toolCall, req.namedToolCall);
    FirstOfTwo(e.verification, req.namedVerification);
    FirstOfTwo(e.request, req.requestId);
    FirstOfTwo(e.root, req.project);
  }

  /** What the lifecycle file of a fresh session says once the run has started, and at its end. */
  lemma {:induction false} StartRecord(ss: State.Sessions, req: Request, ids: Ids, w: World)
    requires Generated(ids) && ids.session !in ss && w.startWrite == State.Written
    ensures var r := State.RecordOf(AfterStart(ss, req, ids, w), ids.session);
            && r.Some? && r.value.lifecycle == State.Running && r.value.context == "run_execute" && r.value.owner == w.owner
            && r.value.request == req.requestId
            && r.value.updatedAt == r.value.heartbeatAt == (if w.startTime == 0 then w.wallClock else w.startTime)
  {
  }

  lemma {:induction false} EndRecord(ss: State.Sessions, req: Request, ids: Ids, w: World, success: bool)
    requires EndOutcome(ss, req, ids, w, success).Ok?
    ensures var r := State.RecordOf(AfterEnd(ss, req, ids, w, success), ids.session);
            && r.Some? && r.value.lifecycle == (if success then State.Finished else State.Failed) && r.value.context == "run_terminate"
            && r.value.updatedAt == (if w.endTime == 0 then w.wallClock else w.endTime)
            && (w.owner != "" ==> r.value.owner == w.owner) && (req.requestId != "" ==> r.value.request == req.requestId)
  {
  }
}
