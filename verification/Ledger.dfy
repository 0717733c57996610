/** The event ledger of internal/storage/storage.go. The database is a record of tables, each
    a map from primary key to row; a transaction works on a copy and commits it whole. */
module Ledger {
  import opened Text
  import SessionState

  /** The empty id stands for an absent id and for SQL NULL. */
  type Id = string

  datatype EventType =
    | RunCreated | RunStatusChanged
    | WorkCreated | WorkClaimed | WorkStarted | WorkCompleted | WorkVerified | WorkFailed | WorkBlocked | WorkRepackaged
    | AgentSpawned | AgentHeartbeat | AgentStopped | AgentFailed
    | ContextPacketCreated | EvidenceCreated
    | ToolCallStarted | ToolCallCompleted | ToolCallFailed | ToolCallBlocked
    | VerificationStarted | VerificationPassed | VerificationFailed
    | ApprovalRequested | ApprovalGranted | ApprovalDenied
    | ReportCreated | FailureDiagnosed

  /** The status words that events and rows carry. */
  datatype Status =
    | NoStatus | Created | Scoped | Ready | Spawning | Executing | Verifying | Completed | Verified | Blocked | Failed
    | Cancelled | Inactive | Running | Stopped | Crashed | Started | Allowed | Warned | Passed | Pending | Diagnosed
    | OtherStatus(word: string)

  /** The lifecycle an event carries: none, one of the constants, or any other word. */
  datatype LifecycleWord = NoLifecycle | Known(value: SessionState.Lifecycle) | Unlisted(word: string)

  datatype Event = Event(id: Id, typ: EventType, run: Id, work: Id, session: Id, evidence: Id, toolCall: Id,
                         verification: Id, request: Id, root: string, status: Status,
                         lifecycle: LifecycleWord, stamp: string)

  /** An event with every optional field left out. */
  function Blank(typ: EventType, run: Id): Event {
    Event("", typ, run, "", "", "", "", "", "", "", NoStatus, NoLifecycle, "")
  }

  datatype RunRow = RunRow(repo: Id, status: Status)
  datatype WorkRow = WorkRow(run: Id, status: Status)
  datatype SessionRow = SessionRow(run: Id, status: Status, work: Id)
  datatype VerificationRow = VerificationRow(run: Id, work: Id, status: Status)
  datatype ToolCallRow = ToolCallRow(run: Id, work: Id, session: Id, status: Status)
  datatype EvidenceRow = EvidenceRow(run: Id, work: Id, session: Id)
  datatype DiagnosisRow = DiagnosisRow(run: Id, work: Id, session: Id, verification: Id)
  datatype EventRow = EventRow(run: Id, typ: EventType, work: Id, session: Id, evidence: Id, toolCall: Id, verification: Id)

  datatype Tables = Tables(
    repos: set<Id>,
    runs: map<Id, RunRow>,
    works: map<Id, WorkRow>,
    sessions: map<Id, SessionRow>,
    verifications: map<Id, VerificationRow>,
    toolCalls: map<Id, ToolCallRow>,
    evidence: map<Id, EvidenceRow>,
    diagnoses: map<Id, DiagnosisRow>,
    events: map<Id, EventRow>)

  const Empty := Tables({}, map[], map[], map[], map[], map[], map[], map[], map[])

  /** What deterministicID is applied to; the hash itself is a parameter. */
  datatype IdKey =
    | RepoKey(root: string)
    | RunKey(typ: EventType, root: string, stamp: string)
    | EventKey(run: Id, typ: EventType, request: Id, stamp: string)
    | WorkForVerification(run: Id)
    | WorkForFailure(run: Id)
    | ToolCallKey(event: Id)
    | EvidenceKey(event: Id)
    | VerificationKey(event: Id)
    | DiagnosisKey(event: Id)

  type Hash = IdKey -> Id

  // ---- Status projections ----

  function RunStatus(e: Event): Status {
    ProjectRun(e.lifecycle, e.typ)
  }

  function ProjectRun(lifecycle: LifecycleWord, typ: EventType): Status {
    match lifecycle
    case Known(l) => (
      match l
      case Running => Executing
      case AskUser => Blocked
      case Finished => Completed
      case Inactive => Inactive
      case Blocked => Blocked
      case Failed => Failed
      case Cancelled => Cancelled)
    case Unlisted(word) => OtherStatus(word)
    case NoLifecycle => (
      match typ
      case RunCreated => Scoped
      case AgentSpawned | WorkStarted | ToolCallStarted | ToolCallCompleted | WorkCompleted => Executing
      case VerificationStarted => Verifying
      case VerificationPassed => Completed
      case VerificationFailed | ToolCallFailed | WorkFailed | AgentFailed => Failed
      case ToolCallBlocked => Blocked
      case _ => NoStatus)
  }

  function WorkStatus(typ: EventType): Status {
    match typ
    case WorkCreated => Ready
    case WorkStarted | ToolCallStarted | ToolCallCompleted => Running
    case WorkCompleted => Completed
    case VerificationPassed => Verified
    case WorkFailed | VerificationFailed | ToolCallFailed => Failed
    case ToolCallBlocked => Blocked
    case _ => NoStatus
  }

  function AgentStatus(e: Event): Status {
    ProjectAgent(e.typ, e.status)
  }

  function ProjectAgent(typ: EventType, status: Status): Status {
    match typ
    case AgentHeartbeat => Running
    case AgentStopped => Stopped
    case AgentFailed => Crashed
    case _ => if status == Failed then Crashed else Running
  }

  function ToolStatus(e: Event): Status {
    match e.typ
    case ToolCallStarted => if e.status.Allowed? || e.status.Blocked? || e.status.Failed? then e.status else Started
    case ToolCallCompleted => Completed
    case ToolCallFailed => Failed
    case ToolCallBlocked => Blocked
    case _ => Started
  }

  function VerificationStatus(e: Event): Status {
    match e.typ
    case VerificationStarted => Running
    case VerificationPassed => Passed
    case VerificationFailed => Failed
    case _ => if e.status != NoStatus then e.status else Pending
  }

  predicate IsToolCall(typ: EventType) {
    typ.ToolCallStarted? || typ.ToolCallCompleted? || typ.ToolCallFailed? || typ.ToolCallBlocked?
  }

  predicate IsVerification(typ: EventType) {
    typ.VerificationStarted? || typ.VerificationPassed? || typ.VerificationFailed?
  }

  // ---- The effect of a committed event, table by table ----

  /** RecordEvent's defaults for the run id, the event id and the project root. */
  function Normalise(h: Hash, root: string, e: Event): Event {
    var run := if e.run != "" then e.run else FirstNonEmpty(e.request, h(RunKey(e.typ, e.root, e.stamp)));
    var id := if e.id != "" then e.id else h(EventKey(run, e.typ, e.request, e.stamp));
    e.(run := run, id := id, root := FirstNonEmpty(e.root, root))
  }

  function UpsertRun(h: Hash, runs: map<Id, RunRow>, e: Event): map<Id, RunRow> {
    var status := RunStatus(e);
    if e.run !in runs then
      runs[e.run := RunRow(h(RepoKey(e.root)), if status == NoStatus then Scoped else status)]
    else if status == NoStatus then runs
    else runs[e.run := runs[e.run].(status := status)]
  }

  /** ensureWork: an event type without a work status writes no row. */
  function UpsertWork(works: map<Id, WorkRow>, e: Event, work: Id): map<Id, WorkRow> {
    var status := WorkStatus(e.typ);
    if status == NoStatus then works
    else if work in works then works[work := works[work].(status := status)]
    else works[work := WorkRow(e.run, status)]
  }

  /** The work item an event is about: its own, or the derived one that verification and
      diagnosis rows fall back to. */
  function WorkTarget(h: Hash, e: Event): Id {
    if e.work != "" then e.work
    else if IsVerification(e.typ) then h(WorkForVerification(e.run))
    else if e.typ.FailureDiagnosed? then h(WorkForFailure(e.run))
    else ""
  }

  function WorksAfter(h: Hash, works: map<Id, WorkRow>, e: Event): map<Id, WorkRow> {
    if e.work != "" || IsVerification(e.typ) || e.typ.FailureDiagnosed? then UpsertWork(works, e, WorkTarget(h, e))
    else works
  }

  function UpsertSession(sessions: map<Id, SessionRow>, e: Event): map<Id, SessionRow> {
    if e.session in sessions then
      var row := sessions[e.session];
      sessions[e.session := row.(status := AgentStatus(e), work := FirstNonEmpty(e.work, row.work))]
    else
      sessions[e.session := SessionRow(e.run, AgentStatus(e), e.work)]
  }

  function SessionsAfter(sessions: map<Id, SessionRow>, e: Event): map<Id, SessionRow> {
    if e.session != "" then UpsertSession(sessions, e) else sessions
  }

  function ToolCallId(h: Hash, e: Event): Id { FirstNonEmpty(e.toolCall, h(ToolCallKey(e.id))) }
  function EvidenceId(h: Hash, e: Event): Id { FirstNonEmpty(e.evidence, h(EvidenceKey(e.id))) }
  function VerificationId(h: Hash, e: Event): Id { FirstNonEmpty(e.verification, h(VerificationKey(e.id))) }

  function UpsertToolCall(h: Hash, calls: map<Id, ToolCallRow>, e: Event): map<Id, ToolCallRow> {
    var id := ToolCallId(h, e);
    if id in calls then calls[id := calls[id].(status := ToolStatus(e))]
    else calls[id := ToolCallRow(e.run, e.work, e.session, ToolStatus(e))]
  }

  function UpsertEvidence(h: Hash, rows: map<Id, EvidenceRow>, e: Event): map<Id, EvidenceRow> {
    var id := EvidenceId(h, e);
    if id in rows then rows else rows[id := EvidenceRow(e.run, e.work, e.session)]
  }

  function UpsertVerification(h: Hash, rows: map<Id, VerificationRow>, e: Event): map<Id, VerificationRow> {
    var id := VerificationId(h, e);
    if id in rows then rows[id := rows[id].(status := VerificationStatus(e))]
    else rows[id := VerificationRow(e.run, WorkTarget(h, e), VerificationStatus(e))]
  }

  function UpsertDiagnosis(h: Hash, rows: map<Id, DiagnosisRow>, e: Event): map<Id, DiagnosisRow> {
    var id := h(DiagnosisKey(e.id));
    if id in rows then rows else rows[id := DiagnosisRow(e.run, WorkTarget(h, e), e.session, e.verification)]
  }

  function ToolCallsAfter(h: Hash, calls: map<Id, ToolCallRow>, e: Event): map<Id, ToolCallRow> {
    if IsToolCall(e.typ) then UpsertToolCall(h, calls, e) else calls
  }

  function EvidenceAfter(h: Hash, rows: map<Id, EvidenceRow>, e: Event): map<Id, EvidenceRow> {
    if e.typ.EvidenceCreated? then UpsertEvidence(h, rows, e) else rows
  }

  function VerificationsAfter(h: Hash, rows: map<Id, VerificationRow>, e: Event): map<Id, VerificationRow> {
    if IsVerification(e.typ) then UpsertVerification(h, rows, e) else rows
  }

  function DiagnosesAfter(h: Hash, rows: map<Id, DiagnosisRow>, e: Event): map<Id, DiagnosisRow> {
    if e.typ.FailureDiagnosed? then UpsertDiagnosis(h, rows, e) else rows
  }

  function EventsAfter(rows: map<Id, EventRow>, e: Event): map<Id, EventRow> {
    if e.id in rows then rows
    else rows[e.id := EventRow(e.run, e.typ, e.work, e.session, e.evidence, e.toolCall, e.verification)]
  }

  /** The tables after a normalised event. */
  function After(h: Hash, t: Tables, e: Event): Tables {
    Tables(t.repos + {h(RepoKey(e.root))}, UpsertRun(h, t.runs, e), WorksAfter(h, t.works, e),
           SessionsAfter(t.sessions, e), VerificationsAfter(h, t.verifications, e), ToolCallsAfter(h, t.toolCalls, e),
           EvidenceAfter(h, t.evidence, e), DiagnosesAfter(h, t.diagnoses, e), EventsAfter(t.events, e))
  }

  function Record(h: Hash, root: string, t: Tables, given: Event): Tables {
    After(h, t, Normalise(h, root, given))
  }

  function Replay(h: Hash, root: string, t: Tables, es: seq<Event>): Tables
    decreases |es|
  {
    if es == [] then t else Record(h, root, Replay(h, root, t, es[..|es| - 1]), es[|es| - 1])
  }

  // ---- The store: an attempt to record an event either commits all of it or nothing ----

  datatype Attempt = Attempt(event: Event, ok: bool)

  /** The events that were committed, in order. */
  function Committed(log: seq<Attempt>): seq<Event>
    decreases |log|
  {
    if log == [] then []
    else
      var last := log[|log| - 1];
      Committed(log[..|log| - 1]) + if last.ok then [last.event] else []
  }

  /** The commit, the last statement of a transaction. */
  const COMMIT := 7

  /** What decides the fate of the n-th attempt: the statement at which the database fails
      (none if beyond the last) and the time it is stamped with. */
  datatype Env = Env(failAt: nat -> nat, clock: nat -> string)

  predicate Accepted(env: Env, n: nat) {
    env.failAt(n) > COMMIT
  }

  function Stamp(env: Env, n: nat, e: Event): Event {
    if e.stamp == "" then e.(stamp := env.clock(n)) else e
  }

  /** The attempt log after trying to record one event. */
  function Emit(env: Env, log: seq<Attempt>, e: Event): seq<Attempt> {
    log + [Attempt(Stamp(env, |log|, e), Accepted(env, |log|))]
  }

  /** The attempt log of a caller that gives up at the first failure. */
  function EmitUntilFailure(env: Env, log: seq<Attempt>, es: seq<Event>): seq<Attempt>
    decreases |es|
  {
    if es == [] then log
    else if !Accepted(env, |log|) then Emit(env, log, es[0])
    else EmitUntilFailure(env, Emit(env, log, es[0]), es[1..])
  }

  predicate AllAccepted(env: Env, from: nat, count: nat)
    decreases count
  {
    count == 0 || (Accepted(env, from) && AllAccepted(env, from + 1, count - 1))
  }

  /** The storage.Sink interface as its callers see it: each call is accepted or refused. */
  class Sink {
    const env: Env
    var log: seq<Attempt>

    constructor (env: Env)
      ensures this.env == env && log == []
    {
      this.env, log := env, [];
    }

    /** Recorder.Record on this sink: the event is stamped if its caller left the time out. */
    method Record(given: Event) returns (ok: bool)
      modifies this
      ensures ok == Accepted(env, old(|log|))
      ensures log == Emit(env, old(log), given)
    {
      var event := given;
      if event.stamp == "" {
        event := event.(stamp := env.clock(|log|));
      }
      ok := env.failAt(|log|) > COMMIT;
      log := log + [Attempt(event, ok)];
    }
  }

  /** The database behind the sink. */
  class Store {
    const hash: Hash
    const root: string
    var tables: Tables

    constructor (hash: Hash, root: string)
      ensures this.hash == hash && this.root == root && tables == Empty
    {
      this.hash, this.root, tables := hash, root, Empty;
    }

    /** ensureRepo, ensureRun, ensureWork and ensureAgentSession, failing at statement `f`. */
    method EnsureRows(t: Tables, e: Event, f: nat) returns (tx: Tables, ok: bool)
      ensures f > 4 ==> ok
      ensures ok ==> tx == t.(repos := t.repos + {hash(RepoKey(e.root))},
                              runs := UpsertRun(hash, t.runs, e),
                              works := if e.work != "" then UpsertWork(t.works, e, e.work) else t.works,
                              sessions := SessionsAfter(t.sessions, e))
    {
      tx, ok := t, false;
      if f == 1 { return; }
      tx := tx.(repos := tx.repos + {hash(RepoKey(e.root))});
      if f == 2 { return; }
      tx := tx.(runs := UpsertRun(hash, tx.runs, e));
      if e.work != "" {
        if f == 3 { return; }
        tx := tx.(works := UpsertWork(tx.works, e, e.work));
      }
      if e.session != "" {
        if f == 4 { return; }
        tx := tx.(sessions := UpsertSession(tx.sessions, e));
      }
      ok := true;
    }

    /** recordSpecializedRow: the row that tool calls, verifications, evidence and diagnoses add. */
    method RecordSpecializedRow(t: Tables, e: Event) returns (tx: Tables)
      ensures tx == t.(works := if e.work == "" then WorksAfter(hash, t.works, e) else t.works,
                       toolCalls := ToolCallsAfter(hash, t.toolCalls, e),
                       verifications := VerificationsAfter(hash, t.verifications, e),
                       evidence := EvidenceAfter(hash, t.evidence, e),
                       diagnoses := DiagnosesAfter(hash, t.diagnoses, e))
    {
      tx := t;
      if e.work == "" {
        tx := tx.(works := WorksAfter(hash, tx.works, e));
      }
      tx := tx.(toolCalls := ToolCallsAfter(hash, tx.toolCalls, e));
      tx := tx.(verifications := VerificationsAfter(hash, tx.verifications, e));
      tx := tx.(evidence := EvidenceAfter(hash, tx.evidence, e));
      tx := tx.(diagnoses := DiagnosesAfter(hash, tx.diagnoses, e));
    }

    /** RecordEvent: the statements run on a copy, and a failure at any of them discards it. */
    method RecordEvent(given: Event, f: nat) returns (ok: bool)
      modifies this
      ensures ok <==> f > COMMIT
      ensures tables == if ok then Record(hash, root, old(tables), given) else old(tables)
    {
      var e := Normalise(hash, root, given);
      if f == 0 { return false; }
      var tx, ensured := EnsureRows(tables, e, f);
      if !ensured || f == 5 { return false; }
      tx := RecordSpecializedRow(tx, e);
      if f == 6 { return false; }
      tx := tx.(events := EventsAfter(tx.events, e));
      if f <= COMMIT { return false; }
      tables := tx;
      ok := true;
    }

    /** Handing a whole log of attempts to the database leaves the replay of the committed ones. */
    method Absorb(log: seq<Attempt>)
      modifies this
      ensures tables == Replay(hash, root, old(tables), Committed(log))
    {
      ghost var stages := Stages(hash, root, tables, log);
      AbsorbAlong(log, stages);
    }

    method AbsorbAlong(log: seq<Attempt>, ghost stages: seq<Tables>)
      requires Staged(hash, root, log, stages) && tables == stages[0]
      modifies this
      ensures tables == stages[|log|]
    {
      for i := 0 to |log|
        invariant tables == stages[i]
      {
        assert Leads(hash, root, log[i], stages[i], stages[i + 1]);
        var ok := RecordEvent(log[i].event, if log[i].ok then COMMIT + 1 else 0);
      }
    }
  }

  /** One attempt leads from these tables to those. */
  ghost predicate Leads(h: Hash, root: string, a: Attempt, before: Tables, after: Tables) {
    after == if a.ok then Record(h, root, before, a.event) else before
  }

  /** The tables before and after each attempt of a log. */
  ghost predicate Staged(h: Hash, root: string, log: seq<Attempt>, stages: seq<Tables>) {
    |stages| == |log| + 1 && forall i :: 0 <= i < |log| ==> Leads(h, root, log[i], stages[i], stages[i + 1])
  }

  lemma {:induction false} Stages(h: Hash, root: string, t: Tables, log: seq<Attempt>) returns (stages: seq<Tables>)
    ensures Staged(h, root, log, stages) && stages[0] == t && stages[|log|] == Replay(h, root, t, Committed(log))
    decreases |log|
  {
    if log == [] {
      stages := [t];
    } else {
      var n := |log| - 1;
      var before := Stages(h, root, t, log[..n]);
      stages := before + [Replay(h, root, t, Committed(log))];
      assert log == log[..n] + [log[n]];
      ReplayNext(h, root, t, log[..n], log[n]);
      StagedSnoc(h, root, log[..n], log[n], before, stages[n + 1]);
    }
  }

  lemma {:induction false} StagedSnoc(h: Hash, root: string, log: seq<Attempt>, a: Attempt, stages: seq<Tables>, last: Tables)
    requires Staged(h, root, log, stages) && Leads(h, root, a, stages[|log|], last)
    ensures Staged(h, root, log + [a], stages + [last])
  {
    var all, next := log + [a], stages + [last];
    forall i | 0 <= i < |all| ensures Leads(h, root, all[i], next[i], next[i + 1]) {
      if i < |log| {
        assert Leads(h, root, log[i], stages[i], stages[i + 1]);
      }
    }
  }

  lemma {:induction false} ReplayNext(h: Hash, root: string, t: Tables, log: seq<Attempt>, a: Attempt)
    ensures var before := Replay(h, root, t, Committed(log));
            Replay(h, root, t, Committed(log + [a])) == if a.ok then Record(h, root, before, a.event) else before
  {
    assert (log + [a])[..|log|] == log;
    if a.ok {
      assert (Committed(log) + [a.event])[..|Committed(log)|] == Committed(log);
    } else {
      assert Committed(log + [a]) == Committed(log);
    }
  }

  // ---- What one recorded event changes ----

  /** The columns a run reads back: status of a run, of a work item and of a session. */
  function RunStatusOf(t: Tables, run: Id): Status { if run in t.runs then t.runs[run].status else NoStatus }
  function WorkStatusOf(t: Tables, work: Id): Status { if work in t.works then t.works[work].status else NoStatus }
  function SessionStatusOf(t: Tables, session: Id): Status {
    if session in t.sessions then t.sessions[session].status else NoStatus
  }

  lemma {:induction false} UpsertRunStatus(h: Hash, runs: map<Id, RunRow>, e: Event, run: Id)
    ensures var after := UpsertRun(h, runs, e);
            && after.Keys == runs.Keys + {e.run}
            && (e.run == run && RunStatus(e) != NoStatus ==> after[run].status == RunStatus(e))
            && (run in runs && (e.run != run || RunStatus(e) == NoStatus) ==> after[run] == runs[run])
  {
  }

  lemma {:induction false} RecordRunStatus(h: Hash, root: string, t: Tables, e: Event, run: Id)
    requires e.run != ""
    ensures e.run == run && RunStatus(e) != NoStatus ==> RunStatusOf(Record(h, root, t, e), run) == RunStatus(e)
    ensures e.run != run || (RunStatus(e) == NoStatus && run in t.runs) ==>
              RunStatusOf(Record(h, root, t, e), run) == RunStatusOf(t, run)
    ensures run in Record(h, root, t, e).runs <==> run in t.runs || run == e.run
  {
    var n := Normalise(h, root, e);
    assert RunStatus(n) == RunStatus(e);
    UpsertRunStatus(h, t.runs, n, run);
  }

  lemma {:induction false} RecordWorkStatus(h: Hash, root: string, t: Tables, e: Event, work: Id)
    ensures WorkStatus(e.typ) == NoStatus ==> Record(h, root, t, e).works == t.works
    ensures e.work != "" && WorkStatus(e.typ) != NoStatus ==>
              WorkStatusOf(Record(h, root, t, e), work) == if e.work == work then WorkStatus(e.typ) else WorkStatusOf(t, work)
  {
  }

  lemma {:induction false} RecordSessionStatus(h: Hash, root: string, t: Tables, e: Event, session: Id)
    requires session != ""
    ensures SessionStatusOf(Record(h, root, t, e), session)
         == if e.session == session then AgentStatus(e) else SessionStatusOf(t, session)
  {
    assert AgentStatus(Normalise(h, root, e)) == AgentStatus(e);
  }

  /** Exactly the event types for which ensureWork writes no row. */
  lemma {:induction false} RowlessWorkTypes(works: map<Id, WorkRow>, e: Event, work: Id)
    requires work !in works
    ensures work !in UpsertWork(works, e, work) <==>
              e.typ in {RunCreated, RunStatusChanged, WorkClaimed, WorkVerified, WorkBlocked, WorkRepackaged,
                        AgentSpawned, AgentHeartbeat, AgentStopped, AgentFailed, ContextPacketCreated, EvidenceCreated,
                        VerificationStarted, ApprovalRequested, ApprovalGranted, ApprovalDenied, ReportCreated,
                        FailureDiagnosed}
  {
  }
}
