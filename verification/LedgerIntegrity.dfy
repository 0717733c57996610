/** The REFERENCES and CHECK clauses of internal/storage/schema.go, used as a specification of
    what recording an event must keep. */
module LedgerIntegrity {
  import opened Ledger
  import SessionState

  // ---- References ----

  ghost predicate RefersTo(id: Id, rows: set<Id>) {
    id == "" || id in rows
  }

  ghost predicate WorkRowOk(t: Tables, r: WorkRow) { r.run in t.runs }

  ghost predicate SessionRowOk(t: Tables, r: SessionRow) { r.run in t.runs && RefersTo(r.work, t.works.Keys) }

  ghost predicate VerificationRowOk(t: Tables, r: VerificationRow) { r.run in t.runs && r.work in t.works }

  ghost predicate ToolCallRowOk(t: Tables, r: ToolCallRow) {
    r.run in t.runs && RefersTo(r.work, t.works.Keys) && RefersTo(r.session, t.sessions.Keys)
  }

  ghost predicate EvidenceRowOk(t: Tables, r: EvidenceRow) {
    r.run in t.runs && RefersTo(r.work, t.works.Keys) && RefersTo(r.session, t.sessions.Keys)
  }

  ghost predicate DiagnosisRowOk(t: Tables, r: DiagnosisRow) {
    && r.run in t.runs && r.work in t.works
    && RefersTo(r.session, t.sessions.Keys) && RefersTo(r.verification, t.verifications.Keys)
  }

  ghost predicate EventRowOk(t: Tables, r: EventRow) {
    && r.run in t.runs && RefersTo(r.work, t.works.Keys) && RefersTo(r.session, t.sessions.Keys)
    && RefersTo(r.evidence, t.evidence.Keys) && RefersTo(r.toolCall, t.toolCalls.Keys)
    && RefersTo(r.verification, t.verifications.Keys)
  }

  ghost predicate RunsClosed(t: Tables) { forall id :: id in t.runs ==> t.runs[id].repo in t.repos }
  ghost predicate WorksClosed(t: Tables) { forall id :: id in t.works ==> WorkRowOk(t, t.works[id]) }
  ghost predicate SessionsClosed(t: Tables) { forall id :: id in t.sessions ==> SessionRowOk(t, t.sessions[id]) }
  ghost predicate VerificationsClosed(t: Tables) {
    forall id :: id in t.verifications ==> VerificationRowOk(t, t.verifications[id])
  }
  ghost predicate ToolCallsClosed(t: Tables) { forall id :: id in t.toolCalls ==> ToolCallRowOk(t, t.toolCalls[id]) }
  ghost predicate EvidenceClosed(t: Tables) { forall id :: id in t.evidence ==> EvidenceRowOk(t, t.evidence[id]) }
  ghost predicate DiagnosesClosed(t: Tables) { forall id :: id in t.diagnoses ==> DiagnosisRowOk(t, t.diagnoses[id]) }
  ghost predicate EventsClosed(t: Tables) { forall id :: id in t.events ==> EventRowOk(t, t.events[id]) }

  /** Every foreign key of every row refers to a row that is present. */
  ghost predicate Closed(t: Tables) {
    && RunsClosed(t) && WorksClosed(t) && SessionsClosed(t) && VerificationsClosed(t)
    && ToolCallsClosed(t) && EvidenceClosed(t) && DiagnosesClosed(t) && EventsClosed(t)
  }

  // ---- The REFERENCES clauses, column by column ----

  /** What one column of a table refers to. */
  ghost function Column<R>(rows: map<Id, R>, column: R -> Id): set<Id> {
    set id | id in rows :: column(rows[id])
  }

  /** Columns that hold an id of their target in every row. */
  ghost predicate RequiredColumns(t: Tables) {
    && Column(t.runs, (r: RunRow) => r.repo) <= t.repos
    && Column(t.works, (r: WorkRow) => r.run) <= t.runs.Keys
    && Column(t.sessions, (r: SessionRow) => r.run) <= t.runs.Keys
    && Column(t.verifications, (r: VerificationRow) => r.run) <= t.runs.Keys
    && Column(t.verifications, (r: VerificationRow) => r.work) <= t.works.Keys
    && Column(t.toolCalls, (r: ToolCallRow) => r.run) <= t.runs.Keys
    && Column(t.evidence, (r: EvidenceRow) => r.run) <= t.runs.Keys
    && Column(t.diagnoses, (r: DiagnosisRow) => r.run) <= t.runs.Keys
    && Column(t.diagnoses, (r: DiagnosisRow) => r.work) <= t.works.Keys
    && Column(t.events, (r: EventRow) => r.run) <= t.runs.Keys
  }

  /** Columns that may be empty. */
  ghost predicate OptionalColumns(t: Tables) {
    && Column(t.sessions, (r: SessionRow) => r.work) <= t.works.Keys + {""}
    && Column(t.toolCalls, (r: ToolCallRow) => r.work) <= t.works.Keys + {""}
    && Column(t.toolCalls, (r: ToolCallRow) => r.session) <= t.sessions.Keys + {""}
    && Column(t.evidence, (r: EvidenceRow) => r.work) <= t.works.Keys + {""}
    && Column(t.evidence, (r: EvidenceRow) => r.session) <= t.sessions.Keys + {""}
    && Column(t.diagnoses, (r: DiagnosisRow) => r.session) <= t.sessions.Keys + {""}
    && Column(t.diagnoses, (r: DiagnosisRow) => r.verification) <= t.verifications.Keys + {""}
    && Column(t.events, (r: EventRow) => r.work) <= t.works.Keys + {""}
    && Column(t.events, (r: EventRow) => r.session) <= t.sessions.Keys + {""}
    && Column(t.events, (r: EventRow) => r.evidence) <= t.evidence.Keys + {""}
    && Column(t.events, (r: EventRow) => r.toolCall) <= t.toolCalls.Keys + {""}
    && Column(t.events, (r: EventRow) => r.verification) <= t.verifications.Keys + {""}
  }

  lemma {:induction false} ColumnIn<R>(rows: map<Id, R>, column: R -> Id, target: set<Id>)
    ensures Column(rows, column) <= target <==> forall id :: id in rows ==> column(rows[id]) in target
  {
    if Column(rows, column) <= target {
      forall id | id in rows ensures column(rows[id]) in target {
        assert column(rows[id]) in Column(rows, column);
      }
    }
  }

  lemma {:induction false} CoreColumns(t: Tables)
    ensures RunsClosed(t) <==> Column(t.runs, (r: RunRow) => r.repo) <= t.repos
    ensures WorksClosed(t) <==> Column(t.works, (r: WorkRow) => r.run) <= t.runs.Keys
    ensures SessionsClosed(t) <==>
              && Column(t.sessions, (r: SessionRow) => r.run) <= t.runs.Keys
              && Column(t.sessions, (r: SessionRow) => r.work) <= t.works.Keys + {""}
  {
    ColumnIn(t.runs, (r: RunRow) => r.repo, t.repos);
    ColumnIn(t.works, (r: WorkRow) => r.run, t.runs.Keys);
    ColumnIn(t.sessions, (r: SessionRow) => r.run, t.runs.Keys);
    ColumnIn(t.sessions, (r: SessionRow) => r.work, t.works.Keys + {""});
  }

  lemma {:induction false} VerificationColumns(t: Tables)
    ensures VerificationsClosed(t) <==>
              && Column(t.verifications, (r: VerificationRow) => r.run) <= t.runs.Keys
              && Column(t.verifications, (r: VerificationRow) => r.work) <= t.works.Keys
  {
    ColumnIn(t.verifications, (r: VerificationRow) => r.run, t.runs.Keys);
    ColumnIn(t.verifications, (r: VerificationRow) => r.work, t.works.Keys);
  }

  lemma {:induction false} ToolCallColumns(t: Tables)
    ensures ToolCallsClosed(t) <==>
              && Column(t.toolCalls, (r: ToolCallRow) => r.run) <= t.runs.Keys
              && Column(t.toolCalls, (r: ToolCallRow) => r.work) <= t.works.Keys + {""}
              && Column(t.toolCalls, (r: ToolCallRow) => r.session) <= t.sessions.Keys + {""}
  {
    ColumnIn(t.toolCalls, (r: ToolCallRow) => r.run, t.runs.Keys);
    ColumnIn(t.toolCalls, (r: ToolCallRow) => r.work, t.works.Keys + {""});
    ColumnIn(t.toolCalls, (r: ToolCallRow) => r.session, t.sessions.Keys + {""});
  }

  lemma {:induction false} EvidenceColumns(t: Tables)
    ensures EvidenceClosed(t) <==>
              && Column(t.evidence, (r: EvidenceRow) => r.run) <= t.runs.Keys
              && Column(t.evidence, (r: EvidenceRow) => r.work) <= t.works.Keys + {""}
              && Column(t.evidence, (r: EvidenceRow) => r.session) <= t.sessions.Keys + {""}
  {
    ColumnIn(t.evidence, (r: EvidenceRow) => r.run, t.runs.Keys);
    ColumnIn(t.evidence, (r: EvidenceRow) => r.work, t.works.Keys + {""});
    ColumnIn(t.evidence, (r: EvidenceRow) => r.session, t.sessions.Keys + {""});
  }

  lemma {:induction false} DiagnosisColumns(t: Tables)
    ensures DiagnosesClosed(t) <==>
              && Column(t.diagnoses, (r: DiagnosisRow) => r.run) <= t.runs.Keys
              && Column(t.diagnoses, (r: DiagnosisRow) => r.work) <= t.works.Keys
              && Column(t.diagnoses, (r: DiagnosisRow) => r.session) <= t.sessions.Keys + {""}
              && Column(t.diagnoses, (r: DiagnosisRow) => r.verification) <= t.verifications.Keys + {""}
  {
    ColumnIn(t.diagnoses, (r: DiagnosisRow) => r.run, t.runs.Keys);
    ColumnIn(t.diagnoses, (r: DiagnosisRow) => r.work, t.works.Keys);
    ColumnIn(t.diagnoses, (r: DiagnosisRow) => r.session, t.sessions.Keys + {""});
    ColumnIn(t.diagnoses, (r: DiagnosisRow) => r.verification, t.verifications.Keys + {""});
  }

  lemma {:induction false} EventColumns(t: Tables)
    ensures EventsClosed(t) <==>
              && Column(t.events, (r: EventRow) => r.run) <= t.runs.Keys
              && Column(t.events, (r: EventRow) => r.work) <= t.works.Keys + {""}
              && Column(t.events, (r: EventRow) => r.session) <= t.sessions.Keys + {""}
              && Column(t.events, (r: EventRow) => r.evidence) <= t.evidence.Keys + {""}
              && Column(t.events, (r: EventRow) => r.toolCall) <= t.toolCalls.Keys + {""}
              && Column(t.events, (r: EventRow) => r.verification) <= t.verifications.Keys + {""}
  {
    ColumnIn(t.events, (r: EventRow) => r.run, t.runs.Keys);
    ColumnIn(t.events, (r: EventRow) => r.work, t.works.Keys + {""});
    ColumnIn(t.events, (r: EventRow) => r.session, t.sessions.Keys + {""});
    ColumnIn(t.events, (r: EventRow) => r.evidence, t.evidence.Keys + {""});
    ColumnIn(t.events, (r: EventRow) => r.toolCall, t.toolCalls.Keys + {""});
    ColumnIn(t.events, (r: EventRow) => r.verification, t.verifications.Keys + {""});
  }

  /** Closed is the twenty-two REFERENCES clauses of the modelled columns. */
  lemma {:induction false} ClosedIsReferences(t: Tables)
    ensures Closed(t) <==> RequiredColumns(t) && OptionalColumns(t)
  {
    CoreColumns(t);
    VerificationColumns(t);
    ToolCallColumns(t);
    EvidenceColumns(t);
    DiagnosisColumns(t);
    EventColumns(t);
  }

  /** The work item that the event names exists already or is created by its type. */
  ghost predicate WorkThere(t: Tables, e: Event) {
    e.work == "" || e.work in t.works || WorkStatus(e.typ) != NoStatus
  }

  ghost predicate VerificationThere(t: Tables, e: Event) {
    e.verification == "" || e.verification in t.verifications || IsVerification(e.typ)
  }

  /** The ids that a normalised event names exist already or are created by its own type. */
  ghost predicate NamesGrounded(t: Tables, e: Event) {
    && WorkThere(t, e) && VerificationThere(t, e)
    && (e.evidence == "" || e.evidence in t.evidence || e.typ.EvidenceCreated?)
    && (e.toolCall == "" || e.toolCall in t.toolCalls || IsToolCall(e.typ))
  }

  ghost predicate NewDiagnosis(h: Hash, t: Tables, e: Event) {
    e.typ.FailureDiagnosed? && h(DiagnosisKey(e.id)) !in t.diagnoses
  }

  ghost predicate NewVerification(h: Hash, t: Tables, e: Event) {
    IsVerification(e.typ) && VerificationId(h, e) !in t.verifications
  }

  ghost predicate NewEvidence(h: Hash, t: Tables, e: Event) {
    e.typ.EvidenceCreated? && EvidenceId(h, e) !in t.evidence
  }

  /** Some row that recording writes refers to the event's work item: the session's, a new row of its
      own, or the event's unless that row is there already. */
  ghost predicate WorkUsed(h: Hash, t: Tables, e: Event) {
    e.id !in t.events || e.session != "" || NewDiagnosis(h, t, e) || NewVerification(h, t, e) || NewEvidence(h, t, e)
  }

  /** Everything that a row written for the event refers to is there or created with it. */
  ghost predicate Referable(h: Hash, t: Tables, e: Event) {
    && (e.id !in t.events ==> NamesGrounded(t, e))
    && (WorkUsed(h, t, e) ==> WorkThere(t, e))
    && (NewDiagnosis(h, t, e) ==> VerificationThere(t, e))
    && FallbackGrounded(h, t, e)
  }

  /** An event that names no work item but whose specialised row needs one finds the derived
      item, unless its type creates it or the row is there already. */
  ghost predicate FallbackGrounded(h: Hash, t: Tables, e: Event) {
    e.work == "" ==>
      && (e.typ.VerificationStarted? ==> VerificationId(h, e) in t.verifications || WorkTarget(h, e) in t.works)
      && (e.typ.FailureDiagnosed? ==> h(DiagnosisKey(e.id)) in t.diagnoses || WorkTarget(h, e) in t.works)
  }

  ghost predicate Grounded(h: Hash, t: Tables, e: Event) {
    NamesGrounded(t, e) && FallbackGrounded(h, t, e)
  }

  /** No primary key is ever removed, and the event's own run and session exist afterwards. */
  lemma {:induction false} KeysGrow(h: Hash, t: Tables, e: Event)
    ensures var u := After(h, t, e);
            && t.repos <= u.repos && h(RepoKey(e.root)) in u.repos
            && t.runs.Keys <= u.runs.Keys && e.run in u.runs
            && t.works.Keys <= u.works.Keys
            && t.sessions.Keys <= u.sessions.Keys && RefersTo(e.session, u.sessions.Keys)
            && t.verifications.Keys <= u.verifications.Keys
            && t.toolCalls.Keys <= u.toolCalls.Keys
            && t.evidence.Keys <= u.evidence.Keys
  {
  }

  /** What recording an event does to the rows that are there already: it changes the row of its
      own run, work item and session and no other, keeps the run and repository each row belongs to,
      and creates at most the rows it names or falls back to. */
  lemma {:induction false} CoreRowsKept(h: Hash, t: Tables, e: Event)
    ensures var u := After(h, t, e);
            && u.runs.Keys == t.runs.Keys + {e.run}
            && (forall id :: id in t.runs ==> u.runs[id].repo == t.runs[id].repo && (id != e.run ==> u.runs[id] == t.runs[id]))
            && u.sessions.Keys == t.sessions.Keys + (if e.session == "" then {} else {e.session})
            && (forall id :: id in t.sessions ==>
                  u.sessions[id].run == t.sessions[id].run && (id != e.session ==> u.sessions[id] == t.sessions[id]))
  {
    assert After(h, t, e).sessions == SessionsAfter(t.sessions, e);
  }

  lemma {:induction false} WorkRowsKept(h: Hash, t: Tables, e: Event)
    ensures var u := After(h, t, e);
            && t.works.Keys <= u.works.Keys <= t.works.Keys + {WorkTarget(h, e)}
            && (forall id :: id in t.works ==>
                  u.works[id].run == t.works[id].run && (id != WorkTarget(h, e) ==> u.works[id] == t.works[id]))
  {
    assert After(h, t, e).works == WorksAfter(h, t.works, e);
  }

  /** The same for tool calls and verifications: at most the event's own row is created, and an
      existing one changes only its status. */
  lemma {:induction false} ToolCallRowsKept(h: Hash, t: Tables, e: Event)
    ensures var u := After(h, t, e);
            && u.toolCalls.Keys == t.toolCalls.Keys + (if IsToolCall(e.typ) then {ToolCallId(h, e)} else {})
            && (forall id :: id in t.toolCalls ==>
                  && u.toolCalls[id].(status := t.toolCalls[id].status) == t.toolCalls[id]
                  && (id != ToolCallId(h, e) ==> u.toolCalls[id] == t.toolCalls[id]))
  {
    assert After(h, t, e).toolCalls == ToolCallsAfter(h, t.toolCalls, e);
  }

  lemma {:induction false} VerificationRowsKept(h: Hash, t: Tables, e: Event)
    ensures var u := After(h, t, e);
            && u.verifications.Keys == t.verifications.Keys + (if IsVerification(e.typ) then {VerificationId(h, e)} else {})
            && (forall id :: id in t.verifications ==>
                  && u.verifications[id].(status := t.verifications[id].status) == t.verifications[id]
                  && (id != VerificationId(h, e) ==> u.verifications[id] == t.verifications[id]))
  {
    assert After(h, t, e).verifications == VerificationsAfter(h, t.verifications, e);
  }

  /** Existing evidence, diagnoses and events do not change at all. */
  lemma {:induction false} WrittenOnceRowsKept(h: Hash, t: Tables, e: Event)
    ensures var u := After(h, t, e);
            && u.evidence.Keys == t.evidence.Keys + (if e.typ.EvidenceCreated? then {EvidenceId(h, e)} else {})
            && (forall id :: id in t.evidence ==> u.evidence[id] == t.evidence[id])
            && u.diagnoses.Keys == t.diagnoses.Keys + (if e.typ.FailureDiagnosed? then {h(DiagnosisKey(e.id))} else {})
            && (forall id :: id in t.diagnoses ==> u.diagnoses[id] == t.diagnoses[id])
            && u.events.Keys == t.events.Keys + {e.id}
            && (forall id :: id in t.events ==> u.events[id] == t.events[id])
  {
    assert After(h, t, e).evidence == EvidenceAfter(h, t.evidence, e);
    assert After(h, t, e).diagnoses == DiagnosesAfter(h, t.diagnoses, e);
    assert After(h, t, e).events == EventsAfter(t.events, e);
  }

  lemma {:induction false} WorkPresence(h: Hash, works: map<Id, WorkRow>, e: Event)
    ensures e.work != "" ==> (e.work in WorksAfter(h, works, e) <==> e.work in works || WorkStatus(e.typ) != NoStatus)
    ensures e.work == "" && (e.typ.VerificationStarted? || e.typ.FailureDiagnosed?) ==> WorksAfter(h, works, e) == works
    ensures e.typ.VerificationPassed? || e.typ.VerificationFailed? ==> WorkTarget(h, e) in WorksAfter(h, works, e)
  {
  }

  lemma {:induction false} NamedPresence(h: Hash, t: Tables, e: Event)
    ensures e.evidence != "" ==>
              (e.evidence in After(h, t, e).evidence <==> e.evidence in t.evidence || e.typ.EvidenceCreated?)
    ensures e.toolCall != "" ==>
              (e.toolCall in After(h, t, e).toolCalls <==> e.toolCall in t.toolCalls || IsToolCall(e.typ))
    ensures e.verification != "" ==>
              (e.verification in After(h, t, e).verifications <==> e.verification in t.verifications || IsVerification(e.typ))
  {
  }

  /** A tool-call row is kept except for its status, or is the event's own. */
  lemma {:induction false} ToolCallRowAfter(h: Hash, rows: map<Id, ToolCallRow>, e: Event, id: Id)
    requires id in ToolCallsAfter(h, rows, e)
    ensures var r := ToolCallsAfter(h, rows, e)[id];
            || (id in rows && r == rows[id])
            || (IsToolCall(e.typ) && id in rows && r == rows[id].(status := ToolStatus(e)))
            || (IsToolCall(e.typ) && r == ToolCallRow(e.run, e.work, e.session, ToolStatus(e)))
  {
  }

  /** A verification row is kept except for its status, or is the event's own. */
  lemma {:induction false} VerificationRowAfter(h: Hash, rows: map<Id, VerificationRow>, e: Event, id: Id)
    requires id in VerificationsAfter(h, rows, e)
    ensures var r := VerificationsAfter(h, rows, e)[id];
            || (id in rows && r == rows[id])
            || (IsVerification(e.typ) && id in rows && r == rows[id].(status := VerificationStatus(e)))
            || (IsVerification(e.typ) && id == VerificationId(h, e) && id !in rows
                && r == VerificationRow(e.run, WorkTarget(h, e), VerificationStatus(e)))
  {
  }

  lemma {:induction false} CoreTablesStayClosed(h: Hash, t: Tables, e: Event)
    requires RunsClosed(t) && WorksClosed(t) && SessionsClosed(t) && (e.session != "" ==> WorkThere(t, e))
    ensures RunsClosed(After(h, t, e)) && WorksClosed(After(h, t, e)) && SessionsClosed(After(h, t, e))
  {
    KeysGrow(h, t, e);
    WorkPresence(h, t.works, e);
    var u := After(h, t, e);
    forall id | id in u.works ensures WorkRowOk(u, u.works[id]) {
      assert id in t.works ==> u.works[id].run == t.works[id].run;
      assert id !in t.works ==> u.works[id].run == e.run;
    }
    forall id | id in u.sessions ensures SessionRowOk(u, u.sessions[id]) {
      assert id in t.sessions ==> SessionRowOk(t, t.sessions[id]);
      assert id !in t.sessions ==> u.sessions[id] == SessionRow(e.run, AgentStatus(e), e.work);
    }
  }

  lemma {:induction false} ToolCallsStayClosed(h: Hash, t: Tables, e: Event)
    requires ToolCallsClosed(t)
    ensures ToolCallsClosed(After(h, t, e))
  {
    KeysGrow(h, t, e);
    WorkPresence(h, t.works, e);
    var u := After(h, t, e);
    forall id | id in u.toolCalls ensures ToolCallRowOk(u, u.toolCalls[id]) {
      ToolCallRowAfter(h, t.toolCalls, e, id);
    }
  }

  lemma {:induction false} EvidenceStaysClosed(h: Hash, t: Tables, e: Event)
    requires EvidenceClosed(t) && (NewEvidence(h, t, e) ==> WorkThere(t, e))
    ensures EvidenceClosed(After(h, t, e))
  {
    KeysGrow(h, t, e);
    WorkPresence(h, t.works, e);
    var u := After(h, t, e);
    forall id | id in u.evidence ensures EvidenceRowOk(u, u.evidence[id]) {
      assert id in t.evidence ==> u.evidence[id] == t.evidence[id] && EvidenceRowOk(t, t.evidence[id]);
    }
  }

  lemma {:induction false} EventsStayClosed(h: Hash, t: Tables, e: Event)
    requires EventsClosed(t) && (e.id !in t.events ==> NamesGrounded(t, e))
    ensures EventsClosed(After(h, t, e))
  {
    KeysGrow(h, t, e);
    WorkPresence(h, t.works, e);
    NamedPresence(h, t, e);
    var u := After(h, t, e);
    forall id | id in u.events ensures EventRowOk(u, u.events[id]) {
      assert id in t.events ==> u.events[id] == t.events[id] && EventRowOk(t, t.events[id]);
    }
  }

  lemma {:induction false} FallbackTablesStayClosed(h: Hash, t: Tables, e: Event)
    requires VerificationsClosed(t) && DiagnosesClosed(t) && FallbackGrounded(h, t, e)
    requires NewVerification(h, t, e) || NewDiagnosis(h, t, e) ==> WorkThere(t, e)
    requires NewDiagnosis(h, t, e) ==> VerificationThere(t, e)
    ensures VerificationsClosed(After(h, t, e)) && DiagnosesClosed(After(h, t, e))
  {
    KeysGrow(h, t, e);
    WorkPresence(h, t.works, e);
    NamedPresence(h, t, e);
    var u := After(h, t, e);
    forall id | id in u.verifications ensures VerificationRowOk(u, u.verifications[id]) {
      VerificationRowAfter(h, t.verifications, e, id);
    }
    forall id | id in u.diagnoses ensures DiagnosisRowOk(u, u.diagnoses[id]) {
      assert id in t.diagnoses ==> u.diagnoses[id] == t.diagnoses[id] && DiagnosisRowOk(t, t.diagnoses[id]);
    }
  }

  lemma {:induction false} GroundedKeepsClosed(h: Hash, t: Tables, e: Event)
    requires Closed(t) && Grounded(h, t, e)
    ensures Closed(After(h, t, e))
  {
    ReferableKeepsClosed(h, t, e);
  }

  lemma {:induction false} ReferableKeepsClosed(h: Hash, t: Tables, e: Event)
    requires Closed(t) && Referable(h, t, e)
    ensures Closed(After(h, t, e))
  {
    CoreTablesStayClosed(h, t, e);
    ToolCallsStayClosed(h, t, e);
    EvidenceStaysClosed(h, t, e);
    EventsStayClosed(h, t, e);
    FallbackTablesStayClosed(h, t, e);
  }

  lemma {:induction false} ClosedEventGrounded(h: Hash, t: Tables, e: Event)
    requires EventsClosed(After(h, t, e)) && e.id !in t.events
    ensures NamesGrounded(t, e)
  {
    var u := After(h, t, e);
    WorkPresence(h, t.works, e);
    NamedPresence(h, t, e);
    assert EventRowOk(u, u.events[e.id]);
  }

  lemma {:induction false} ClosedWorkThere(h: Hash, t: Tables, e: Event)
    requires Closed(After(h, t, e)) && WorkUsed(h, t, e)
    ensures WorkThere(t, e)
  {
    var u := After(h, t, e);
    WorkPresence(h, t.works, e);
    if e.id !in t.events {
      ClosedEventGrounded(h, t, e);
    } else if e.session != "" {
      assert SessionRowOk(u, u.sessions[e.session]);
    } else if NewDiagnosis(h, t, e) {
      assert DiagnosisRowOk(u, u.diagnoses[h(DiagnosisKey(e.id))]);
    } else if NewVerification(h, t, e) {
      assert VerificationRowOk(u, u.verifications[VerificationId(h, e)]);
    } else {
      assert EvidenceRowOk(u, u.evidence[EvidenceId(h, e)]);
    }
  }

  lemma {:induction false} ClosedFallbackGrounded(h: Hash, t: Tables, e: Event)
    requires VerificationsClosed(After(h, t, e)) && DiagnosesClosed(After(h, t, e))
    ensures FallbackGrounded(h, t, e) && (NewDiagnosis(h, t, e) ==> VerificationThere(t, e))
  {
    var u := After(h, t, e);
    WorkPresence(h, t.works, e);
    NamedPresence(h, t, e);
    if e.work == "" && e.typ.VerificationStarted? {
      assert VerificationRowOk(u, u.verifications[VerificationId(h, e)]);
    }
    if e.typ.FailureDiagnosed? {
      assert DiagnosisRowOk(u, u.diagnoses[h(DiagnosisKey(e.id))]);
    }
  }

  /** Exactly when recording keeps every reference intact, for every event, also one whose id is
      taken: what the rows it writes refer to is there or created with them. */
  lemma {:induction false} RecordKeepsClosedIff(h: Hash, t: Tables, e: Event)
    requires Closed(t)
    ensures Closed(After(h, t, e)) <==> Referable(h, t, e)
  {
    if Referable(h, t, e) {
      ReferableKeepsClosed(h, t, e);
    } else if Closed(After(h, t, e)) {
      ClosedFallbackGrounded(h, t, e);
      if e.id !in t.events {
        ClosedEventGrounded(h, t, e);
      }
      if WorkUsed(h, t, e) {
        ClosedWorkThere(h, t, e);
      }
    }
  }

  /** For an event with a new id that is: the ids it names are there or created by it, and a row
      that falls back to a derived work item finds one. */
  lemma {:induction false} NewEventKeepsClosedIff(h: Hash, t: Tables, e: Event)
    requires Closed(t) && e.id !in t.events
    ensures Closed(After(h, t, e)) <==> Grounded(h, t, e)
  {
    RecordKeepsClosedIff(h, t, e);
  }

  /** A diagnosis without a work id is recorded against a work item that nothing creates. */
  lemma {:induction false} DiagnosisWithoutWorkDangles(h: Hash, e: Event)
    requires e.typ == FailureDiagnosed && e.work == "" && e.evidence == e.toolCall == e.verification == ""
    ensures Closed(Empty) && !Closed(After(h, Empty, e))
  {
    NewEventKeepsClosedIff(h, Empty, e);
  }

  // ---- CHECK clauses ----

  predicate RunStatusAllowed(s: Status) {
    s.Created? || s.Scoped? || s.Executing? || s.Verifying? || s.Completed? || s.Blocked? || s.Failed? || s.Cancelled?
    || (s.OtherStatus? && AdmittedWord(s.word))
  }

  /** The words of the CHECK clause on runs that are no lifecycle. */
  predicate AdmittedWord(word: string) {
    word in ["created", "scoped", "planned", "executing", "verifying", "reporting", "completed"]
  }

  /** The lifecycle, if any, stands for a run status: it is not inactive, and a word that is no
      lifecycle is itself in the CHECK set. */
  predicate Admitted(l: LifecycleWord) {
    match l
    case NoLifecycle => true
    case Known(v) => v != SessionState.Inactive
    case Unlisted(word) => AdmittedWord(word)
  }

  predicate WorkStatusAllowed(s: Status) { s.Ready? || s.Running? || s.Completed? || s.Verified? || s.Blocked? || s.Failed? || s.Cancelled? }
  predicate SessionStatusAllowed(s: Status) { s.Running? || s.Stopped? || s.Crashed? }
  predicate VerificationStatusAllowed(s: Status) { s.Pending? || s.Running? || s.Passed? || s.Failed? || s.Blocked? }
  predicate ToolStatusAllowed(s: Status) { s.Started? || s.Allowed? || s.Blocked? || s.Completed? || s.Failed? }

  /** The word that a status column holds. */
  function Word(s: Status): string {
    match s
    case NoStatus => ""
    case Created => "created"
    case Scoped => "scoped"
    case Ready => "ready"
    case Spawning => "spawning"
    case Executing => "executing"
    case Verifying => "verifying"
    case Completed => "completed"
    case Verified => "verified"
    case Blocked => "blocked"
    case Failed => "failed"
    case Cancelled => "cancelled"
    case Inactive => "inactive"
    case Running => "running"
    case Stopped => "stopped"
    case Crashed => "crashed"
    case Started => "started"
    case Allowed => "allowed"
    case Warned => "warned"
    case Passed => "passed"
    case Pending => "pending"
    case Diagnosed => "diagnosed"
    case OtherStatus(word) => word
  }

  /** The sets of the CHECK clauses, word by word. */
  const RUN_WORDS: set<string> := {
    "created", "scoped", "planned", "executing", "verifying", "reporting", "completed", "blocked", "failed", "cancelled" }
  const WORK_WORDS: set<string> := {
    "draft", "ready", "claimed", "running", "completed", "verified", "blocked", "failed", "cancelled", "expired" }
  const SESSION_WORDS: set<string> := {
    "spawn_requested", "starting", "running", "idle", "stale", "stopped", "crashed", "orphaned" }
  const VERIFICATION_WORDS: set<string> := { "pending", "running", "passed", "failed", "blocked", "needs_review" }
  const TOOL_WORDS: set<string> := { "started", "allowed", "blocked", "completed", "failed" }

  /** A status passes exactly if the clause of its table lists its word; words that are lifecycles reach
      the ledger as such. */
  lemma {:induction false} RunWordAllowed(s: Status)
    requires !s.OtherStatus? || s.word !in ["blocked", "failed", "cancelled"]
    ensures RunStatusAllowed(s) <==> Word(s) in RUN_WORDS
  {
  }

  lemma {:induction false} WorkWordAllowed(s: Status)
    requires !s.OtherStatus?
    ensures WorkStatusAllowed(s) <==> Word(s) in WORK_WORDS
  {
  }

  lemma {:induction false} SessionWordAllowed(s: Status)
    requires !s.OtherStatus?
    ensures SessionStatusAllowed(s) <==> Word(s) in SESSION_WORDS
  {
  }

  lemma {:induction false} VerificationWordAllowed(s: Status)
    requires !s.OtherStatus?
    ensures VerificationStatusAllowed(s) <==> Word(s) in VERIFICATION_WORDS
  {
  }

  lemma {:induction false} ToolWordAllowed(s: Status)
    requires !s.OtherStatus?
    ensures ToolStatusAllowed(s) <==> Word(s) in TOOL_WORDS
  {
  }

  ghost predicate RunsChecked(t: Tables) {
    forall id :: id in t.runs ==> RunStatusAllowed(t.runs[id].status)
  }

  ghost predicate WorksChecked(t: Tables) {
    forall id :: id in t.works ==> WorkStatusAllowed(t.works[id].status)
  }

  ghost predicate SessionsChecked(t: Tables) {
    forall id :: id in t.sessions ==> SessionStatusAllowed(t.sessions[id].status)
  }

  ghost predicate VerificationsChecked(t: Tables) {
    forall id :: id in t.verifications ==> VerificationStatusAllowed(t.verifications[id].status)
  }

  ghost predicate ToolCallsChecked(t: Tables) {
    forall id :: id in t.toolCalls ==> ToolStatusAllowed(t.toolCalls[id].status)
  }

  /** Every status column holds a value its CHECK clause lists. */
  ghost predicate Checked(t: Tables) {
    RunsChecked(t) && WorksChecked(t) && SessionsChecked(t) && VerificationsChecked(t) && ToolCallsChecked(t)
  }

  lemma {:induction false} ProjectionsAllowed(e: Event)
    ensures RunStatus(e) != NoStatus ==> (RunStatusAllowed(RunStatus(e)) <==> Admitted(e.lifecycle))
    ensures WorkStatus(e.typ) != NoStatus ==> WorkStatusAllowed(WorkStatus(e.typ))
    ensures SessionStatusAllowed(AgentStatus(e))
    ensures IsVerification(e.typ) ==> VerificationStatusAllowed(VerificationStatus(e))
    ensures ToolStatusAllowed(ToolStatus(e))
  {
  }

  lemma {:induction false} RunsCheckedIff(h: Hash, t: Tables, e: Event)
    requires RunsChecked(t)
    ensures RunsChecked(After(h, t, e)) <==> Admitted(e.lifecycle)
  {
    ProjectionsAllowed(e);
    var u := After(h, t, e);
    UpsertRunStatus(h, t.runs, e, e.run);
    if !Admitted(e.lifecycle) {
      assert !RunStatusAllowed(u.runs[e.run].status);
    } else {
      forall id | id in u.runs ensures RunStatusAllowed(u.runs[id].status) {
        UpsertRunStatus(h, t.runs, e, id);
      }
    }
  }

  lemma {:induction false} WorksStayChecked(h: Hash, t: Tables, e: Event)
    requires WorksChecked(t)
    ensures WorksChecked(After(h, t, e))
  {
    assert After(h, t, e).works == WorksAfter(h, t.works, e);
  }

  lemma {:induction false} SessionsStayChecked(h: Hash, t: Tables, e: Event)
    requires SessionsChecked(t)
    ensures SessionsChecked(After(h, t, e))
  {
    assert After(h, t, e).sessions == SessionsAfter(t.sessions, e);
  }

  lemma {:induction false} ToolCallsStayChecked(h: Hash, t: Tables, e: Event)
    requires ToolCallsChecked(t)
    ensures ToolCallsChecked(After(h, t, e))
  {
    ProjectionsAllowed(e);
    var u := After(h, t, e);
    forall id | id in u.toolCalls ensures ToolStatusAllowed(u.toolCalls[id].status) {
      ToolCallRowAfter(h, t.toolCalls, e, id);
    }
  }

  lemma {:induction false} VerificationsStayChecked(h: Hash, t: Tables, e: Event)
    requires VerificationsChecked(t)
    ensures VerificationsChecked(After(h, t, e))
  {
    ProjectionsAllowed(e);
    var u := After(h, t, e);
    forall id | id in u.verifications ensures VerificationStatusAllowed(u.verifications[id].status) {
      VerificationRowAfter(h, t.verifications, e, id);
    }
  }

  /** The status projections satisfy every CHECK clause except for an event whose lifecycle stands
      for no run status. */
  lemma {:induction false} RecordKeepsCheckedIff(h: Hash, t: Tables, e: Event)
    requires Checked(t)
    ensures Checked(After(h, t, e)) <==> Admitted(e.lifecycle)
  {
    RunsCheckedIff(h, t, e);
    WorksStayChecked(h, t, e);
    SessionsStayChecked(h, t, e);
    VerificationsStayChecked(h, t, e);
    ToolCallsStayChecked(h, t, e);
  }
}
