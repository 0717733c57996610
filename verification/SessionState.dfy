/** The per-session lifecycle files of internal/state/state.go. */
module SessionState {
  import opened Wrappers

  type Id = string

  /** Times are numbers; 0 is Go's zero time. */
  type Time = int

  datatype Lifecycle = Inactive | Running | Blocked | AskUser | Finished | Failed | Cancelled

  datatype Record = Record(lifecycle: Lifecycle, context: string, session: Id, owner: Id, request: Id,
                           updatedAt: Time, heartbeatAt: Time, blockedReason: string,
                           error: Option<string>, metadata: Option<string>)

  /** A session directory: without a state file, with an undecodable one, or with a record. */
  datatype Entry = NoFile | Unreadable | Stored(record: Record)

  type Sessions = map<Id, Entry>

  datatype Input = Input(to: Option<Lifecycle>, context: string, owner: Id, request: Id,
                         blockedReason: string, error: Option<string>, metadata: Option<string>, now: Time)

  /** What becomes of one atomicWrite: every failure happens before the rename. */
  datatype Write = Written | FailedBeforeMkdir | FailedAfterMkdir

  datatype Fault = SessionIdRequired | ReadError | IllegalTransition | WriteError

  datatype Outcome = Ok(record: Record) | Err(fault: Fault)

  const STALE_OWNER := "stale_owner"

  // ---- The transition graph ----

  predicate IsTerminal(l: Lifecycle) {
    l in {Finished, Failed, Cancelled}
  }

  function AllowedFrom(from: Lifecycle): set<Lifecycle> {
    match from
    case Inactive => {Running}
    case Running => {Blocked, AskUser, Finished, Failed, Cancelled}
    case Blocked => {Running, Failed, Cancelled}
    case AskUser => {Running, Failed, Cancelled}
    case _ => {}
  }

  /** validateTransition succeeds. */
  predicate Legal(from: Lifecycle, to: Lifecycle) {
    !IsTerminal(from) && to in AllowedFrom(from)
  }

  // ---- Specification of the operations ----

  /** The stored record of a session, if it has one. */
  function RecordOf(ss: Sessions, id: Id): Option<Record> {
    if id in ss && ss[id].Stored? then Some(ss[id].record) else None
  }

  function LifecycleOf(ss: Sessions, id: Id): Lifecycle {
    match RecordOf(ss, id) case Some(r) => r.lifecycle case None => Inactive
  }

  predicate Readable(ss: Sessions, id: Id) {
    id in ss ==> !ss[id].Unreadable?
  }

  /** The record that Transition starts from. */
  function Current(ss: Sessions, id: Id): Record {
    match RecordOf(ss, id)
    case Some(r) => r
    case None => Record(Inactive, "", id, "", "", 0, 0, "", None, None)
  }

  function Keep(given: string, previous: string): string {
    if given != "" then given else previous
  }

  /** The record that Transition writes. */
  function Next(current: Record, id: Id, input: Input, now: Time): Record
    requires input.to.Some?
  {
    Record(input.to.value, Keep(input.context, current.context), id, Keep(input.owner, current.owner),
           Keep(input.request, current.request), now,
           if input.to.value == Running then now else current.heartbeatAt,
           input.blockedReason, input.error,
           if input.metadata.Some? then input.metadata else current.metadata)
  }

  function WriteTo(ss: Sessions, id: Id, record: Record, w: Write): Sessions {
    match w
    case Written => ss[id := Stored(record)]
    case FailedBeforeMkdir => ss
    case FailedAfterMkdir => if id in ss then ss else ss[id := NoFile]
  }

  function EffectiveNow(now: Time, clock: Time): Time {
    if now == 0 then clock else now
  }

  function TransitionOutcome(ss: Sessions, id: Id, input: Input, clock: Time, w: Write): Outcome {
    if id == "" then Err(SessionIdRequired)
    else if !Readable(ss, id) then Err(ReadError)
    else if input.to.None? || !Legal(Current(ss, id).lifecycle, input.to.value) then Err(IllegalTransition)
    else if w != Written then Err(WriteError)
    else Ok(Next(Current(ss, id), id, input, EffectiveNow(input.now, clock)))
  }

  function AfterTransition(ss: Sessions, id: Id, input: Input, clock: Time, w: Write): Sessions {
    match TransitionOutcome(ss, id, input, clock, w)
    case Ok(r) => WriteTo(ss, id, r, Written)
    case Err(WriteError) => WriteTo(ss, id, Current(ss, id), w)
    case Err(_) => ss
  }

  predicate IsStale(r: Record, now: Time, timeout: Time) {
    r.lifecycle == Running && r.heartbeatAt != 0 && now - r.heartbeatAt > timeout
  }

  function Expire(r: Record, now: Time): Record {
    r.(lifecycle := Blocked, blockedReason := STALE_OWNER, updatedAt := now)
  }

  /** What one sweep finds when it reads the session directories in the given order. */
  datatype Finding = NothingStale | SweepReadError | Stale(id: Id)

  function Scan(ss: Sessions, timeout: Time, now: Time, order: seq<Id>): Finding {
    if order == [] then NothingStale
    else match RecordOf(ss, order[0])
      case None => SweepReadError
      case Some(r) => if IsStale(r, now, timeout) then Stale(order[0]) else Scan(ss, timeout, now, order[1..])
  }

  lemma {:induction false} ScanFinds(ss: Sessions, timeout: Time, now: Time, order: seq<Id>)
    requires Scan(ss, timeout, now, order).Stale?
    ensures var id := Scan(ss, timeout, now, order).id;
            id in order && RecordOf(ss, id).Some? && IsStale(RecordOf(ss, id).value, now, timeout)
  {
    if !(RecordOf(ss, order[0]).Some? && IsStale(RecordOf(ss, order[0]).value, now, timeout)) {
      ScanFinds(ss, timeout, now, order[1..]);
    }
  }

  function AfterSweep(ss: Sessions, timeout: Time, now: Time, order: seq<Id>, w: Write): Sessions {
    match Scan(ss, timeout, now, order)
    case Stale(id) =>
      ScanFinds(ss, timeout, now, order);
      WriteTo(ss, id, Expire(RecordOf(ss, id).value, now), w)
    case _ => ss
  }

  // ---- The store ----

  class Store {
    var sessions: Sessions
    const heartbeatTimeout: Time

    constructor (timeout: Time)
      ensures sessions == map[]
      ensures heartbeatTimeout == if timeout == 0 then 120_000_000_000 else timeout
    {
      sessions := map[];
      heartbeatTimeout := if timeout == 0 then 120_000_000_000 else timeout;
    }

    method AtomicWrite(id: Id, record: Record, w: Write) returns (ok: bool)
      modifies this
      ensures ok <==> w == Written
      ensures sessions == WriteTo(old(sessions), id, record, w)
    {
      if w == FailedBeforeMkdir {
        return false;
      }
      if id !in sessions {
        sessions := sessions[id := NoFile];
      }
      if w == FailedAfterMkdir {
        return false;
      }
      sessions := sessions[id := Stored(record)];
      ok := true;
    }

    method Transition(id: Id, input: Input, clock: Time, w: Write) returns (r: Outcome)
      modifies this
      ensures r == TransitionOutcome(old(sessions), id, input, clock, w)
      ensures sessions == AfterTransition(old(sessions), id, input, clock, w)
    {
      if id == "" {
        return Err(SessionIdRequired);
      }
      var now := input.now;
      if now == 0 {
        now := clock;
      }
      var current := Record(Inactive, "", id, "", "", 0, 0, "", None, None);
      if id in sessions {
        match sessions[id]
        case Unreadable => return Err(ReadError);
        case NoFile =>
        case Stored(stored) => current := stored;
      }
      if input.to.None? || !Legal(current.lifecycle, input.to.value) {
        return Err(IllegalTransition);
      }
      var next := Fill(current, id, input, now);
      var ok := AtomicWrite(id, next, w);
      r := if ok then Ok(next) else Err(WriteError);
    }

    /** The part of Transition that fills in the new record. */
    static method Fill(current: Record, id: Id, input: Input, now: Time) returns (next: Record)
      requires input.to.Some?
      ensures next == Next(current, id, input, now)
    {
      next := current.(lifecycle := input.to.value, session := id, updatedAt := now);
      if input.context != "" {
        next := next.(context := input.context);
      }
      if input.owner != "" {
        next := next.(owner := input.owner);
      }
      if input.request != "" {
        next := next.(request := input.request);
      }
      if input.metadata.Some? {
        next := next.(metadata := input.metadata);
      }
      next := next.(blockedReason := input.blockedReason, error := input.error);
      if input.to.value == Running {
        next := next.(heartbeatAt := now);
      }
    }

    /** One call marks at most one session. `order` is the directory listing. */
    method MarkStaleHeartbeats(given: Time, clock: Time, order: seq<Id>, w: Write)
      returns (marked: bool, failed: bool)
      modifies this
      ensures var now := EffectiveNow(given, clock);
              && sessions == AfterSweep(old(sessions), heartbeatTimeout, now, order, w)
              && (marked <==> Scan(old(sessions), heartbeatTimeout, now, order).Stale? && w == Written)
              && (failed <==> !Scan(old(sessions), heartbeatTimeout, now, order).NothingStale? && !marked)
    {
      var now := given;
      if now == 0 {
        now := clock;
      }
      marked, failed := false, false;
      var i := 0;
      while i < |order|
        invariant 0 <= i <= |order|
        invariant sessions == old(sessions) && !marked && !failed
        invariant Scan(sessions, heartbeatTimeout, now, order) == Scan(sessions, heartbeatTimeout, now, order[i..])
      {
        var id := order[i];
        if id !in sessions || !sessions[id].Stored? {
          return false, true;
        }
        var record := sessions[id].record;
        if record.lifecycle == Running && record.heartbeatAt != 0 && now - record.heartbeatAt > heartbeatTimeout {
          record := record.(lifecycle := Blocked, blockedReason := STALE_OWNER, updatedAt := now);
          marked := AtomicWrite(id, record, w);
          return marked, !marked;
        }
        i := i + 1;
      }
    }

    /** Other callers' calls, one after the other. */
    method Serve(cs: seq<Call>)
      modifies this
      ensures sessions == Calls(old(sessions), heartbeatTimeout, cs)
    {
      for i := 0 to |cs|
        invariant Calls(sessions, heartbeatTimeout, cs[i..]) == Calls(old(sessions), heartbeatTimeout, cs)
      {
        assert cs[i..][0] == cs[i] && cs[i..][1..] == cs[i + 1..];
        match cs[i]
        case DoTransition(id, input, clock, w) =>
          var _ := Transition(id, input, clock, w);
        case DoSweep(now, order, w) =>
          var _, _ := MarkStaleHeartbeats(now, now, order, w);
      }
    }
  }

  // ---- Callers that do not overlap ----

  datatype Call =
    | DoTransition(id: Id, input: Input, clock: Time, tw: Write)
    | DoSweep(now: Time, order: seq<Id>, sw: Write)

  function Step(ss: Sessions, timeout: Time, c: Call): Sessions {
    match c
    case DoTransition(id, input, clock, w) => AfterTransition(ss, id, input, clock, w)
    case DoSweep(now, order, w) => AfterSweep(ss, timeout, now, order, w)
  }

  /** The call reports success and changes a record. */
  predicate Succeeds(ss: Sessions, timeout: Time, c: Call) {
    match c
    case DoTransition(id, input, clock, w) => TransitionOutcome(ss, id, input, clock, w).Ok?
    case DoSweep(now, order, w) => Scan(ss, timeout, now, order).Stale? && w == Written
  }

  function Calls(ss: Sessions, timeout: Time, cs: seq<Call>): Sessions
    decreases cs
  {
    if cs == [] then ss else Calls(Step(ss, timeout, cs[0]), timeout, cs[1..])
  }

  /** The lifecycles a session goes through, one entry per call. */
  function History(ss: Sessions, timeout: Time, cs: seq<Call>, id: Id): seq<Lifecycle>
    decreases cs
  {
    [LifecycleOf(ss, id)] + if cs == [] then [] else History(Step(ss, timeout, cs[0]), timeout, cs[1..], id)
  }

  /** A walk in the transition graph, with pauses. */
  predicate IsWalk(h: seq<Lifecycle>) {
    forall i :: 0 <= i < |h| - 1 ==> h[i + 1] == h[i] || Legal(h[i], h[i + 1])
  }

  /** A call that is rejected or whose write fails leaves every record as it was. */
  lemma {:induction false} FailedCallChangesNothing(ss: Sessions, timeout: Time, c: Call, id: Id)
    requires !Succeeds(ss, timeout, c)
    ensures RecordOf(Step(ss, timeout, c), id) == RecordOf(ss, id)
  {
    if c.DoSweep? && Scan(ss, timeout, c.now, c.order).Stale? {
      ScanFinds(ss, timeout, c.now, c.order);
    }
  }

  lemma {:induction false} StepIsEdge(ss: Sessions, timeout: Time, c: Call, id: Id)
    ensures RecordOf(Step(ss, timeout, c), id) == RecordOf(ss, id)
         || Legal(LifecycleOf(ss, id), LifecycleOf(Step(ss, timeout, c), id))
  {
    if !Succeeds(ss, timeout, c) {
      FailedCallChangesNothing(ss, timeout, c, id);
    } else if c.DoSweep? {
      ScanFinds(ss, timeout, c.now, c.order);
    }
  }

  /** Over every sequence of calls the history of a session is a walk in the graph. */
  lemma {:induction false} HistoryIsWalk(ss: Sessions, timeout: Time, cs: seq<Call>, id: Id)
    ensures IsWalk(History(ss, timeout, cs, id))
    ensures History(ss, timeout, cs, id)[0] == LifecycleOf(ss, id)
    ensures History(ss, timeout, cs, id)[|History(ss, timeout, cs, id)| - 1] == LifecycleOf(Calls(ss, timeout, cs), id)
    decreases cs
  {
    if cs != [] {
      StepIsEdge(ss, timeout, cs[0], id);
      HistoryIsWalk(Step(ss, timeout, cs[0]), timeout, cs[1..], id);
    }
  }

  /** finished, failed and cancelled are absorbing: the whole record stays as it is. */
  lemma {:induction false} TerminalIsAbsorbing(ss: Sessions, timeout: Time, cs: seq<Call>, id: Id)
    requires IsTerminal(LifecycleOf(ss, id))
    ensures RecordOf(Calls(ss, timeout, cs), id) == RecordOf(ss, id)
    decreases cs
  {
    if cs != [] {
      StepIsEdge(ss, timeout, cs[0], id);
      TerminalIsAbsorbing(Step(ss, timeout, cs[0]), timeout, cs[1..], id);
    }
  }

  /** None of the calls is a transition of that session or a sweep that finds it stale. */
  predicate LeaveAlone(ss: Sessions, timeout: Time, cs: seq<Call>, id: Id)
    decreases cs
  {
    cs != [] ==>
      && (cs[0].DoTransition? ==> cs[0].id != id)
      && (cs[0].DoSweep? ==> Scan(ss, timeout, cs[0].now, cs[0].order) != Stale(id))
      && LeaveAlone(Step(ss, timeout, cs[0]), timeout, cs[1..], id)
  }

  lemma {:induction false} LeftAlone(ss: Sessions, timeout: Time, cs: seq<Call>, id: Id)
    requires LeaveAlone(ss, timeout, cs, id)
    ensures RecordOf(Calls(ss, timeout, cs), id) == RecordOf(ss, id)
    decreases cs
  {
    if cs != [] {
      StepLeavesAlone(ss, timeout, cs[0], id);
      LeftAlone(Step(ss, timeout, cs[0]), timeout, cs[1..], id);
    }
  }

  lemma {:induction false} StepLeavesAlone(ss: Sessions, timeout: Time, c: Call, id: Id)
    requires c.DoTransition? ==> c.id != id
    requires c.DoSweep? ==> Scan(ss, timeout, c.now, c.order) != Stale(id)
    ensures RecordOf(Step(ss, timeout, c), id) == RecordOf(ss, id)
  {
    if c.DoSweep? && Scan(ss, timeout, c.now, c.order).Stale? {
      ScanFinds(ss, timeout, c.now, c.order);
    }
  }

  /** A first write that fails after its directory was made leaves a directory without a
      record, and from then on a sweep that reaches it fails. */
  lemma {:induction false} FailedFirstWriteBreaksSweep(ss: Sessions, timeout: Time, id: Id, input: Input, clock: Time,
                                                       now: Time, before: seq<Id>, after: seq<Id>)
    requires id != "" && id !in ss && input.to == Some(Running)
    requires forall b :: b in before ==> RecordOf(ss, b).Some? && !IsStale(RecordOf(ss, b).value, now, timeout)
    ensures var left := AfterTransition(ss, id, input, clock, FailedAfterMkdir);
            Scan(left, timeout, now, before + [id] + after) == SweepReadError
  {
    var left := AfterTransition(ss, id, input, clock, FailedAfterMkdir);
    var order := before + [id] + after;
    if before == [] {
      assert order[0] == id;
    } else {
      assert order[0] == before[0] && before[0] in before;
      assert order[1..] == before[1..] + [id] + after;
      FailedFirstWriteBreaksSweep(ss, timeout, id, input, clock, now, before[1..], after);
    }
  }

  /** A sweep fails exactly when it meets a session without a record before any stale one. */
  lemma {:induction false} SweepFailsIff(ss: Sessions, timeout: Time, now: Time, order: seq<Id>)
    ensures Scan(ss, timeout, now, order) == SweepReadError <==>
              exists k :: 0 <= k < |order| && BreaksAt(ss, timeout, now, order, k)
  {
    if order != [] {
      var rest := order[1..];
      SweepFailsIff(ss, timeout, now, rest);
      match RecordOf(ss, order[0])
      case None =>
        assert BreaksAt(ss, timeout, now, order, 0);
      case Some(r) =>
        if IsStale(r, now, timeout) {
          assert forall k :: 0 <= k < |order| ==> !BreaksAt(ss, timeout, now, order, k);
        } else {
          forall k | 0 <= k < |rest| ensures BreaksAt(ss, timeout, now, rest, k) <==> BreaksAt(ss, timeout, now, order, k + 1) {
            BreaksLater(ss, timeout, now, order, k);
          }
          assert !BreaksAt(ss, timeout, now, order, 0);
          if exists k :: 0 <= k < |order| && BreaksAt(ss, timeout, now, order, k) {
            var k :| 0 <= k < |order| && BreaksAt(ss, timeout, now, order, k);
            assert BreaksAt(ss, timeout, now, rest, k - 1);
          }
        }
    }
  }

  ghost predicate BreaksAt(ss: Sessions, timeout: Time, now: Time, order: seq<Id>, k: nat)
    requires k < |order|
  {
    && RecordOf(ss, order[k]).None?
    && forall j :: 0 <= j < k ==> RecordOf(ss, order[j]).Some? && !IsStale(RecordOf(ss, order[j]).value, now, timeout)
  }

  lemma {:induction false} BreaksLater(ss: Sessions, timeout: Time, now: Time, order: seq<Id>, k: nat)
    requires k + 1 < |order| && RecordOf(ss, order[0]).Some? && !IsStale(RecordOf(ss, order[0]).value, now, timeout)
    ensures BreaksAt(ss, timeout, now, order[1..], k) <==> BreaksAt(ss, timeout, now, order, k + 1)
  {
    if BreaksAt(ss, timeout, now, order[1..], k) {
      forall j | 0 <= j < k + 1 ensures RecordOf(ss, order[j]).Some? && !IsStale(RecordOf(ss, order[j]).value, now, timeout) {
        assert j > 0 ==> order[1..][j - 1] == order[j];
      }
    } else if BreaksAt(ss, timeout, now, order, k + 1) {
      assert forall j :: 0 <= j < k ==> order[1..][j] == order[j + 1];
      assert BreaksAt(ss, timeout, now, order[1..], k);
    }
  }

  // ---- Repeating the sweep ----

  predicate Distinct(order: seq<Id>) {
    forall i, j :: 0 <= i < j < |order| ==> order[i] != order[j]
  }

  /** How many sessions of the listing have records before the first one that has none. */
  function ReadableLength(ss: Sessions, order: seq<Id>): (n: nat)
    ensures n <= |order|
    ensures forall i :: 0 <= i < n ==> RecordOf(ss, order[i]).Some?
    ensures n < |order| ==> RecordOf(ss, order[n]).None?
  {
    if order == [] || RecordOf(ss, order[0]).None? then 0 else 1 + ReadableLength(ss, order[1..])
  }

  function StaleCount(ss: Sessions, timeout: Time, now: Time, order: seq<Id>): nat {
    if order == [] then 0
    else
      (match RecordOf(ss, order[0]) case Some(r) => (if IsStale(r, now, timeout) then 1 else 0) case None => 0)
      + StaleCount(ss, timeout, now, order[1..])
  }

  function Sweeps(ss: Sessions, timeout: Time, now: Time, order: seq<Id>, k: nat): Sessions
    decreases k
  {
    if k == 0 then ss else Sweeps(AfterSweep(ss, timeout, now, order, Written), timeout, now, order, k - 1)
  }

  /** Exactly the stale ones among the listed sessions blocked, all others untouched. */
  function Expired(ss: Sessions, timeout: Time, now: Time, listed: seq<Id>): Sessions {
    map id | id in ss ::
      if id in listed && ss[id].Stored? && IsStale(ss[id].record, now, timeout) then Stored(Expire(ss[id].record, now)) else ss[id]
  }

  predicate AllReadable(ss: Sessions, order: seq<Id>) {
    forall i :: 0 <= i < |order| ==> RecordOf(ss, order[i]).Some?
  }

  lemma {:induction false} ScanCounts(ss: Sessions, timeout: Time, now: Time, order: seq<Id>)
    requires AllReadable(ss, order)
    ensures !Scan(ss, timeout, now, order).SweepReadError?
    ensures Scan(ss, timeout, now, order).Stale? <==> StaleCount(ss, timeout, now, order) > 0
    ensures Scan(ss, timeout, now, order).NothingStale? ==>
              forall i :: 0 <= i < |order| ==> !IsStale(RecordOf(ss, order[i]).value, now, timeout)
  {
    if order != [] {
      ScanCounts(ss, timeout, now, order[1..]);
      assert forall i :: 0 < i < |order| ==> order[i] == order[1..][i - 1];
    }
  }

  lemma {:induction false} CountUnaffected(ss: Sessions, ts: Sessions, timeout: Time, now: Time, order: seq<Id>)
    requires forall i :: 0 <= i < |order| ==> RecordOf(ss, order[i]) == RecordOf(ts, order[i])
    ensures StaleCount(ss, timeout, now, order) == StaleCount(ts, timeout, now, order)
  {
    if order != [] {
      CountUnaffected(ss, ts, timeout, now, order[1..]);
    }
  }

  lemma {:induction false} ExpireLowersCount(ss: Sessions, timeout: Time, now: Time, order: seq<Id>, id: Id)
    requires Distinct(order)
    requires id in order && RecordOf(ss, id).Some? && IsStale(RecordOf(ss, id).value, now, timeout)
    ensures var ts := ss[id := Stored(Expire(ss[id].record, now))];
            StaleCount(ts, timeout, now, order) == StaleCount(ss, timeout, now, order) - 1
  {
    var ts := ss[id := Stored(Expire(ss[id].record, now))];
    if order[0] == id {
      assert forall i :: 0 <= i < |order[1..]| ==> order[1..][i] == order[i + 1];
      CountUnaffected(ss, ts, timeout, now, order[1..]);
    } else {
      ExpireLowersCount(ss, timeout, now, order[1..], id);
    }
  }

  /** Sweeps see the listing only up to its first session without a record. */
  lemma {:induction false} ScanStopsAtUnreadable(ss: Sessions, timeout: Time, now: Time, order: seq<Id>)
    ensures var m := ReadableLength(ss, order);
            var seen := Scan(ss, timeout, now, order[..m]);
            Scan(ss, timeout, now, order) == if seen.Stale? || m == |order| then seen else SweepReadError
  {
    var m := ReadableLength(ss, order);
    if m > 0 {
      ScanStopsAtUnreadable(ss, timeout, now, order[1..]);
      assert order[..m][1..] == order[1..][..m - 1];
    } else if order != [] {
      assert order[..m] == [];
    }
  }

  /** One successful sweep over readable sessions: the stale count drops by one, nothing else
      changes, and the final picture stays the same. */
  lemma {:induction false} SweepMakesProgress(ss: Sessions, timeout: Time, now: Time, order: seq<Id>)
    requires Distinct(order) && AllReadable(ss, order)
    ensures var found := Scan(ss, timeout, now, order);
            var ts := AfterSweep(ss, timeout, now, order, Written);
            && (found.Stale? <==> StaleCount(ss, timeout, now, order) > 0)
            && (!found.Stale? ==> found.NothingStale? && ts == ss == Expired(ss, timeout, now, order))
            && (found.Stale? ==> StaleCount(ts, timeout, now, order) == StaleCount(ss, timeout, now, order) - 1)
            && Expired(ts, timeout, now, order) == Expired(ss, timeout, now, order)
  {
    ScanCounts(ss, timeout, now, order);
    if Scan(ss, timeout, now, order).Stale? {
      ScanFinds(ss, timeout, now, order);
      ExpireLowersCount(ss, timeout, now, order, Scan(ss, timeout, now, order).id);
    }
  }

  /** A sweep never changes which sessions have records. */
  lemma {:induction false} SweepKeepsReadable(ss: Sessions, timeout: Time, now: Time, order: seq<Id>, id: Id)
    ensures RecordOf(AfterSweep(ss, timeout, now, order, Written), id).Some? <==> RecordOf(ss, id).Some?
  {
    if Scan(ss, timeout, now, order).Stale? {
      ScanFinds(ss, timeout, now, order);
    }
  }

  lemma {:induction false} SameReadableLength(ss: Sessions, ts: Sessions, order: seq<Id>)
    requires forall i :: 0 <= i < |order| ==> (RecordOf(ts, order[i]).Some? <==> RecordOf(ss, order[i]).Some?)
    ensures ReadableLength(ts, order) == ReadableLength(ss, order)
  {
  }

  /** Repeating the sweep marks a session exactly as often as there are stale ones ahead of the
      first session without a record, leaves exactly those blocked with stale_owner, and from
      then on reports nothing, or fails if there is such a session. */
  lemma {:induction false} SweepsAreComplete(ss: Sessions, timeout: Time, now: Time, order: seq<Id>, k: nat)
    requires Distinct(order)
    ensures var seen := order[..ReadableLength(ss, order)];
            var n := StaleCount(ss, timeout, now, seen);
            var left := Sweeps(ss, timeout, now, order, k);
            && (k < n ==> Scan(left, timeout, now, order).Stale?)
            && (k >= n ==>
                  && left == Expired(ss, timeout, now, seen)
                  && Scan(left, timeout, now, order) == if |seen| == |order| then NothingStale else SweepReadError)
    decreases k
  {
    var m := ReadableLength(ss, order);
    var seen := order[..m];
    ScanStopsAtUnreadable(ss, timeout, now, order);
    SweepMakesProgress(ss, timeout, now, seen);
    if k > 0 {
      var ts := AfterSweep(ss, timeout, now, order, Written);
      assert ts == AfterSweep(ss, timeout, now, seen, Written);
      forall i | 0 <= i < |order| ensures RecordOf(ts, order[i]).Some? <==> RecordOf(ss, order[i]).Some? {
        SweepKeepsReadable(ss, timeout, now, order, order[i]);
      }
      SameReadableLength(ss, ts, order);
      SweepsAreComplete(ts, timeout, now, order, k - 1);
    }
  }

  /** `order` lists every session directory once. */
  ghost predicate Lists(order: seq<Id>, ss: Sessions) {
    Distinct(order) && forall id :: id in order <==> id in ss
  }

  /** In particular, when every session has a record, exactly the stale sessions end up blocked. */
  lemma {:induction false} SweepsReachEverySession(ss: Sessions, timeout: Time, now: Time, order: seq<Id>, k: nat)
    requires Lists(order, ss) && forall id :: id in ss ==> ss[id].Stored?
    requires k >= StaleCount(ss, timeout, now, order)
    ensures var left := Sweeps(ss, timeout, now, order, k);
            && Scan(left, timeout, now, order).NothingStale? && left.Keys == ss.Keys
            && forall id :: id in ss ==>
                 RecordOf(left, id) == Some(if IsStale(ss[id].record, now, timeout) then Expire(ss[id].record, now) else ss[id].record)
  {
    forall i | 0 <= i < |order| ensures RecordOf(ss, order[i]).Some? {
      assert order[i] in ss;
    }
    assert order[..|order|] == order;
    SweepsAreComplete(ss, timeout, now, order, k);
  }

  // ---- The rules in plain terms ----

  /** The allowed transitions, one by one. */
  const EDGES: set<(Lifecycle, Lifecycle)> := {
    (Inactive, Running),
    (Running, Blocked), (Running, AskUser), (Running, Finished), (Running, Failed), (Running, Cancelled),
    (Blocked, Running), (Blocked, Failed), (Blocked, Cancelled),
    (AskUser, Running), (AskUser, Failed), (AskUser, Cancelled) }

  lemma {:induction false} LegalIsTable(from: Lifecycle, to: Lifecycle)
    ensures Legal(from, to) <==> (from, to) in EDGES
  {
  }

  /** The terminal lifecycles are those from which nothing leads on. */
  lemma {:induction false} TerminalIffNoEdge(l: Lifecycle)
    ensures IsTerminal(l) <==> forall to: Lifecycle :: (l, to) !in EDGES
    ensures IsTerminal(l) <==> l == Finished || l == Failed || l == Cancelled
  {
    if !IsTerminal(l) {
      assert (l, Running) in EDGES || (l, Failed) in EDGES;
    }
  }

  /** When a transition goes through, and what it reports otherwise. */
  lemma {:induction false} TransitionFaults(ss: Sessions, id: Id, input: Input, clock: Time, w: Write)
    ensures var r := TransitionOutcome(ss, id, input, clock, w);
            && (id == "" ==> r == Err(SessionIdRequired))
            && (id != "" && id in ss && ss[id].Unreadable? ==> r == Err(ReadError))
            && (id != "" && (id in ss ==> !ss[id].Unreadable?) ==>
                  && (input.to.None? || (LifecycleOf(ss, id), input.to.value) !in EDGES ==> r == Err(IllegalTransition))
                  && (input.to.Some? && (LifecycleOf(ss, id), input.to.value) in EDGES ==>
                        (w == Written <==> r.Ok?) && (w != Written ==> r == Err(WriteError))))
  {
    if input.to.Some? {
      LegalIsTable(LifecycleOf(ss, id), input.to.value);
    }
  }

  /** The record that a transition stores: the new lifecycle and time, a heartbeat exactly when it
      starts to run, what the caller gives, and what it leaves out taken from the record before. */
  lemma {:induction false} TransitionStores(ss: Sessions, id: Id, input: Input, clock: Time)
    requires TransitionOutcome(ss, id, input, clock, Written).Ok?
    ensures var now := if input.now == 0 then clock else input.now;
            var was := Current(ss, id);
            var r := TransitionOutcome(ss, id, input, clock, Written).record;
            && RecordOf(AfterTransition(ss, id, input, clock, Written), id) == Some(r)
            && Some(r.lifecycle) == input.to && r.session == id && r.updatedAt == now
            && (r.lifecycle == Running ==> r.heartbeatAt == now)
            && (r.lifecycle != Running ==> r.heartbeatAt == was.heartbeatAt)
            && r.blockedReason == input.blockedReason && r.error == input.error
    ensures var was := Current(ss, id);
            var r := TransitionOutcome(ss, id, input, clock, Written).record;
            && (input.context != "" ==> r.context == input.context) && (input.context == "" ==> r.context == was.context)
            && (input.owner != "" ==> r.owner == input.owner) && (input.owner == "" ==> r.owner == was.owner)
            && (input.request != "" ==> r.request == input.request) && (input.request == "" ==> r.request == was.request)
            && (input.metadata.Some? ==> r.metadata == input.metadata) && (input.metadata.None? ==> r.metadata == was.metadata)
  {
  }

  /** A session without a record starts from inactive with nothing filled in. */
  lemma {:induction false} FreshSession(ss: Sessions, id: Id)
    requires RecordOf(ss, id).None?
    ensures var r := Current(ss, id);
            && r.lifecycle == Inactive && r.session == id && r.heartbeatAt == 0 && r.context == r.owner == r.request == ""
            && r.metadata == None
  {
  }

  /** A record is stale exactly when it is running, has a heartbeat, and that is older than the timeout. */
  lemma {:induction false} StaleIff(r: Record, now: Time, timeout: Time)
    ensures IsStale(r, now, timeout) <==> r.lifecycle == Running && r.heartbeatAt != 0 && r.heartbeatAt + timeout < now
  {
  }

  /** Marking a session blocks it with its reason and time, and keeps everything else. */
  lemma {:induction false} ExpiredRecord(r: Record, now: Time)
    ensures var x := Expire(r, now);
            && x.lifecycle == Blocked && x.blockedReason == "stale_owner" && x.updatedAt == now
            && x.heartbeatAt == r.heartbeatAt && x.context == r.context && x.session == r.session && x.owner == r.owner
            && x.request == r.request && x.error == r.error && x.metadata == r.metadata
  {
  }

  /** A sweep finds exactly the first stale session of the listing, if everything before it is readable. */
  lemma {:induction false} SweepFindsFirst(ss: Sessions, timeout: Time, now: Time, order: seq<Id>, k: nat)
    requires k < |order| && RecordOf(ss, order[k]).Some? && IsStale(RecordOf(ss, order[k]).value, now, timeout)
    requires forall j :: 0 <= j < k ==> RecordOf(ss, order[j]).Some? && !IsStale(RecordOf(ss, order[j]).value, now, timeout)
    ensures Scan(ss, timeout, now, order) == Stale(order[k])
  {
    if k > 0 {
      assert order[1..][k - 1] == order[k];
      assert forall j :: 0 <= j < k - 1 ==> order[1..][j] == order[j + 1];
      SweepFindsFirst(ss, timeout, now, order[1..], k - 1);
    }
  }
}
