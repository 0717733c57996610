/** How many rows a series of recorded events leaves: derived ids collapse events that agree on run,
    type, request and time stamp into one row, and with it their tool call or evidence. */
module EventRows {
  import opened Ledger
  import opened Verification
  import opened RunPipeline
  import opened RunAgreement
  import opened RunClosure

  // ---- Counting rows ----

  /** Each id is new when its turn comes. */
  ghost predicate AllNew(keys: set<Id>, ids: seq<Id>) {
    && (forall i :: 0 <= i < |ids| ==> ids[i] !in keys)
    && (forall i, j :: 0 <= i < j < |ids| ==> ids[i] != ids[j])
  }

  function AddAll(keys: set<Id>, ids: seq<Id>): set<Id>
    decreases |ids|
  {
    if ids == [] then keys else AddAll(keys, ids[..|ids| - 1]) + {ids[|ids| - 1]}
  }

  lemma {:induction false} AddAllMembers(keys: set<Id>, ids: seq<Id>, id: Id)
    ensures id in AddAll(keys, ids) <==> id in keys || id in ids
    decreases |ids|
  {
    if ids != [] {
      var n := |ids| - 1;
      AddAllMembers(keys, ids[..n], id);
      assert ids == ids[..n] + [ids[n]];
    }
  }

  lemma {:induction false} AllNewSnoc(keys: set<Id>, ids: seq<Id>)
    requires ids != []
    ensures var n := |ids| - 1;
            AllNew(keys, ids) <==> AllNew(keys, ids[..n]) && ids[n] !in AddAll(keys, ids[..n])
  {
    var n := |ids| - 1;
    AddAllMembers(keys, ids[..n], ids[n]);
    if AllNew(keys, ids[..n]) && ids[n] !in AddAll(keys, ids[..n]) {
      forall i, j | 0 <= i < j < |ids| ensures ids[i] != ids[j] {
        assert ids[..n][i] == ids[i];
        assert j < n ==> ids[..n][j] == ids[j];
      }
      forall i | 0 <= i < |ids| ensures ids[i] !in keys {
        assert i < n ==> ids[..n][i] == ids[i];
      }
    }
  }

  /** As many keys are added as there are ids exactly when each id is new. */
  lemma {:induction false} CountIff(keys: set<Id>, ids: seq<Id>)
    ensures |AddAll(keys, ids)| <= |keys| + |ids|
    ensures |AddAll(keys, ids)| == |keys| + |ids| <==> AllNew(keys, ids)
    decreases |ids|
  {
    if ids != [] {
      CountIff(keys, ids[..|ids| - 1]);
      AllNewSnoc(keys, ids);
    }
  }

  // ---- Event rows ----

  /** The primary keys that the events get. */
  function EventIds(h: Hash, root: string, es: seq<Event>): (r: seq<Id>)
    ensures |r| == |es|
  {
    seq(|es|, i requires 0 <= i < |es| => Normalise(h, root, es[i]).id)
  }

  lemma {:induction false} AddAllSnoc(keys: set<Id>, ids: seq<Id>, id: Id)
    ensures AddAll(keys, ids + [id]) == AddAll(keys, ids) + {id}
  {
    assert (ids + [id])[..|ids|] == ids;
  }

  /** Recording the event leads from these tables to those. */
  ghost predicate Steps(h: Hash, root: string, e: Event, before: Tables, after: Tables) {
    after == Record(h, root, before, e)
  }

  ghost predicate Path(h: Hash, root: string, es: seq<Event>, stages: seq<Tables>) {
    |stages| == |es| + 1 && forall i :: 0 <= i < |es| ==> Steps(h, root, es[i], stages[i], stages[i + 1])
  }

  /** The tables before and after each event of a replay. */
  lemma {:induction false} ReplayPath(h: Hash, root: string, t: Tables, es: seq<Event>) returns (stages: seq<Tables>)
    ensures Path(h, root, es, stages) && stages[0] == t && stages[|es|] == Replay(h, root, t, es)
    decreases |es|
  {
    if es == [] {
      stages := [t];
    } else {
      var n := |es| - 1;
      var before := ReplayPath(h, root, t, es[..n]);
      stages := before + [Replay(h, root, t, es)];
      assert Steps(h, root, es[n], stages[n], stages[n + 1]);
      PathSnoc(h, root, es, before, stages[n + 1]);
    }
  }

  lemma {:induction false} PathSnoc(h: Hash, root: string, es: seq<Event>, stages: seq<Tables>, last: Tables)
    requires es != [] && Path(h, root, es[..|es| - 1], stages) && Steps(h, root, es[|es| - 1], stages[|es| - 1], last)
    ensures Path(h, root, es, stages + [last])
  {
    var n, next := |es| - 1, stages + [last];
    forall i | 0 <= i < |es| ensures Steps(h, root, es[i], next[i], next[i + 1]) {
      if i < n {
        assert Steps(h, root, es[..n][i], stages[i], stages[i + 1]);
      }
    }
  }

  lemma {:induction false} EventKeyNext(h: Hash, root: string, e: Event, before: Tables, after: Tables)
    requires Steps(h, root, e, before, after)
    ensures after.events.Keys == before.events.Keys + {Normalise(h, root, e).id}
  {
    assert after.events == EventsAfter(before.events, Normalise(h, root, e));
  }

  lemma {:induction false} EventKeysAlong(h: Hash, root: string, es: seq<Event>, stages: seq<Tables>, ids: seq<Id>, i: nat)
    requires Path(h, root, es, stages) && ids == EventIds(h, root, es) && i <= |es|
    ensures stages[i].events.Keys == AddAll(stages[0].events.Keys, ids[..i])
  {
    if i > 0 {
      EventKeysAlong(h, root, es, stages, ids, i - 1);
      assert Steps(h, root, es[i - 1], stages[i - 1], stages[i - 1 + 1]);
      EventKeyNext(h, root, es[i - 1], stages[i - 1], stages[i]);
      AddAllSnoc(stages[0].events.Keys, ids[..i - 1], ids[i - 1]);
      assert ids[..i] == ids[..i - 1] + [ids[i - 1]];
    }
  }

  lemma {:induction false} EventKeysAfter(h: Hash, root: string, t: Tables, es: seq<Event>)
    ensures Replay(h, root, t, es).events.Keys == AddAll(t.events.Keys, EventIds(h, root, es))
  {
    var stages := ReplayPath(h, root, t, es);
    var ids := EventIds(h, root, es);
    EventKeysAlong(h, root, es, stages, ids, |es|);
    assert ids[..|es|] == ids;
  }

  /** The events table gains one row per recorded event exactly when their ids are all new. */
  lemma {:induction false} OneRowPerEventIff(h: Hash, root: string, t: Tables, es: seq<Event>)
    ensures |Replay(h, root, t, es).events| == |t.events| + |es| <==> AllNew(t.events.Keys, EventIds(h, root, es))
  {
    EventKeysAfter(h, root, t, es);
    CountIff(t.events.Keys, EventIds(h, root, es));
    assert |t.events.Keys| == |t.events|;
    assert |Replay(h, root, t, es).events.Keys| == |Replay(h, root, t, es).events|;
  }

  ghost predicate Injective(h: Hash) {
    forall k1, k2 :: h(k1) == h(k2) ==> k1 == k2
  }

  /** With a hash that never collides, two events that carry no id of their own share a row exactly
      when they agree on run, type, request and stamp. */
  lemma {:induction false} ShareRowIff(h: Hash, root: string, a: Event, b: Event)
    requires Injective(h) && a.id == b.id == "" && a.run != "" && b.run != ""
    ensures Normalise(h, root, a).id == Normalise(h, root, b).id <==>
              a.run == b.run && a.typ == b.typ && a.request == b.request && a.stamp == b.stamp
  {
    var k1, k2 := EventKey(a.run, a.typ, a.request, a.stamp), EventKey(b.run, b.typ, b.request, b.stamp);
    assert Normalise(h, root, a).id == h(k1) && Normalise(h, root, b).id == h(k2);
  }

  /** What the id of an event without one of its own is derived from. */
  function KeyOf(e: Event): IdKey {
    EventKey(e.run, e.typ, e.request, e.stamp)
  }

  ghost predicate DistinctKeys(es: seq<Event>) {
    forall i, j :: 0 <= i < j < |es| ==> KeyOf(es[i]) != KeyOf(es[j])
  }

  predicate Unnamed(e: Event) {
    e.id == "" && e.run != ""
  }

  lemma {:induction false} DerivedId(h: Hash, root: string, e: Event)
    requires Unnamed(e)
    ensures Normalise(h, root, e).id == h(KeyOf(e))
  {
  }

  /** With a hash that never collides, events without ids of their own leave one row each exactly when
      no two of them agree on run, type, request and stamp, given that none has a row yet. */
  lemma {:induction false} OneRowPerKeyIff(h: Hash, root: string, t: Tables, es: seq<Event>)
    requires Injective(h) && forall i :: 0 <= i < |es| ==> Unnamed(es[i]) && h(KeyOf(es[i])) !in t.events
    ensures |Replay(h, root, t, es).events| == |t.events| + |es| <==> DistinctKeys(es)
  {
    var ids := EventIds(h, root, es);
    forall i | 0 <= i < |es| ensures ids[i] == h(KeyOf(es[i])) {
      DerivedId(h, root, es[i]);
    }
    OneRowPerEventIff(h, root, t, es);
    KeysNewIff(h, t.events.Keys, es, ids);
  }

  lemma {:induction false} KeysNewIff(h: Hash, keys: set<Id>, es: seq<Event>, ids: seq<Id>)
    requires Injective(h) && |ids| == |es|
    requires forall i :: 0 <= i < |es| ==> ids[i] == h(KeyOf(es[i])) && ids[i] !in keys
    ensures AllNew(keys, ids) <==> DistinctKeys(es)
  {
    forall i, j | 0 <= i < j < |es| ensures ids[i] == ids[j] <==> KeyOf(es[i]) == KeyOf(es[j]) {
      assert h(KeyOf(es[i])) == h(KeyOf(es[j])) ==> KeyOf(es[i]) == KeyOf(es[j]);
    }
  }

  lemma {:induction false} CommittedOwn(ids: Ids, log: seq<Attempt>)
    requires OwnAttempts(ids, log)
    ensures forall i :: 0 <= i < |Committed(log)| ==> OwnEvent(ids, Committed(log)[i])
    decreases |log|
  {
    if log != [] {
      CommittedOwn(ids, log[..|log| - 1]);
    }
  }

  /** A run of which the events table has no row yet leaves one row per accepted event exactly when
      no two of these agree on type, request and stamp. */
  lemma {:induction false} RunRowsIff(h: Hash, root: string, t: Tables, env: Env, req: Request, ids: Ids, w: World)
    requires Injective(h) && Generated(ids)
    requires forall typ: EventType, request: Id, stamp: string :: h(EventKey(ids.run, typ, request, stamp)) !in t.events
    ensures var es := Committed(ExitLog(env, req, ids, w));
            |TablesOf(h, root, t, ExitLog(env, req, ids, w)).events| == |t.events| + |es| <==> DistinctKeys(es)
  {
    var es := Committed(ExitLog(env, req, ids, w));
    ExitLogOwn(env, req, ids, w);
    CommittedOwn(ids, ExitLog(env, req, ids, w));
    forall i | 0 <= i < |es| ensures Unnamed(es[i]) && h(KeyOf(es[i])) !in t.events {
      assert OwnEvent(ids, es[i]);
    }
    OneRowPerKeyIff(h, root, t, es);
  }

  /** Two recorded events of a worker's stream share a row exactly when they became the same type of
      event and carry the same stamp, their own or the recorder's. */
  lemma {:induction false} StreamEventsShareRowIff(h: Hash, root: string, env: Env, req: Request, ids: Ids,
                                                   a: WorkerEvent, n: nat, b: WorkerEvent, m: nat)
    requires Injective(h) && Generated(ids)
    ensures var x := Stamp(env, n, Fill(req, WorkerEventToStorage(a, ids)));
            var y := Stamp(env, m, Fill(req, WorkerEventToStorage(b, ids)));
            Normalise(h, root, x).id == Normalise(h, root, y).id <==> x.typ == y.typ && x.stamp == y.stamp
  {
    StreamEventKey(env, req, ids, a, n);
    StreamEventKey(env, req, ids, b, m);
    ShareRowIff(h, root, Stamp(env, n, Fill(req, WorkerEventToStorage(a, ids))), Stamp(env, m, Fill(req, WorkerEventToStorage(b, ids))));
  }

  lemma {:induction false} StreamEventKey(env: Env, req: Request, ids: Ids, a: WorkerEvent, n: nat)
    requires Generated(ids)
    ensures var x := Stamp(env, n, Fill(req, WorkerEventToStorage(a, ids)));
            && x.id == "" && x.run == ids.run && x.request == req.requestId
            && x.stamp == if a.stamp == "" then env.clock(n) else a.stamp
  {
  }

  // ---- Evidence rows ----

  /** The evidence events of a verification as they are recorded from attempt n on. */
  function StampedEvidence(env: Env, n: nat, o: PlanOptions, evidence: seq<CheckEvidence>): (r: seq<Event>)
    ensures |r| == |evidence|
  {
    seq(|evidence|, i requires 0 <= i < |evidence| => Stamp(env, n + i, EvidenceEvent(o, evidence[i])))
  }

  function EvidenceIds(h: Hash, root: string, es: seq<Event>): (r: seq<Id>)
    ensures |r| == |es|
  {
    seq(|es|, i requires 0 <= i < |es| => EvidenceId(h, Normalise(h, root, es[i])))
  }

  lemma {:induction false} EvidenceKeyNext(h: Hash, root: string, e: Event, before: Tables, after: Tables)
    requires Steps(h, root, e, before, after) && e.typ == EvidenceCreated
    ensures after.evidence.Keys == before.evidence.Keys + {EvidenceId(h, Normalise(h, root, e))}
  {
    assert after.evidence == EvidenceAfter(h, before.evidence, Normalise(h, root, e));
  }

  lemma {:induction false} EvidenceKeysAlong(h: Hash, root: string, es: seq<Event>, stages: seq<Tables>, ids: seq<Id>, i: nat)
    requires Path(h, root, es, stages) && ids == EvidenceIds(h, root, es) && i <= |es|
    requires forall j :: 0 <= j < |es| ==> es[j].typ == EvidenceCreated
    ensures stages[i].evidence.Keys == AddAll(stages[0].evidence.Keys, ids[..i])
  {
    if i > 0 {
      EvidenceKeysAlong(h, root, es, stages, ids, i - 1);
      assert Steps(h, root, es[i - 1], stages[i - 1], stages[i - 1 + 1]);
      EvidenceKeyNext(h, root, es[i - 1], stages[i - 1], stages[i]);
      AddAllSnoc(stages[0].evidence.Keys, ids[..i - 1], ids[i - 1]);
      assert ids[..i] == ids[..i - 1] + [ids[i - 1]];
    }
  }

  lemma {:induction false} EvidenceKeysAfter(h: Hash, root: string, t: Tables, es: seq<Event>)
    requires forall i :: 0 <= i < |es| ==> es[i].typ == EvidenceCreated
    ensures Replay(h, root, t, es).evidence.Keys == AddAll(t.evidence.Keys, EvidenceIds(h, root, es))
  {
    var stages := ReplayPath(h, root, t, es);
    var ids := EvidenceIds(h, root, es);
    EvidenceKeysAlong(h, root, es, stages, ids, |es|);
    assert ids[..|es|] == ids;
  }

  lemma {:induction false} EvidenceCountIff(h: Hash, root: string, t: Tables, es: seq<Event>)
    requires forall i :: 0 <= i < |es| ==> es[i].typ == EvidenceCreated
    ensures |Replay(h, root, t, es).evidence| == |t.evidence| + |es| <==> AllNew(t.evidence.Keys, EvidenceIds(h, root, es))
  {
    EvidenceKeysAfter(h, root, t, es);
    CountIff(t.evidence.Keys, EvidenceIds(h, root, es));
    assert |t.evidence.Keys| == |t.evidence|;
    assert |Replay(h, root, t, es).evidence.Keys| == |Replay(h, root, t, es).evidence|;
  }

  /** The id of the evidence that a run records at a given time. */
  function EvidenceIdAt(h: Hash, run: Id, stamp: string): Id {
    h(EvidenceKey(h(EventKey(run, EvidenceCreated, "", stamp))))
  }

  function EvidenceIdsAt(h: Hash, run: Id, stamps: seq<string>): (r: seq<Id>)
    ensures |r| == |stamps|
  {
    seq(|stamps|, i requires 0 <= i < |stamps| => EvidenceIdAt(h, run, stamps[i]))
  }

  /** The times of consecutive attempts. */
  function Stamps(env: Env, n: nat, count: nat): (r: seq<string>)
    ensures |r| == count
  {
    seq(count, i requires 0 <= i < count => env.clock(n + i))
  }

  predicate Distinct(stamps: seq<string>) {
    forall i, j :: 0 <= i < j < |stamps| ==> stamps[i] != stamps[j]
  }

  lemma {:induction false} EvidenceIdIs(h: Hash, root: string, env: Env, n: nat, o: PlanOptions, ev: CheckEvidence)
    requires o.run != ""
    ensures var e := Stamp(env, n, EvidenceEvent(o, ev));
            e.typ == EvidenceCreated && EvidenceId(h, Normalise(h, root, e)) == EvidenceIdAt(h, o.run, env.clock(n))
  {
  }

  lemma {:induction false} EvidenceIdsAre(h: Hash, root: string, env: Env, n: nat, o: PlanOptions, evidence: seq<CheckEvidence>)
    requires o.run != ""
    ensures var es := StampedEvidence(env, n, o, evidence);
            && (forall i :: 0 <= i < |es| ==> es[i].typ == EvidenceCreated)
            && EvidenceIds(h, root, es) == EvidenceIdsAt(h, o.run, Stamps(env, n, |evidence|))
  {
    forall i | 0 <= i < |evidence|
      ensures StampedEvidence(env, n, o, evidence)[i].typ == EvidenceCreated
      ensures EvidenceIds(h, root, StampedEvidence(env, n, o, evidence))[i] == EvidenceIdsAt(h, o.run, Stamps(env, n, |evidence|))[i]
    {
      EvidenceIdIs(h, root, env, n + i, o, evidence[i]);
    }
  }

  lemma {:induction false} SameEvidenceIff(h: Hash, run: Id, a: string, b: string)
    requires Injective(h)
    ensures EvidenceIdAt(h, run, a) == EvidenceIdAt(h, run, b) <==> a == b
  {
    var k1, k2 := EventKey(run, EvidenceCreated, "", a), EventKey(run, EvidenceCreated, "", b);
    assert h(EvidenceKey(h(k1))) == h(EvidenceKey(h(k2))) ==> EvidenceKey(h(k1)) == EvidenceKey(h(k2));
  }

  lemma {:induction false} EvidenceIdsNewIff(h: Hash, run: Id, keys: set<Id>, stamps: seq<string>)
    requires Injective(h) && forall stamp: string :: EvidenceIdAt(h, run, stamp) !in keys
    ensures AllNew(keys, EvidenceIdsAt(h, run, stamps)) <==> Distinct(stamps)
  {
    var ids := EvidenceIdsAt(h, run, stamps);
    forall i, j | 0 <= i < j < |stamps| ensures ids[i] == ids[j] <==> stamps[i] == stamps[j] {
      SameEvidenceIff(h, run, stamps[i], stamps[j]);
    }
  }

  /** The evidence of one verification leaves one row per check exactly when the attempts carry
      pairwise different time stamps, given that the run has no evidence yet. */
  lemma {:induction false} OneRowPerCheckIff(h: Hash, root: string, t: Tables, env: Env, n: nat, o: PlanOptions, evidence: seq<CheckEvidence>)
    requires Injective(h) && o.run != "" && forall stamp: string :: EvidenceIdAt(h, o.run, stamp) !in t.evidence.Keys
    ensures |Replay(h, root, t, StampedEvidence(env, n, o, evidence)).evidence| == |t.evidence| + |evidence|
       <==> Distinct(Stamps(env, n, |evidence|))
  {
    EvidenceIdsAre(h, root, env, n, o, evidence);
    EvidenceCountIff(h, root, t, StampedEvidence(env, n, o, evidence));
    EvidenceIdsNewIff(h, o.run, t.evidence.Keys, Stamps(env, n, |evidence|));
  }

  /** What the log of a completed verification has committed: the stamped evidence, in order. */
  lemma {:induction false} CommittedEvidence(env: Env, log: seq<Attempt>, o: PlanOptions, evidence: seq<CheckEvidence>)
    requires AllAccepted(env, |log|, |evidence|)
    ensures Committed(EmitUntilFailure(env, log, EvidenceEvents(o, evidence))) == Committed(log) + StampedEvidence(env, |log|, o, evidence)
    decreases |evidence|
  {
    if evidence == [] {
      assert EvidenceEvents(o, evidence) == [] && StampedEvidence(env, |log|, o, evidence) == [];
    } else {
      var n := |evidence| - 1;
      var before := EvidenceEvents(o, evidence[..n]);
      var e := EvidenceEvent(o, evidence[n]);
      assert EvidenceEvents(o, evidence) == before + [e];
      AcceptedPrefix(env, |log|, |evidence|, n);
      UntilFailureSnoc(env, log, before, e);
      CommittedEvidence(env, log, o, evidence[..n]);
      CommittedSnoc(env, EmitUntilFailure(env, log, before), e);
      assert StampedEvidence(env, |log|, o, evidence) == StampedEvidence(env, |log|, o, evidence[..n]) + [Stamp(env, |log| + n, e)];
    }
  }

  lemma {:induction false} CommittedSnoc(env: Env, log: seq<Attempt>, e: Event)
    requires Accepted(env, |log|)
    ensures Committed(Emit(env, log, e)) == Committed(log) + [Stamp(env, |log|, e)]
  {
    assert Emit(env, log, e)[..|log|] == log;
  }

  lemma {:induction false} AcceptedPrefix(env: Env, from: nat, count: nat, n: nat)
    requires AllAccepted(env, from, count) && n <= count
    ensures AllAccepted(env, from, n) && (n < count ==> Accepted(env, from + n))
    decreases count
  {
    if n > 0 {
      AcceptedPrefix(env, from + 1, count - 1, n - 1);
    }
  }
}
