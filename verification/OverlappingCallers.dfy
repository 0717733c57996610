/** Any number of callers of state.Store whose reads and writes interleave: Transition and
    MarkStaleHeartbeats read without a lock and only the final write is atomic. */
module OverlappingCallers {
  import opened Wrappers
  import opened SessionState

  type Caller = nat

  /** A caller between its read and its write: what it read and what it is about to store. */
  datatype Pending = Pending(id: Id, read: Record, record: Record)

  datatype Saved = Saved(id: Id, record: Record)

  /** `history` lists every record ever stored, oldest first. */
  datatype System = System(store: map<Id, Record>, pending: map<Caller, Pending>, history: seq<Saved>)

  datatype Action =
    | ReadToTransition(caller: Caller, id: Id, input: Input, now: Time)
    | ReadToSweep(caller: Caller, id: Id, now: Time)
    | Commit(caller: Caller)
    | FailWrite(caller: Caller)

  const Initial := System(map[], map[], [])

  function Read(s: System, id: Id): Record {
    if id in s.store then s.store[id] else Record(Inactive, "", id, "", "", 0, 0, "", None, None)
  }

  predicate Enabled(s: System, timeout: Time, a: Action) {
    match a
    case ReadToTransition(c, id, input, now) =>
      c !in s.pending && id != "" && now != 0 && input.to.Some? && Legal(Read(s, id).lifecycle, input.to.value)
    case ReadToSweep(c, id, now) => c !in s.pending && id in s.store && IsStale(s.store[id], now, timeout)
    case Commit(c) => c in s.pending
    case FailWrite(c) => c in s.pending
  }

  function Do(s: System, timeout: Time, a: Action): System
    requires Enabled(s, timeout, a)
  {
    match a
    case ReadToTransition(c, id, input, now) =>
      s.(pending := s.pending[c := Pending(id, Read(s, id), Next(Read(s, id), id, input, now))])
    case ReadToSweep(c, id, now) =>
      s.(pending := s.pending[c := Pending(id, s.store[id], Expire(s.store[id], now))])
    case Commit(c) =>
      var p := s.pending[c];
      System(s.store[p.id := p.record], s.pending - {c}, s.history + [Saved(p.id, p.record)])
    case FailWrite(c) => s.(pending := s.pending - {c})
  }

  /** Every action of the sequence is enabled when its turn comes. */
  predicate Runs(s: System, timeout: Time, actions: seq<Action>)
    decreases |actions|
  {
    actions == [] || (Enabled(s, timeout, actions[0]) && Runs(Do(s, timeout, actions[0]), timeout, actions[1..]))
  }

  function Exec(s: System, timeout: Time, actions: seq<Action>): System
    requires Runs(s, timeout, actions)
    decreases |actions|
  {
    if actions == [] then s else Exec(Do(s, timeout, actions[0]), timeout, actions[1..])
  }

  /** `record` is one legal edge away from inactive or from one of the first `n` stored records. */
  ghost predicate Justified(h: seq<Saved>, n: nat, id: Id, record: Record)
    requires n <= |h|
  {
    || Legal(Inactive, record.lifecycle)
    || exists j :: 0 <= j < n && h[j].id == id && Legal(h[j].record.lifecycle, record.lifecycle)
  }

  predicate Sound(r: Record) {
    && r.lifecycle != Inactive
    && (r.lifecycle == Running ==> r.heartbeatAt == r.updatedAt != 0)
  }

  ghost predicate Inv(s: System) {
    && (forall i :: 0 <= i < |s.history| ==>
          Justified(s.history, i, s.history[i].id, s.history[i].record) && Sound(s.history[i].record))
    && (forall id :: id in s.store ==> Saved(id, s.store[id]) in s.history)
    && (forall c :: c in s.pending ==>
          && Justified(s.history, |s.history|, s.pending[c].id, s.pending[c].record)
          && Sound(s.pending[c].record)
          && Legal(s.pending[c].read.lifecycle, s.pending[c].record.lifecycle))
  }

  lemma {:induction false} JustifiedLater(h: seq<Saved>, x: Saved, n: nat, id: Id, record: Record)
    requires n <= |h| && Justified(h, n, id, record)
    ensures Justified(h + [x], n, id, record) && Justified(h + [x], |h| + 1, id, record)
  {
    if !Legal(Inactive, record.lifecycle) {
      var j :| 0 <= j < n && h[j].id == id && Legal(h[j].record.lifecycle, record.lifecycle);
      assert (h + [x])[j] == h[j];
    }
  }

  lemma {:induction false} ReadJustifies(s: System, id: Id, record: Record)
    requires Inv(s) && Legal(Read(s, id).lifecycle, record.lifecycle)
    ensures Justified(s.history, |s.history|, id, record)
  {
    if id in s.store {
      assert Saved(id, s.store[id]) in s.history;
    }
  }

  lemma {:induction false} StepKeepsInv(s: System, timeout: Time, a: Action)
    requires Inv(s) && Enabled(s, timeout, a)
    ensures Inv(Do(s, timeout, a))
  {
    match a
    case ReadToTransition(c, id, input, now) =>
      ReadJustifies(s, id, Next(Read(s, id), id, input, now));
    case ReadToSweep(c, id, now) =>
      ReadJustifies(s, id, Expire(s.store[id], now));
    case FailWrite(_) =>
    case Commit(c) =>
      var p := s.pending[c];
      var x := Saved(p.id, p.record);
      var t := Do(s, timeout, a);
      forall i | 0 <= i < |t.history|
        ensures Justified(t.history, i, t.history[i].id, t.history[i].record) && Sound(t.history[i].record)
      {
        if i < |s.history| {
          JustifiedLater(s.history, x, i, s.history[i].id, s.history[i].record);
        } else {
          JustifiedLater(s.history, x, |s.history|, p.id, p.record);
        }
      }
      forall d | d in t.pending
        ensures Justified(t.history, |t.history|, t.pending[d].id, t.pending[d].record)
      {
        JustifiedLater(s.history, x, |s.history|, s.pending[d].id, s.pending[d].record);
      }
      forall id | id in t.store ensures Saved(id, t.store[id]) in t.history {
        if id == p.id {
          assert t.history[|s.history|] == x;
        } else {
          assert Saved(id, s.store[id]) in s.history;
        }
      }
  }

  lemma {:induction false} RunKeepsInv(s: System, timeout: Time, actions: seq<Action>)
    requires Inv(s) && Runs(s, timeout, actions)
    ensures Inv(Exec(s, timeout, actions))
    decreases |actions|
  {
    if actions != [] {
      StepKeepsInv(s, timeout, actions[0]);
      RunKeepsInv(Do(s, timeout, actions[0]), timeout, actions[1..]);
    }
  }

  /** What survives any interleaving: every stored record is one legal edge from inactive or
      from a record stored earlier, none is inactive, and a stored running record carries a
      heartbeat equal to its update time, so it turns stale and cannot escape the sweep. */
  lemma {:induction false} OverlapSafety(timeout: Time, actions: seq<Action>)
    requires Runs(Initial, timeout, actions)
    ensures var s := Exec(Initial, timeout, actions);
            && (forall i :: 0 <= i < |s.history| ==>
                  Justified(s.history, i, s.history[i].id, s.history[i].record))
            && (forall id :: id in s.store ==>
                  && Saved(id, s.store[id]) in s.history
                  && s.store[id].lifecycle != Inactive
                  && (s.store[id].lifecycle == Running ==>
                        && s.store[id].heartbeatAt == s.store[id].updatedAt
                        && forall now :: now > s.store[id].updatedAt + timeout ==> IsStale(s.store[id], now, timeout)))
  {
    RunKeepsInv(Initial, timeout, actions);
    var s := Exec(Initial, timeout, actions);
    forall id | id in s.store ensures Sound(s.store[id]) {
      assert Saved(id, s.store[id]) in s.history;
    }
  }

  lemma {:induction false} Extend(s: System, timeout: Time, actions: seq<Action>, a: Action)
    requires Runs(s, timeout, actions) && Enabled(Exec(s, timeout, actions), timeout, a)
    ensures Runs(s, timeout, actions + [a])
    ensures Exec(s, timeout, actions + [a]) == Do(Exec(s, timeout, actions), timeout, a)
    decreases |actions|
  {
    if actions == [] {
      assert [a][1..] == [];
    } else {
      assert (actions + [a])[1..] == actions[1..] + [a];
      Extend(Do(s, timeout, actions[0]), timeout, actions[1..], a);
    }
  }

  /** What does not survive: a sweep that read a running record before the session finished
      and writes afterwards puts a finished session back to blocked. */
  lemma {:induction false} OverlapCanUndoFinished() returns (actions: seq<Action>, late: Action)
    ensures Runs(Initial, 10, actions) && Runs(Initial, 10, actions + [late])
    ensures LifecycleIn(Exec(Initial, 10, actions), "s") == Finished
    ensures LifecycleIn(Exec(Initial, 10, actions + [late]), "s") == Blocked
  {
    var start := Input(Some(Running), "", "", "", "", None, None, 1);
    var finish := Input(Some(Finished), "", "", "", "", None, None, 20);
    actions := [];
    Extend(Initial, 10, actions, ReadToTransition(0, "s", start, 1));
    actions := actions + [ReadToTransition(0, "s", start, 1)];
    Extend(Initial, 10, actions, Commit(0));
    actions := actions + [Commit(0)];
    Extend(Initial, 10, actions, ReadToSweep(1, "s", 20));
    actions := actions + [ReadToSweep(1, "s", 20)];
    Extend(Initial, 10, actions, ReadToTransition(0, "s", finish, 20));
    actions := actions + [ReadToTransition(0, "s", finish, 20)];
    Extend(Initial, 10, actions, Commit(0));
    actions := actions + [Commit(0)];
    late := Commit(1);
    Extend(Initial, 10, actions, late);
  }

  function LifecycleIn(s: System, id: Id): Lifecycle {
    Read(s, id).lifecycle
  }

  /** The caller holds an older read of the session and would write a different record. */
  predicate WouldReplace(s: System, id: Id, c: Caller) {
    c in s.pending && s.pending[c].id == id && id in s.store && s.pending[c].record != s.store[id]
  }

  /** While a session's record is terminal nobody can start a new write to it. */
  lemma {:induction false} NoNewWriters(s: System, timeout: Time, a: Action, id: Id, c: Caller)
    requires Enabled(s, timeout, a) && id in s.store && IsTerminal(s.store[id].lifecycle)
    ensures c in Do(s, timeout, a).pending && Do(s, timeout, a).pending[c].id == id ==>
              c in s.pending && s.pending[c] == Do(s, timeout, a).pending[c]
  {
  }

  lemma {:induction false} UnchallengedSurvives(s: System, timeout: Time, actions: seq<Action>, id: Id)
    requires Runs(s, timeout, actions) && id in s.store && IsTerminal(s.store[id].lifecycle)
    requires forall c: Caller :: !WouldReplace(s, id, c)
    ensures id in Exec(s, timeout, actions).store && Exec(s, timeout, actions).store[id] == s.store[id]
    decreases |actions|
  {
    if actions != [] {
      var a := actions[0];
      var t := Do(s, timeout, a);
      if a.Commit? {
        assert !WouldReplace(s, id, a.caller);
      }
      assert id in t.store && t.store[id] == s.store[id];
      forall c: Caller ensures !WouldReplace(t, id, c) {
        NoNewWriters(s, timeout, a, id, c);
        assert !WouldReplace(s, id, c);
      }
      UnchallengedSurvives(t, timeout, actions[1..], id);
    }
  }

  /** Terminal records are absorbing exactly when no caller still holds an older read of the
      session with a different record to write; one such write is enough to lose it. */
  lemma {:induction false} TerminalSurvivesIff(s: System, timeout: Time, id: Id)
    requires id in s.store && IsTerminal(s.store[id].lifecycle)
    ensures (forall actions: seq<Action> :: Runs(s, timeout, actions) ==> Read(Exec(s, timeout, actions), id) == s.store[id])
       <==> (forall c: Caller :: !WouldReplace(s, id, c))
  {
    if c: Caller :| WouldReplace(s, id, c) {
      var late := [Commit(c)];
      assert late[1..] == [];
      assert Runs(s, timeout, late);
      assert Exec(s, timeout, late) == Do(s, timeout, Commit(c));
      assert Runs(s, timeout, late) && Read(Exec(s, timeout, late), id) != s.store[id];
    } else {
      forall actions: seq<Action> | Runs(s, timeout, actions) ensures Read(Exec(s, timeout, actions), id) == s.store[id] {
        UnchallengedSurvives(s, timeout, actions, id);
      }
    }
  }

  /** Such a caller read the session before its terminal record was stored. */
  lemma {:induction false} ReplacersReadEarlier(s: System, id: Id, c: Caller)
    requires Inv(s) && WouldReplace(s, id, c) && IsTerminal(s.store[id].lifecycle)
    ensures s.pending[c].read != s.store[id]
  {
  }
}
