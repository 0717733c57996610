/** One run among any number of other callers of the state store: its two transitions are split
    at their read and write, and everybody's reads and writes interleave. */
module OverlappingRun {
  import opened RunPipeline
  import O = OverlappingCallers
  import State = SessionState

  /** Where the run stands with the store. `warned` says whether the response carries the
      terminal-transition-skipped warning. */
  datatype Progress = Unstarted | Starting | Working | Ending | Ended(warned: bool)

  datatype System = System(store: O.System, progress: Progress)

  /** The run: its caller, its inputs and how it ends. */
  datatype Run = Run(me: O.Caller, timeout: State.Time, req: Request, ids: Ids, w: World, success: bool)

  datatype Action =
    | Other(action: O.Action)
    | StartRead(now: State.Time)
    | StartRefused
    | StartWrite(ok: bool)
    | EndRead(now: State.Time)
    | EndRefused
    | EndWrite(ok: bool)

  function Lifecycle(r: Run, s: System): State.Lifecycle {
    O.Read(s.store, r.ids.session).lifecycle
  }

  function Final(r: Run): State.Lifecycle {
    FinalLifecycle(r.success)
  }

  function ReadToStart(r: Run, now: State.Time): O.Action {
    O.ReadToTransition(r.me, r.ids.session, StartInput(r.req, r.w), now)
  }

  function ReadToEnd(r: Run, now: State.Time): O.Action {
    O.ReadToTransition(r.me, r.ids.session, EndInput(r.req, r.w, r.success), now)
  }

  predicate Enabled(r: Run, s: System, a: Action) {
    match a
    case Other(b) => b.caller != r.me && O.Enabled(s.store, r.timeout, b)
    case StartRead(now) => s.progress == Unstarted && O.Enabled(s.store, r.timeout, ReadToStart(r, now))
    case StartRefused => s.progress == Unstarted && !State.Legal(Lifecycle(r, s), State.Running)
    case StartWrite(_) => s.progress == Starting && r.me in s.store.pending
    case EndRead(now) => s.progress == Working && O.Enabled(s.store, r.timeout, ReadToEnd(r, now))
    case EndRefused => s.progress == Working && !State.Legal(Lifecycle(r, s), Final(r))
    case EndWrite(_) => s.progress == Ending && r.me in s.store.pending
  }

  function Write(r: Run, ok: bool): O.Action {
    if ok then O.Commit(r.me) else O.FailWrite(r.me)
  }

  function Do(r: Run, s: System, a: Action): System
    requires Enabled(r, s, a)
  {
    match a
    case Other(b) => s.(store := O.Do(s.store, r.timeout, b))
    case StartRead(now) => System(O.Do(s.store, r.timeout, ReadToStart(r, now)), Starting)
    case StartRefused => s.(progress := Working)
    case StartWrite(ok) => System(O.Do(s.store, r.timeout, Write(r, ok)), Working)
    case EndRead(now) => System(O.Do(s.store, r.timeout, ReadToEnd(r, now)), Ending)
    case EndRefused => s.(progress := Ended(true))
    case EndWrite(ok) => System(O.Do(s.store, r.timeout, Write(r, ok)), Ended(!ok))
  }

  predicate Runs(r: Run, s: System, actions: seq<Action>)
    decreases |actions|
  {
    actions == [] || (Enabled(r, s, actions[0]) && Runs(r, Do(r, s, actions[0]), actions[1..]))
  }

  function Exec(r: Run, s: System, actions: seq<Action>): System
    requires Runs(r, s, actions)
    decreases |actions|
  {
    if actions == [] then s else Exec(r, Do(r, s, actions[0]), actions[1..])
  }

  /** Another caller holds an earlier read of the run's session and would write another lifecycle. */
  predicate Contests(r: Run, s: System, c: O.Caller) {
    && c != r.me && c in s.store.pending && s.store.pending[c].id == r.ids.session
    && s.store.pending[c].record.lifecycle != Final(r)
  }

  ghost predicate Inv(r: Run, s: System) {
    && (r.me in s.store.pending ==> s.progress.Starting? || s.progress.Ending?)
    && (s.progress == Ending ==>
          && r.me in s.store.pending && s.store.pending[r.me].id == r.ids.session
          && s.store.pending[r.me].record.lifecycle == Final(r))
  }

  /** The run's own record, or one of the same lifecycle, is stored and nobody is left to contest it. */
  ghost predicate Settled(r: Run, s: System) {
    && s.progress == Ended(false) && r.ids.session in s.store.store && Lifecycle(r, s) == Final(r)
    && r.me !in s.store.pending
    && forall c: O.Caller :: !Contests(r, s, c)
  }

  lemma {:induction false} StepKeepsInv(r: Run, s: System, a: Action)
    requires Inv(r, s) && Enabled(r, s, a)
    ensures Inv(r, Do(r, s, a))
  {
  }

  lemma {:induction false} SettledStays(r: Run, s: System, a: Action)
    requires Settled(r, s) && Enabled(r, s, a)
    ensures Settled(r, Do(r, s, a))
  {
    var t := Do(r, s, a);
    assert State.IsTerminal(Final(r));
    var b := a.action;
    assert !Contests(r, s, b.caller);
    forall c: O.Caller ensures !Contests(r, t, c) {
      O.NoNewWriters(s.store, r.timeout, b, r.ids.session, c);
      assert !Contests(r, s, c);
    }
  }

  lemma {:induction false} SettledForGood(r: Run, s: System, actions: seq<Action>)
    requires Settled(r, s) && Runs(r, s, actions)
    ensures Settled(r, Exec(r, s, actions))
    decreases |actions|
  {
    if actions != [] {
      SettledStays(r, s, actions[0]);
      SettledForGood(r, Do(r, s, actions[0]), actions[1..]);
    }
  }

  lemma {:induction false} UncontestedEndSettles(r: Run, s: System)
    requires Inv(r, s) && s.progress == Ending && forall c: O.Caller :: !Contests(r, s, c)
    ensures Enabled(r, s, EndWrite(true)) && Settled(r, Do(r, s, EndWrite(true)))
  {
    var t := Do(r, s, EndWrite(true));
    forall c: O.Caller ensures !Contests(r, t, c) {
      assert !Contests(r, s, c);
    }
  }

  /** A write by the contesting caller undoes the end of the run. */
  lemma {:induction false} ContestedEndIsLost(r: Run, s: System, c: O.Caller) returns (late: seq<Action>)
    requires Inv(r, s) && s.progress == Ending && Contests(r, s, c)
    ensures Enabled(r, s, EndWrite(true)) && Runs(r, Do(r, s, EndWrite(true)), late)
    ensures Lifecycle(r, Exec(r, Do(r, s, EndWrite(true)), late)) != Final(r)
  {
    var t := Do(r, s, EndWrite(true));
    late := [Other(O.Commit(c))];
    assert late[1..] == [];
    assert t.store.pending[c] == s.store.pending[c];
    assert Enabled(r, t, late[0]);
    var u := Do(r, t, late[0]);
    assert Runs(r, u, late[1..]);
    assert u.store.store[r.ids.session] == s.store.pending[c].record;
  }

  /** The stored lifecycle is the run's own from its terminal write on, in every continuation,
      exactly when no other caller holds an earlier read with another lifecycle to write at that
      moment. The response carries no warning either way. */
  lemma {:induction false} EndPrevailsIff(r: Run, s: System)
    requires Inv(r, s) && s.progress == Ending
    ensures Enabled(r, s, EndWrite(true)) && Do(r, s, EndWrite(true)).progress == Ended(false)
    ensures var t := Do(r, s, EndWrite(true));
            (forall after: seq<Action> :: Runs(r, t, after) ==> Lifecycle(r, Exec(r, t, after)) == Final(r))
            <==> (forall c: O.Caller :: !Contests(r, s, c))
  {
    var t := Do(r, s, EndWrite(true));
    if c: O.Caller :| Contests(r, s, c) {
      var late := ContestedEndIsLost(r, s, c);
      assert Runs(r, t, late) && Lifecycle(r, Exec(r, t, late)) != Final(r);
    } else {
      UncontestedEndSettles(r, s);
      forall after: seq<Action> | Runs(r, t, after) ensures Lifecycle(r, Exec(r, t, after)) == Final(r) {
        SettledForGood(r, t, after);
      }
    }
  }

  /** The terminal record is written only while nobody contests it. */
  ghost predicate Uncontested(r: Run, s: System, actions: seq<Action>)
    requires Runs(r, s, actions)
    decreases |actions|
  {
    actions != [] ==>
      && (actions[0] == EndWrite(true) ==> forall c: O.Caller :: !Contests(r, s, c))
      && Uncontested(r, Do(r, s, actions[0]), actions[1..])
  }

  /** Over every interleaving with any transitions, sweeps and write failures: once the run is
      over, the stored lifecycle is the run's own or the response warns, unless the terminal
      write was contested. */
  lemma {:induction false} StoreAgreesOrWarns(r: Run, s: System, actions: seq<Action>)
    requires Inv(r, s) && !s.progress.Ended? && Runs(r, s, actions) && Uncontested(r, s, actions)
    ensures var t := Exec(r, s, actions);
            t.progress.Ended? ==> t.progress.warned || Lifecycle(r, t) == Final(r)
    decreases |actions|
  {
    if actions != [] {
      var a := actions[0];
      var t := Do(r, s, a);
      if a == EndWrite(true) {
        UncontestedEndSettles(r, s);
        SettledForGood(r, t, actions[1..]);
      } else if t.progress.Ended? {
        WarnedStays(r, t, actions[1..]);
      } else {
        StepKeepsInv(r, s, a);
        StoreAgreesOrWarns(r, t, actions[1..]);
      }
    }
  }

  lemma {:induction false} WarnedStays(r: Run, s: System, actions: seq<Action>)
    requires s.progress == Ended(true) && Runs(r, s, actions)
    ensures Exec(r, s, actions).progress == Ended(true)
    decreases |actions|
  {
    if actions != [] {
      WarnedStays(r, Do(r, s, actions[0]), actions[1..]);
    }
  }

  // ---- The same transition, undivided ----

  function Stored(store: map<State.Id, State.Record>): State.Sessions {
    map id | id in store :: State.Stored(store[id])
  }

  /** With nothing in between, the read and the write are the terminal transition of the run: it
      is refused exactly when the transition reports an error, and else stores the same record. */
  lemma {:induction false} UninterruptedEndIsTransition(r: Run, s: System, now: State.Time)
    requires Generated(r.ids) && s.progress == Working && r.me !in s.store.pending
    requires now == State.EffectiveNow(r.w.endTime, r.w.wallClock) && now != 0 && r.w.endWrite == State.Written
    ensures Enabled(r, s, EndRefused) <==> EndOutcome(Stored(s.store.store), r.req, r.ids, r.w, r.success).Err?
    ensures Enabled(r, s, EndRead(now)) <==> !Enabled(r, s, EndRefused)
    ensures Enabled(r, s, EndRead(now)) ==>
              var t := Do(r, s, EndRead(now));
              && Enabled(r, t, EndWrite(true))
              && Stored(Do(r, t, EndWrite(true)).store.store) == AfterEnd(Stored(s.store.store), r.req, r.ids, r.w, r.success)
  {
    var ss := Stored(s.store.store);
    var id := r.ids.session;
    assert State.Current(ss, id) == O.Read(s.store, id);
    assert State.Readable(ss, id);
  }

  /** The same for the transition at the start, whether or not its write works; either way, and also when
      it is refused, the run goes on to work. */
  lemma {:induction false} UninterruptedStartIsTransition(r: Run, s: System, now: State.Time)
    requires Generated(r.ids) && s.progress == Unstarted && r.me !in s.store.pending
    requires now == State.EffectiveNow(r.w.startTime, r.w.wallClock) && now != 0 && r.w.startWrite != State.FailedAfterMkdir
    ensures Enabled(r, s, StartRead(now)) <==> !Enabled(r, s, StartRefused)
    ensures Enabled(r, s, StartRefused) ==>
              && AfterStart(Stored(s.store.store), r.req, r.ids, r.w) == Stored(s.store.store)
              && Do(r, s, StartRefused) == s.(progress := Working)
    ensures Enabled(r, s, StartRead(now)) ==>
              var ok := r.w.startWrite == State.Written;
              var t := Do(r, s, StartRead(now));
              && Enabled(r, t, StartWrite(ok))
              && Stored(Do(r, t, StartWrite(ok)).store.store) == AfterStart(Stored(s.store.store), r.req, r.ids, r.w)
              && Do(r, t, StartWrite(ok)).progress == Working && r.me !in Do(r, t, StartWrite(ok)).store.pending
  {
    var ss := Stored(s.store.store);
    var id := r.ids.session;
    assert State.Current(ss, id) == O.Read(s.store, id);
    assert State.Readable(ss, id);
  }
}
