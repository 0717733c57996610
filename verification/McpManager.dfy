/** The process cache of internal/mcp/manager.go. Starting and stopping processes and asking
    whether one is alive are calls to the outside; processes are named in the order of their start. */
module McpManager {
  type Process = nat
  type Time = int

  datatype Managed = Managed(process: Process, lastUsedAt: Time)
  type Clients = map<string, Managed>
  datatype UseResult = Using(process: Process) | StarterMissing | StartFailed

  const DefaultIdleTimeout: Time := 300

  function NowOr(now: Time, wallClock: Time): Time {
    if now == 0 then wallClock else now
  }

  predicate Idle(m: Managed, now: Time, timeout: Time) {
    now - m.lastUsedAt > timeout
  }

  // ---- Where processes are ----

  ghost predicate Mapped(c: Clients, p: Process) {
    exists key :: key in c && c[key].process == p
  }

  /** Each process ever started is mapped, was stopped, or was seen dead. */
  ghost predicate Accounted(c: Clients, started: nat, stopped: seq<Process>, seenDead: set<Process>) {
    forall p: Process :: p < started ==> Mapped(c, p) || p in stopped || p in seenDead
  }

  /** A mapped process has one key and was never stopped; nothing is stopped twice. */
  ghost predicate Separate(c: Clients, started: nat, stopped: seq<Process>) {
    && (forall key :: key in c ==> c[key].process < started && c[key].process !in stopped)
    && (forall k1, k2 :: k1 in c && k2 in c && c[k1].process == c[k2].process ==> k1 == k2)
    && (forall i :: 0 <= i < |stopped| ==> stopped[i] < started)
    && (forall i, j :: 0 <= i < j < |stopped| ==> stopped[i] != stopped[j])
  }

  /** Putting a client with a new time or a new process under a key loses only what was there. */
  lemma {:induction false} PutMapped(c: Clients, key: string, m: Managed, p: Process)
    requires Mapped(c, p) && (key in c ==> c[key].process != p || m.process == p)
    ensures Mapped(c[key := m], p)
  {
    var k :| k in c && c[k].process == p;
    assert k in c[key := m] && (k != key ==> c[key := m][k] == c[k]);
    assert key in c[key := m] && c[key := m][key] == m;
  }

  lemma {:induction false} RefreshAccounted(c: Clients, key: string, time: Time, started: nat, stopped: seq<Process>, seenDead: set<Process>)
    requires Accounted(c, started, stopped, seenDead) && Separate(c, started, stopped) && key in c
    ensures var d := c[key := c[key].(lastUsedAt := time)];
            Accounted(d, started, stopped, seenDead) && Separate(d, started, stopped)
  {
    var d := c[key := c[key].(lastUsedAt := time)];
    assert d.Keys == c.Keys && forall k :: k in c ==> d[k].process == c[k].process;
    forall p: Process | p < started ensures Mapped(d, p) || p in stopped || p in seenDead {
      if Mapped(c, p) {
        PutMapped(c, key, c[key].(lastUsedAt := time), p);
      }
    }
  }

  lemma {:induction false} ReplaceAccounted(c: Clients, key: string, time: Time, started: nat, stopped: seq<Process>, seenDead: set<Process>)
    requires Accounted(c, started, stopped, seenDead) && Separate(c, started, stopped)
    requires key in c ==> c[key].process in seenDead
    ensures var d := c[key := Managed(started, time)];
            Accounted(d, started + 1, stopped, seenDead) && Separate(d, started + 1, stopped)
  {
    var m := Managed(started, time);
    var d := c[key := m];
    assert d[key] == m && Mapped(d, started);
    assert forall k :: k in d && k != key ==> k in c && d[k] == c[k];
    assert started !in stopped;
    forall p: Process | p < started + 1 ensures Mapped(d, p) || p in stopped || p in seenDead {
      if p < started && Mapped(c, p) && p !in seenDead {
        PutMapped(c, key, m, p);
      }
    }
  }

  lemma {:induction false} RemoveMapped(c: Clients, key: string, p: Process)
    requires key in c && Mapped(c, p) && c[key].process != p
    ensures Mapped(c - {key}, p)
  {
    var k :| k in c && c[k].process == p;
    assert k in c - {key};
  }

  lemma {:induction false} RetireAccounted(c: Clients, key: string, started: nat, stopped: seq<Process>, seenDead: set<Process>)
    requires Accounted(c, started, stopped, seenDead) && Separate(c, started, stopped) && key in c
    ensures Accounted(c - {key}, started, stopped + [c[key].process], seenDead)
    ensures Separate(c - {key}, started, stopped + [c[key].process])
    ensures Accounted(c - {key}, started, stopped, seenDead + {c[key].process})
    ensures Separate(c - {key}, started, stopped)
  {
    var q := c[key].process;
    assert forall k :: k in c - {key} ==> (c - {key})[k] == c[k] && c[k].process != q;
    forall p: Process | p < started ensures p == q || Mapped(c - {key}, p) || p in stopped || p in seenDead {
      if p != q && Mapped(c, p) {
        RemoveMapped(c, key, p);
      }
    }
  }

  // ---- Deleting loops ----

  /** A sweep that drops what `keep` rejects has still to look at `todo`. */
  ghost predicate Sweeping(before: Clients, c: Clients, todo: set<string>, keep: Managed -> bool) {
    && todo <= c.Keys <= before.Keys
    && (forall k :: k in c ==> c[k] == before[k])
    && (forall k :: k in before && k !in c ==> !keep(before[k]))
    && (forall k :: k in c && k !in todo ==> keep(c[k]))
  }

  /** The process of a client that the sweep has dropped. */
  ghost predicate Gone(before: Clients, c: Clients, p: Process) {
    exists k :: k in before && k !in c && before[k].process == p
  }

  lemma {:induction false} DropOne(before: Clients, c: Clients, todo: set<string>, keep: Managed -> bool, key: string)
    requires Sweeping(before, c, todo, keep) && key in todo && !keep(c[key])
    ensures Sweeping(before, c - {key}, todo - {key}, keep)
    ensures |c - {key}| == |c| - 1
    ensures forall p :: Gone(before, c - {key}, p) <==> Gone(before, c, p) || p == c[key].process
  {
    assert (c - {key}).Keys == c.Keys - {key};
    assert |c.Keys| == |c|;
    forall p ensures Gone(before, c - {key}, p) <==> Gone(before, c, p) || p == c[key].process {
      if Gone(before, c, p) {
        var k :| k in before && k !in c && before[k].process == p;
        assert k !in c - {key};
      }
      assert key in before && key !in c - {key};
      if Gone(before, c - {key}, p) {
        var k :| k in before && k !in c - {key} && before[k].process == p;
        assert k == key || k !in c;
      }
    }
  }

  /** The list of stopped processes has grown by exactly those of the dropped clients, once each. */
  ghost predicate StoppedExactly(before: Clients, c: Clients, was: seq<Process>, stopped: seq<Process>) {
    && |stopped| == |was| + |before| - |c| && was <= stopped
    && (forall p :: p in stopped <==> p in was || Gone(before, c, p))
  }

  ghost predicate DeadExactly(before: Clients, c: Clients, was: set<Process>, dead: set<Process>) {
    forall p :: p in dead <==> p in was || Gone(before, c, p)
  }

  lemma {:induction false} StopOne(before: Clients, c: Clients, todo: set<string>, keep: Managed -> bool, key: string,
                                   was: seq<Process>, stopped: seq<Process>)
    requires Sweeping(before, c, todo, keep) && key in todo && !keep(c[key]) && StoppedExactly(before, c, was, stopped)
    ensures Sweeping(before, c - {key}, todo - {key}, keep) && |c - {key}| == |c| - 1
    ensures StoppedExactly(before, c - {key}, was, stopped + [c[key].process])
  {
    DropOne(before, c, todo, keep, key);
  }

  lemma {:induction false} BuryOne(before: Clients, c: Clients, todo: set<string>, keep: Managed -> bool, key: string,
                                   was: set<Process>, dead: set<Process>)
    requires Sweeping(before, c, todo, keep) && key in todo && !keep(c[key]) && DeadExactly(before, c, was, dead)
    ensures Sweeping(before, c - {key}, todo - {key}, keep) && |c - {key}| == |c| - 1
    ensures DeadExactly(before, c - {key}, was, dead + {c[key].process})
  {
    DropOne(before, c, todo, keep, key);
  }

  lemma {:induction false} SkipOne(before: Clients, c: Clients, todo: set<string>, keep: Managed -> bool, key: string)
    requires Sweeping(before, c, todo, keep) && key in todo && keep(c[key])
    ensures Sweeping(before, c, todo - {key}, keep)
  {
  }

  lemma {:induction false} SweepEnds(before: Clients, c: Clients, keep: Managed -> bool)
    requires Sweeping(before, c, {}, keep)
    ensures c == map key | key in before && keep(before[key]) :: before[key]
  {
  }

  class Manager {
    const hasStarter: bool
    const idleTimeout: Time
    var clients: Clients
    /** How many processes have been started; the next one gets this name. */
    var started: nat
    /** Every Stop call so far, in order. */
    ghost var stopped: seq<Process>
    /** Every process that a call has found not alive. */
    ghost var seenDead: set<Process>

    ghost predicate Valid()
      reads this
    {
      Accounted(clients, started, stopped, seenDead) && Separate(clients, started, stopped)
    }

    constructor (hasStarter: bool, idleTimeout: Time)
      ensures Valid() && clients == map[] && started == 0 && stopped == [] && seenDead == {}
      ensures this.idleTimeout == (if idleTimeout == 0 then 300 else idleTimeout) && this.hasStarter == hasStarter
    {
      this.hasStarter := hasStarter;
      this.idleTimeout := if idleTimeout == 0 then DefaultIdleTimeout else idleTimeout;
      clients, started, stopped, seenDead := map[], 0, [], {};
    }

    /** A live client is used again; otherwise a new process takes its place, if one starts. */
    method Use(session: string, server: string, now: Time, wallClock: Time, alive: Process -> bool, startOk: bool)
        returns (r: UseResult)
      requires Valid()
      modifies this
      ensures Valid() && stopped == old(stopped)
      ensures r.Using? ==>
                clients == old(clients)[session + ":" + server := Managed(r.process, if now == 0 then wallClock else now)]
      ensures !r.Using? ==> clients == old(clients)
      ensures var key := ClientKey(session, server);
              if key in old(clients) && alive(old(clients)[key].process) then
                r == Using(old(clients)[key].process) && started == old(started) && seenDead == old(seenDead)
              else
                && r == (if !hasStarter then StarterMissing else if !startOk then StartFailed else Using(old(started)))
                && started == (if r.Using? then old(started) + 1 else old(started))
                && seenDead == if key in old(clients) then old(seenDead) + {old(clients)[key].process} else old(seenDead)
    {
      var key := ClientKey(session, server);
      var time := NowOr(now, wallClock);
      if key in clients {
        var managed := clients[key];
        if alive(managed.process) {
          RefreshAccounted(clients, key, time, started, stopped, seenDead);
          clients := clients[key := managed.(lastUsedAt := time)];
          return Using(managed.process);
        }
        seenDead := seenDead + {managed.process};
      }
      if !hasStarter {
        return StarterMissing;
      }
      if !startOk {
        return StartFailed;
      }
      ReplaceAccounted(clients, key, time, started, stopped, seenDead);
      var process := started;
      started := started + 1;
      clients := clients[key := Managed(process, time)];
      r := Using(process);
    }

    /** Stops a client's process and deletes the client. */
    method Stop(key: string)
      requires Valid() && key in clients
      modifies this`clients, this`stopped
      ensures Valid() && clients == old(clients) - {key}
      ensures stopped == old(stopped) + [old(clients)[key].process]
    {
      RetireAccounted(clients, key, started, stopped, seenDead);
      stopped := stopped + [clients[key].process];
      clients := clients - {key};
    }

    /** Deletes a client whose process is dead. */
    method Forget(key: string)
      requires Valid() && key in clients
      modifies this`clients, this`seenDead
      ensures Valid() && clients == old(clients) - {key}
      ensures seenDead == old(seenDead) + {old(clients)[key].process}
    {
      RetireAccounted(clients, key, started, stopped, seenDead);
      seenDead := seenDead + {clients[key].process};
      clients := clients - {key};
    }

    /** Removes and stops exactly the clients idle for strictly longer than the timeout. */
    method CleanupIdle(now: Time, wallClock: Time) returns (removed: nat)
      requires Valid()
      modifies this`clients, this`stopped
      ensures Valid()
      ensures var time := if now == 0 then wallClock else now;
              clients == map key | key in old(clients) && time - old(clients)[key].lastUsedAt <= idleTimeout :: old(clients)[key]
      ensures removed == |old(clients)| - |clients| && StoppedExactly(old(clients), clients, old(stopped), stopped)
    {
      var time := NowOr(now, wallClock);
      ghost var keep := (m: Managed) => !Idle(m, time, idleTimeout);
      removed := 0;
      var todo := clients.Keys;
      while todo != {}
        invariant Valid() && Sweeping(old(clients), clients, todo, keep)
        invariant removed == |old(clients)| - |clients| && StoppedExactly(old(clients), clients, old(stopped), stopped)
      {
        var key :| key in todo;
        if Idle(clients[key], time, idleTimeout) {
          StopOne(old(clients), clients, todo, keep, key, old(stopped), stopped);
          Stop(key);
          removed := removed + 1;
        } else {
          SkipOne(old(clients), clients, todo, keep, key);
        }
        todo := todo - {key};
      }
      SweepEnds(old(clients), clients, keep);
    }

    /** Removes exactly the clients whose process is not alive, without stopping them. */
    method CleanupZombies(alive: Process -> bool) returns (removed: nat)
      requires Valid()
      modifies this`clients, this`seenDead
      ensures Valid()
      ensures clients == map key | key in old(clients) && alive(old(clients)[key].process) :: old(clients)[key]
      ensures removed == |old(clients)| - |clients|
      ensures DeadExactly(old(clients), clients, old(seenDead), seenDead)
    {
      ghost var keep := (m: Managed) => alive(m.process);
      removed := 0;
      var todo := clients.Keys;
      while todo != {}
        invariant Valid() && Sweeping(old(clients), clients, todo, keep)
        invariant removed == |old(clients)| - |clients|
        invariant DeadExactly(old(clients), clients, old(seenDead), seenDead)
      {
        var key :| key in todo;
        if !alive(clients[key].process) {
          BuryOne(old(clients), clients, todo, keep, key, old(seenDead), seenDead);
          Forget(key);
          removed := removed + 1;
        } else {
          SkipOne(old(clients), clients, todo, keep, key);
        }
        todo := todo - {key};
      }
      SweepEnds(old(clients), clients, keep);
    }
  }

  /** What the invariant means for processes still alive, as long as none that was seen dead
      revives: each is mapped under exactly one key or was stopped exactly once, never both. */
  lemma {:induction false} NoLiveProcessLeaks(c: Clients, started: nat, stopped: seq<Process>, seenDead: set<Process>, alive: Process -> bool, p: Process)
    requires Accounted(c, started, stopped, seenDead) && Separate(c, started, stopped)
    requires forall q :: q in seenDead ==> !alive(q)
    requires p < started && alive(p)
    ensures Mapped(c, p) != (p in stopped)
    ensures forall k1, k2 :: k1 in c && k2 in c && c[k1].process == c[k2].process == p ==> k1 == k2
    ensures forall i, j :: 0 <= i < |stopped| && 0 <= j < |stopped| && stopped[i] == stopped[j] == p ==> i == j
  {
    if Mapped(c, p) {
      var key :| key in c && c[key].process == p;
      assert c[key].process !in stopped;
    }
  }

  // ---- Keys ----

  function ClientKey(session: string, server: string): string {
    session + ":" + server
  }

  /** Session ids without a colon never share an entry, whatever the servers are called. */
  lemma {:induction false} ColonFreeSessionsNeverShare(s1: string, n1: string, s2: string, n2: string)
    requires ':' !in s1 && ':' !in s2
    ensures ClientKey(s1, n1) == ClientKey(s2, n2) <==> s1 == s2 && n1 == n2
  {
    if ClientKey(s1, n1) == ClientKey(s2, n2) {
      FirstColon(s1, n1);
      FirstColon(s2, n2);
    }
  }

  /** The part before the first colon of a key. */
  function BeforeColon(key: string): string {
    if key == "" || key[0] == ':' then "" else [key[0]] + BeforeColon(key[1..])
  }

  lemma {:induction false} FirstColon(session: string, server: string)
    requires ':' !in session
    ensures BeforeColon(ClientKey(session, server)) == session
    ensures ClientKey(session, server)[|session| + 1..] == server
  {
    if session != "" {
      FirstColon(session[1..], server);
      assert ClientKey(session, server)[1..] == ClientKey(session[1..], server);
    }
  }

  /** In general two sessions can share an entry exactly when one of them, with its colon, is a
      prefix of the other with its colon. */
  lemma {:induction false} SessionsCanShareIff(s1: string, s2: string)
    ensures (exists n1, n2 :: ClientKey(s1, n1) == ClientKey(s2, n2)) <==> s1 + ":" <= s2 + ":" || s2 + ":" <= s1 + ":"
  {
    forall n1, n2 | ClientKey(s1, n1) == ClientKey(s2, n2)
      ensures s1 + ":" <= s2 + ":" || s2 + ":" <= s1 + ":"
    {
      var k := ClientKey(s1, n1);
      assert k[..|s1| + 1] == s1 + ":";
      assert ClientKey(s2, n2)[..|s2| + 1] == s2 + ":";
    }
    if s1 + ":" <= s2 + ":" {
      assert ClientKey(s1, (s2 + ":")[|s1| + 1..]) == ClientKey(s2, "");
    }
    if s2 + ":" <= s1 + ":" {
      assert ClientKey(s2, (s1 + ":")[|s2| + 1..]) == ClientKey(s1, "");
    }
  }
}
