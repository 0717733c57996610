/** The lock and socket protocol of internal/daemon/daemon.go: any number of servers run the
    steps of Start and Close against one lock path and one socket path, interleaved at will. */
module Daemon {
  import opened Wrappers

  type Pid = nat

  /** Where a server is in Start. Serving means that Start has returned nil. */
  datatype Phase =
    | Idle | LockCreated | PidWritten | SocketCleared | Listening
    | GivingUp | GaveUpFile   // the failure exits, before and after lockFile.Close
    | Serving
    | Crashed

  datatype Stage = AtListener | AtLockFile | AtSocket | AtLock

  /** Where the server's only effective Close is (sync.Once). `found` says whether it read a
      non-nil listener, that is, whether Start had succeeded when Close was called. */
  datatype Closer = Unused | Closing(found: bool, stage: Stage) | Closed(found: bool)

  datatype Server = Server(phase: Phase, closer: Closer)

  /** A change to one of the two files. */
  datatype FileOp =
    | MakeLock(actor: Pid)
    | DropLock(actor: Pid)
    | MakeSocket(actor: Pid)
    | ClearSocket(actor: Pid, owner: Pid)  // the unlink in Start
    | CloseSocket(actor: Pid, owner: Pid)  // an unlink in Close

  /** The two paths with the server that made each file, and every file operation so far. */
  datatype System = System(servers: seq<Server>, lock: Option<Pid>, socket: Option<Pid>, journal: seq<FileOp>)

  datatype ListenResult = Bound | Refused | RefusedAfterBind

  datatype Action =
    | OpenLock(pid: Pid, ok: bool)
    | WritePid(pid: Pid, ok: bool)
    | RemoveOldSocket(pid: Pid, ok: bool)
    | Listen(pid: Pid, result: ListenResult)
    | Publish(pid: Pid)
    | GiveUpFile(pid: Pid)
    | GiveUpLock(pid: Pid, ok: bool)
    | CallClose(pid: Pid)
    | CloseListener(pid: Pid, unlinked: bool)
    | CloseLockFile(pid: Pid)
    | RemoveSocket(pid: Pid, ok: bool)
    | RemoveLock(pid: Pid, ok: bool)
    | Crash(pid: Pid)

  function Initial(n: nat): System {
    System(seq(n, _ => Server(Idle, Unused)), None, None, [])
  }

  predicate Enabled(s: System, a: Action) {
    a.pid < |s.servers| &&
    var v := s.servers[a.pid];
    v.phase != Crashed &&
    match a
    case OpenLock(_, _) => v.phase == Idle
    case WritePid(_, _) => v.phase == LockCreated
    case RemoveOldSocket(_, _) => v.phase == PidWritten
    case Listen(_, result) => v.phase == SocketCleared && (!result.Refused? ==> s.socket == None)
    case Publish(_) => v.phase == Listening
    case GiveUpFile(_) => v.phase == GivingUp
    case GiveUpLock(_, _) => v.phase == GaveUpFile
    case CallClose(_) => v.closer == Unused
    case CloseListener(_, _) => v.closer.Closing? && v.closer.stage == AtListener
    case CloseLockFile(_) => v.closer.Closing? && v.closer.stage == AtLockFile
    case RemoveSocket(_, _) => v.closer.Closing? && v.closer.stage == AtSocket
    case RemoveLock(_, _) => v.closer.Closing? && v.closer.stage == AtLock
    case Crash(_) => true
  }

  function Put(s: System, p: Pid, v: Server): System
    requires p < |s.servers|
  {
    s.(servers := s.servers[p := v])
  }

  /** Removing a path that may be missing; `op` is what the journal says if a file was there. */
  function UnlinkSocket(s: System, closing: bool, p: Pid): System {
    if s.socket == None then s
    else s.(socket := None,
            journal := s.journal + [if closing then CloseSocket(p, s.socket.value) else ClearSocket(p, s.socket.value)])
  }

  function UnlinkLock(s: System, p: Pid): System {
    if s.lock == None then s else s.(lock := None, journal := s.journal + [DropLock(p)])
  }

  function BindSocket(s: System, p: Pid): System {
    s.(socket := Some(p), journal := s.journal + [MakeSocket(p)])
  }

  function Do(s: System, a: Action): System
    requires Enabled(s, a)
  {
    var p := a.pid;
    var v := s.servers[p];
    match a
    case OpenLock(_, ok) =>
      if ok && s.lock == None then
        Put(s, p, v.(phase := LockCreated)).(lock := Some(p), journal := s.journal + [MakeLock(p)])
      else s
    case WritePid(_, ok) => Put(s, p, v.(phase := if ok then PidWritten else GivingUp))
    case RemoveOldSocket(_, ok) =>
      if ok then UnlinkSocket(Put(s, p, v.(phase := SocketCleared)), false, p) else Put(s, p, v.(phase := GivingUp))
    case Listen(_, result) => (
      match result
      case Bound => BindSocket(Put(s, p, v.(phase := Listening)), p)
      case Refused => Put(s, p, v.(phase := GivingUp))
      case RefusedAfterBind => BindSocket(Put(s, p, v.(phase := GivingUp)), p))
    case Publish(_) => Put(s, p, v.(phase := Serving))
    case GiveUpFile(_) => Put(s, p, v.(phase := GaveUpFile))
    case GiveUpLock(_, ok) =>
      var t := Put(s, p, v.(phase := Idle));
      if ok then UnlinkLock(t, p) else t
    case CallClose(_) =>
      Put(s, p, v.(closer := Closing(v.phase == Serving, if v.phase == Serving then AtListener else AtSocket)))
    case CloseListener(_, unlinked) =>
      var t := Put(s, p, v.(closer := v.closer.(stage := AtLockFile)));
      if unlinked then UnlinkSocket(t, true, p) else t
    case CloseLockFile(_) => Put(s, p, v.(closer := v.closer.(stage := AtSocket)))
    case RemoveSocket(_, ok) =>
      var t := Put(s, p, v.(closer := v.closer.(stage := AtLock)));
      if ok then UnlinkSocket(t, true, p) else t
    case RemoveLock(_, ok) =>
      var t := Put(s, p, v.(closer := Closed(v.closer.found)));
      if ok then UnlinkLock(t, p) else t
    case Crash(_) => Put(s, p, v.(phase := Crashed))
  }

  predicate Runs(s: System, actions: seq<Action>)
    decreases |actions|
  {
    actions == [] || (Enabled(s, actions[0]) && Runs(Do(s, actions[0]), actions[1..]))
  }

  function Exec(s: System, actions: seq<Action>): System
    requires Runs(s, actions)
    decreases |actions|
  {
    if actions == [] then s else Exec(Do(s, actions[0]), actions[1..])
  }

  /** Close is called only on a server whose Start has succeeded. */
  predicate Disciplined(s: System, actions: seq<Action>)
    requires Runs(s, actions)
    decreases |actions|
  {
    actions != [] ==>
      && (actions[0].CallClose? ==> s.servers[actions[0].pid].phase == Serving)
      && Disciplined(Do(s, actions[0]), actions[1..])
  }

  // ---- Ownership ----

  predicate Found(v: Server) {
    !v.closer.Unused? && v.closer.found
  }

  /** The server is between its creation of the lock file and its own removal of it. */
  predicate Holds(v: Server) {
    match v.phase
    case LockCreated | PidWritten | SocketCleared | Listening | GivingUp | GaveUpFile => true
    case Serving => v.closer != Closed(true)
    case Idle | Crashed => false
  }

  /** The server accepts connections on the socket path. */
  predicate Listens(v: Server) {
    match v.phase
    case Listening => true
    case Serving => Found(v) ==> v.closer == Closing(true, AtListener)
    case _ => false
  }

  /** What a server holds is its own, and a Close that found a listener belongs to a server that started. */
  predicate Owns(v: Server, p: Pid, lock: Option<Pid>, socket: Option<Pid>) {
    && (Holds(v) ==> lock == Some(p))
    && (Listens(v) ==> socket == Some(p))
    && (Found(v) ==> v.phase == Serving || v.phase == Crashed)
    && (v.phase == Serving && v.closer.Closing? && v.closer.found ==> socket == None || socket == Some(p))
    && (v.closer.Closing? && !v.closer.found ==> v.closer.stage == AtSocket || v.closer.stage == AtLock)
  }

  ghost predicate Exclusive(s: System) {
    forall p: Pid :: p < |s.servers| ==> Owns(s.servers[p], p, s.lock, s.socket)
  }

  /** The step unlinks a live file from a Close that found no listener. */
  predicate Harmful(s: System, a: Action)
    requires Enabled(s, a)
  {
    !Found(s.servers[a.pid]) &&
    match a
    case RemoveSocket(_, ok) =>
      ok && s.socket.Some? && s.socket.value < |s.servers| && Listens(s.servers[s.socket.value])
    case RemoveLock(_, ok) =>
      ok && s.lock.Some? && s.lock.value < |s.servers| && Holds(s.servers[s.lock.value])
    case _ => false
  }

  lemma {:induction false} ActorKeepsOwnership(s: System, a: Action)
    requires Exclusive(s) && Enabled(s, a) && !Harmful(s, a)
    ensures var t := Do(s, a); Owns(t.servers[a.pid], a.pid, t.lock, t.socket)
  {
    assert Owns(s.servers[a.pid], a.pid, s.lock, s.socket);
  }

  /** A step changes a file only if it may: the lock path was free or the actor holds it, or the
      actor is a Close that found no listener. */
  lemma {:induction false} ChangesAreByHolder(s: System, a: Action)
    requires Exclusive(s) && Enabled(s, a)
    ensures var t := Do(s, a);
            && (t.lock != s.lock ==> s.lock == None || s.lock == Some(a.pid) || (!Found(s.servers[a.pid]) && a == RemoveLock(a.pid, true)))
            && (t.socket != s.socket ==>
                  || (Holds(s.servers[a.pid]) && s.lock == Some(a.pid) == t.lock)
                  || (!Found(s.servers[a.pid]) && a == RemoveSocket(a.pid, true)))
            && |t.servers| == |s.servers|
            && (forall q: Pid :: q < |s.servers| && q != a.pid ==> t.servers[q] == s.servers[q])
  {
    assert Owns(s.servers[a.pid], a.pid, s.lock, s.socket);
  }

  /** One step keeps ownership exactly when it is not such an unlink. */
  lemma {:induction false} StepKeepsExclusiveIff(s: System, a: Action)
    requires Exclusive(s) && Enabled(s, a)
    ensures Exclusive(Do(s, a)) <==> !Harmful(s, a)
  {
    var t := Do(s, a);
    if Harmful(s, a) {
      HarmBreaksOwnership(s, a);
    } else {
      ActorKeepsOwnership(s, a);
      ChangesAreByHolder(s, a);
      forall q: Pid | q < |t.servers| ensures Owns(t.servers[q], q, t.lock, t.socket) {
        if q != a.pid {
          BystanderKeepsOwnership(s, a, q);
        }
      }
    }
  }

  lemma {:induction false} HarmBreaksOwnership(s: System, a: Action)
    requires Exclusive(s) && Enabled(s, a) && Harmful(s, a)
    ensures !Exclusive(Do(s, a))
  {
    var t := Do(s, a);
    var q := if a.RemoveLock? then s.lock.value else s.socket.value;
    assert !Owns(t.servers[q], q, t.lock, t.socket);
  }

  lemma {:induction false} BystanderKeepsOwnership(s: System, a: Action, q: Pid)
    requires Exclusive(s) && Enabled(s, a) && !Harmful(s, a) && q < |s.servers| && q != a.pid
    ensures var t := Do(s, a); q < |t.servers| && Owns(t.servers[q], q, t.lock, t.socket)
  {
    var t := Do(s, a);
    ChangesAreByHolder(s, a);
    assert Owns(s.servers[q], q, s.lock, s.socket);
    ListenerHolds(s.servers[q]);
  }

  lemma {:induction false} ListenerHolds(v: Server)
    ensures Listens(v) ==> Holds(v)
  {
  }

  // ---- Whole runs ----

  /** Ownership holds in every state that the run goes through. */
  ghost predicate ExclusiveThroughout(s: System, actions: seq<Action>)
    requires Runs(s, actions)
    decreases |actions|
  {
    Exclusive(s) && (actions != [] ==> ExclusiveThroughout(Do(s, actions[0]), actions[1..]))
  }

  predicate HarmlessRun(s: System, actions: seq<Action>)
    requires Runs(s, actions)
    decreases |actions|
  {
    actions != [] ==> !Harmful(s, actions[0]) && HarmlessRun(Do(s, actions[0]), actions[1..])
  }

  lemma {:induction false} RunKeepsExclusiveIff(s: System, actions: seq<Action>)
    requires Runs(s, actions) && Exclusive(s)
    ensures ExclusiveThroughout(s, actions) <==> HarmlessRun(s, actions)
    decreases |actions|
  {
    if actions != [] {
      StepKeepsExclusiveIff(s, actions[0]);
      if !Harmful(s, actions[0]) {
        RunKeepsExclusiveIff(Do(s, actions[0]), actions[1..]);
      }
    }
  }

  /** The server whose lock file the journal says is in place. */
  function Tenant(journal: seq<FileOp>): Option<Pid>
    decreases |journal|
  {
    if journal == [] then None
    else
      match journal[|journal| - 1]
      case MakeLock(p) => Some(p)
      case DropLock(_) => None
      case _ => Tenant(journal[..|journal| - 1])
  }

  /** One operation is in order: a lock file is made only when there is none, everything else is
      done by the tenant, and Close unlinks only the server's own socket. */
  predicate InOrder(tenant: Option<Pid>, op: FileOp) {
    match op
    case MakeLock(_) => tenant == None
    case DropLock(p) => tenant == Some(p)
    case MakeSocket(p) => tenant == Some(p)
    case ClearSocket(p, _) => tenant == Some(p)
    case CloseSocket(p, owner) => tenant == Some(p) && owner == p
  }

  /** The tenancies in the journal follow one another without overlap. */
  predicate Orderly(journal: seq<FileOp>)
    decreases |journal|
  {
    journal != [] ==>
      var before := journal[..|journal| - 1];
      Orderly(before) && InOrder(Tenant(before), journal[|journal| - 1])
  }

  lemma {:induction false} JournalSnoc(journal: seq<FileOp>, op: FileOp)
    requires Orderly(journal) && InOrder(Tenant(journal), op)
    ensures Orderly(journal + [op])
    ensures op.MakeLock? ==> Tenant(journal + [op]) == Some(op.actor)
    ensures op.DropLock? ==> Tenant(journal + [op]) == None
    ensures !op.MakeLock? && !op.DropLock? ==> Tenant(journal + [op]) == Tenant(journal)
  {
    assert (journal + [op])[..|journal|] == journal;
  }

  /** What disciplined runs keep on top of ownership. */
  ghost predicate Governed(s: System) {
    && Exclusive(s)
    && (forall p: Pid :: p < |s.servers| ==> s.servers[p].closer.Unused? || Found(s.servers[p]))
    && Orderly(s.journal) && s.lock == Tenant(s.journal)
  }

  predicate Proper(s: System, a: Action)
    requires Enabled(s, a)
  {
    a.CallClose? ==> s.servers[a.pid].phase == Serving
  }

  /** Each step adds at most one operation to the journal, and a disciplined one is in order. */
  lemma {:induction false} StepIsJournaled(s: System, a: Action)
    requires Governed(s) && Enabled(s, a) && Proper(s, a)
    ensures Orderly(Do(s, a).journal) && Do(s, a).lock == Tenant(Do(s, a).journal)
  {
    var t := Do(s, a);
    assert Owns(s.servers[a.pid], a.pid, s.lock, s.socket);
    if t.journal != s.journal {
      var op := t.journal[|s.journal|];
      assert t.journal == s.journal + [op];
      JournalSnoc(s.journal, op);
    }
  }

  lemma {:induction false} StepKeepsClosersProper(s: System, a: Action)
    requires Governed(s) && Enabled(s, a) && Proper(s, a)
    ensures var t := Do(s, a); forall p: Pid :: p < |t.servers| ==> t.servers[p].closer.Unused? || Found(t.servers[p])
    ensures !Harmful(s, a)
  {
    assert s.servers[a.pid].closer.Unused? || Found(s.servers[a.pid]);
    assert forall p: Pid :: p < |s.servers| && p != a.pid ==> Do(s, a).servers[p] == s.servers[p];
  }

  lemma {:induction false} StepKeepsGoverned(s: System, a: Action)
    requires Governed(s) && Enabled(s, a) && Proper(s, a)
    ensures Governed(Do(s, a)) && !Harmful(s, a)
  {
    StepKeepsClosersProper(s, a);
    StepKeepsExclusiveIff(s, a);
    StepIsJournaled(s, a);
  }

  lemma {:induction false} RunKeepsGoverned(s: System, actions: seq<Action>)
    requires Runs(s, actions) && Governed(s) && Disciplined(s, actions)
    ensures Governed(Exec(s, actions)) && HarmlessRun(s, actions)
    decreases |actions|
  {
    if actions != [] {
      StepKeepsGoverned(s, actions[0]);
      RunKeepsGoverned(Do(s, actions[0]), actions[1..]);
    }
  }

  /** Over every interleaving of Start, its failure exits, crashes and Close after a successful
      Start: there is at most one holder, its lock file is its own, whoever serves owns the
      socket, and all file operations ever made form tenancies that do not overlap. */
  lemma {:induction false} MutualExclusion(n: nat, actions: seq<Action>)
    requires Runs(Initial(n), actions) && Disciplined(Initial(n), actions)
    ensures var s := Exec(Initial(n), actions);
            && (forall p: Pid, q: Pid :: p < |s.servers| && q < |s.servers| && Holds(s.servers[p]) && Holds(s.servers[q]) ==> p == q)
            && (forall p: Pid :: p < |s.servers| && Holds(s.servers[p]) ==> s.lock == Some(p))
            && (forall p: Pid :: p < |s.servers| && Listens(s.servers[p]) ==> s.socket == Some(p))
            && Orderly(s.journal) && s.lock == Tenant(s.journal)
  {
    RunKeepsGoverned(Initial(n), actions);
    var s := Exec(Initial(n), actions);
    forall p: Pid | p < |s.servers| ensures Owns(s.servers[p], p, s.lock, s.socket) {
    }
  }

  /** Whatever makes or unlinks the socket file holds the lock before and after, and an unlink by
      Close takes away no other server's socket. */
  lemma {:induction false} SocketChangesAreByHolder(n: nat, actions: seq<Action>, a: Action)
    requires Runs(Initial(n), actions) && Disciplined(Initial(n), actions)
    requires var s := Exec(Initial(n), actions); Enabled(s, a) && Proper(s, a)
    ensures var s := Exec(Initial(n), actions);
            var t := Do(s, a);
            && (t.socket != s.socket ==> Holds(s.servers[a.pid]) && s.lock == Some(a.pid) == t.lock)
            && ((a.CloseListener? || a.RemoveSocket?) && t.socket != s.socket ==> s.socket == Some(a.pid))
  {
    RunKeepsGoverned(Initial(n), actions);
    var s := Exec(Initial(n), actions);
    ChangesAreByHolder(s, a);
    assert Owns(s.servers[a.pid], a.pid, s.lock, s.socket);
  }

  // ---- The journal accounts for both paths ----

  /** The server whose socket file the journal says is in place. */
  function SocketMaker(journal: seq<FileOp>): Option<Pid>
    decreases |journal|
  {
    if journal == [] then None
    else
      match journal[|journal| - 1]
      case MakeSocket(p) => Some(p)
      case ClearSocket(_, _) | CloseSocket(_, _) => None
      case _ => SocketMaker(journal[..|journal| - 1])
  }

  /** A file is made only where there is none, and an unlink names the maker of what it takes away. */
  predicate Fitting(lock: Option<Pid>, socket: Option<Pid>, op: FileOp) {
    match op
    case MakeLock(_) => lock == None
    case DropLock(_) => lock.Some?
    case MakeSocket(_) => socket == None
    case ClearSocket(_, owner) => socket == Some(owner)
    case CloseSocket(_, owner) => socket == Some(owner)
  }

  predicate Accounted(journal: seq<FileOp>)
    decreases |journal|
  {
    journal != [] ==>
      var before := journal[..|journal| - 1];
      Accounted(before) && Fitting(Tenant(before), SocketMaker(before), journal[|journal| - 1])
  }

  ghost predicate Balanced(s: System) {
    Accounted(s.journal) && Tenant(s.journal) == s.lock && SocketMaker(s.journal) == s.socket
  }

  lemma {:induction false} OneMoreOp(journal: seq<FileOp>, op: FileOp)
    requires Accounted(journal) && Fitting(Tenant(journal), SocketMaker(journal), op)
    ensures Accounted(journal + [op])
    ensures Tenant(journal + [op]) == match op case MakeLock(p) => Some(p) case DropLock(_) => None case _ => Tenant(journal)
    ensures SocketMaker(journal + [op])
         == match op case MakeSocket(p) => Some(p) case ClearSocket(_, _) | CloseSocket(_, _) => None case _ => SocketMaker(journal)
  {
    assert (journal + [op])[..|journal|] == journal;
  }

  /** What a step does to the two paths is what it adds to the journal. */
  lemma {:induction false} StepAddsOp(s: System, a: Action) returns (op: Option<FileOp>)
    requires Enabled(s, a)
    ensures var t := Do(s, a); op == None ==> t.journal == s.journal && t.lock == s.lock && t.socket == s.socket
    ensures var t := Do(s, a);
            op.Some? ==>
              && t.journal == s.journal + [op.value] && Fitting(s.lock, s.socket, op.value)
              && t.lock == (match op.value case MakeLock(p) => Some(p) case DropLock(_) => None case _ => s.lock)
              && t.socket == (match op.value case MakeSocket(p) => Some(p) case ClearSocket(_, _) | CloseSocket(_, _) => None case _ => s.socket)
  {
    var t := Do(s, a);
    op := if |t.journal| == |s.journal| then None else Some(t.journal[|s.journal|]);
  }

  lemma {:induction false} StepKeepsBalance(s: System, a: Action)
    requires Balanced(s) && Enabled(s, a)
    ensures Balanced(Do(s, a))
  {
    var op := StepAddsOp(s, a);
    if op.Some? {
      OneMoreOp(s.journal, op.value);
    }
  }

  /** Over every run, disciplined or not, the journal tells what is at the two paths: each file in
      place was made by the server it names, and every file that is gone was unlinked by an entry. */
  lemma {:induction false} JournalAccounts(s: System, actions: seq<Action>)
    requires Balanced(s) && Runs(s, actions)
    ensures Balanced(Exec(s, actions))
    decreases |actions|
  {
    if actions != [] {
      StepKeepsBalance(s, actions[0]);
      JournalAccounts(Do(s, actions[0]), actions[1..]);
    }
  }

  lemma {:induction false} StartsBalanced(n: nat, actions: seq<Action>)
    requires Runs(Initial(n), actions)
    ensures Balanced(Exec(Initial(n), actions))
  {
    JournalAccounts(Initial(n), actions);
  }

  // ---- Stale locks ----

  /** A lock file that nobody holds: left by a crash or by a removal that failed. */
  predicate Stale(s: System, p: Pid) {
    s.lock == Some(p) && forall q: Pid :: q < |s.servers| ==> !Holds(s.servers[q])
  }

  /** No Start ever succeeds again: the protocol has no way past a stale lock. */
  lemma {:induction false} StaleLockIsForever(s: System, p: Pid, actions: seq<Action>)
    requires Governed(s) && Stale(s, p) && Runs(s, actions) && Disciplined(s, actions)
    ensures Stale(Exec(s, actions), p) && Exec(s, actions).socket == s.socket
    decreases |actions|
  {
    if actions != [] {
      var a := actions[0];
      var t := Do(s, a);
      StepKeepsGoverned(s, a);
      ChangesAreByHolder(s, a);
      assert Owns(s.servers[a.pid], a.pid, s.lock, s.socket);
      assert !Holds(s.servers[a.pid]);
      forall q: Pid | q < |t.servers| ensures !Holds(t.servers[q]) {
        assert !Holds(s.servers[q]);
      }
      StaleLockIsForever(t, p, actions[1..]);
    }
  }

  /** A server that crashed does nothing more. */
  lemma {:induction false} CrashedIsSilent(s: System, p: Pid, actions: seq<Action>)
    requires p < |s.servers| && s.servers[p].phase == Crashed && Runs(s, actions)
    ensures forall i :: 0 <= i < |actions| ==> actions[i].pid != p
    ensures |Exec(s, actions).servers| == |s.servers| && Exec(s, actions).servers[p] == s.servers[p]
    decreases |actions|
  {
    if actions != [] {
      CrashedIsSilent(Do(s, actions[0]), p, actions[1..]);
      assert forall i :: 0 < i < |actions| ==> actions[i] == actions[1..][i - 1];
    }
  }

  /** A server that crashes while it holds the lock leaves it for good: it does nothing more, and in
      every disciplined run from then on the file stays and nobody holds it. */
  lemma {:induction false} CrashedHolderLocksOut(s: System, p: Pid, actions: seq<Action>)
    requires Governed(s) && p < |s.servers| && Holds(s.servers[p])
    requires Runs(Do(s, Crash(p)), actions) && Disciplined(Do(s, Crash(p)), actions)
    ensures Stale(Exec(Do(s, Crash(p)), actions), p)
    ensures forall i :: 0 <= i < |actions| ==> actions[i].pid != p
    ensures Exec(Do(s, Crash(p)), actions).socket == s.socket
  {
    var t := Do(s, Crash(p));
    assert Owns(s.servers[p], p, s.lock, s.socket);
    StepKeepsGoverned(s, Crash(p));
    forall q: Pid | q < |t.servers| ensures !Holds(t.servers[q]) {
      assert q != p ==> Owns(s.servers[q], q, s.lock, s.socket) && t.servers[q] == s.servers[q];
    }
    CrashedIsSilent(t, p, actions);
    StaleLockIsForever(t, p, actions);
  }

  /** Some run of the server's own steps takes it from Idle to Serving. */
  ghost predicate CanStart(s: System, p: Pid) {
    exists actions: seq<Action> :: Runs(s, actions) && StartsBy(s, p, actions)
  }

  ghost predicate StartsBy(s: System, p: Pid, actions: seq<Action>)
    requires Runs(s, actions)
  {
    && Disciplined(s, actions)
    && (forall i :: 0 <= i < |actions| ==> actions[i].pid == p)
    && p < |Exec(s, actions).servers| && Exec(s, actions).servers[p].phase == Serving
  }

  /** While the lock path is taken, an idle server's own steps get it nowhere. */
  lemma {:induction false} TakenLockRefuses(s: System, p: Pid, actions: seq<Action>)
    requires p < |s.servers| && s.lock.Some? && Runs(s, actions) && Disciplined(s, actions)
    requires (s.servers[p].phase == Idle && s.servers[p].closer.Unused?) || s.servers[p].phase == Crashed
    requires forall i :: 0 <= i < |actions| ==> actions[i].pid == p
    ensures p < |Exec(s, actions).servers| && Exec(s, actions).servers[p].phase != Serving
    decreases |actions|
  {
    if actions != [] {
      assert actions[0].pid == p;
      TakenLockRefuses(Do(s, actions[0]), p, actions[1..]);
    }
  }

  /** The successful run of Start. */
  function StartActions(p: Pid): seq<Action> {
    [OpenLock(p, true), WritePid(p, true), RemoveOldSocket(p, true), Listen(p, Bound), Publish(p)]
  }

  lemma {:induction false} ListenAndServe(s: System, p: Pid)
    requires p < |s.servers| && s.servers[p].phase == SocketCleared && s.socket == None
    ensures var actions := [Listen(p, Bound), Publish(p)];
            && Runs(s, actions) && Disciplined(s, actions)
            && |Exec(s, actions).servers| == |s.servers| && Exec(s, actions).servers[p].phase == Serving
  {
    var s1 := Do(s, Listen(p, Bound));
    ProperCons(s1, Publish(p), []);
    assert [Publish(p)] + [] == [Publish(p)];
    ProperCons(s, Listen(p, Bound), [Publish(p)]);
    assert [Listen(p, Bound)] + [Publish(p)] == [Listen(p, Bound), Publish(p)];
  }

  lemma {:induction false} FreeLockAdmits(s: System, p: Pid)
    requires p < |s.servers| && s.lock == None && s.servers[p] == Server(Idle, Unused)
    ensures Runs(s, StartActions(p)) && StartsBy(s, p, StartActions(p))
  {
    var s1 := Do(s, OpenLock(p, true));
    var s2 := Do(s1, WritePid(p, true));
    var s3 := Do(s2, RemoveOldSocket(p, true));
    var as3 := [Listen(p, Bound), Publish(p)];
    var as2 := [RemoveOldSocket(p, true)] + as3;
    var as1 := [WritePid(p, true)] + as2;
    ListenAndServe(s3, p);
    ProperCons(s2, RemoveOldSocket(p, true), as3);
    ProperCons(s1, WritePid(p, true), as2);
    ProperCons(s, OpenLock(p, true), as1);
    assert StartActions(p) == [OpenLock(p, true)] + as1;
  }

  lemma {:induction false} ProperCons(s: System, a: Action, rest: seq<Action>)
    requires Enabled(s, a) && Proper(s, a) && Runs(Do(s, a), rest) && Disciplined(Do(s, a), rest)
    ensures Runs(s, [a] + rest) && Disciplined(s, [a] + rest) && Exec(s, [a] + rest) == Exec(Do(s, a), rest)
  {
    assert ([a] + rest)[1..] == rest;
  }

  /** Start can succeed on an idle server exactly when the lock path is free. */
  lemma {:induction false} StartSucceedsIffFree(s: System, p: Pid)
    requires Governed(s) && p < |s.servers| && s.servers[p].phase == Idle
    ensures CanStart(s, p) <==> s.lock == None
  {
    assert Owns(s.servers[p], p, s.lock, s.socket);
    assert s.servers[p].closer.Unused?;
    if s.lock == None {
      FreeLockAdmits(s, p);
    } else {
      forall actions: seq<Action> | Runs(s, actions) && Disciplined(s, actions) && (forall i :: 0 <= i < |actions| ==> actions[i].pid == p)
        ensures !StartsBy(s, p, actions)
      {
        TakenLockRefuses(s, p, actions);
      }
    }
  }

  /** A Close whose last unlink succeeds hands over: afterwards every idle server can start. */
  lemma {:induction false} CloseHandsOver(s: System, p: Pid, q: Pid)
    requires Governed(s) && Enabled(s, RemoveLock(p, true))
    requires q < |s.servers| && s.servers[q].phase == Idle
    ensures var t := Do(s, RemoveLock(p, true)); t.lock == None && CanStart(t, q)
  {
    var t := Do(s, RemoveLock(p, true));
    StepKeepsGoverned(s, RemoveLock(p, true));
    ChangesAreByHolder(s, RemoveLock(p, true));
    assert q == p || t.servers[q] == s.servers[q];
    StartSucceedsIffFree(t, q);
  }

  // ---- Close before Start ----

  /** Close on a server that has not started takes the lock from whoever holds it, and the next
      Start makes a second holder. */
  lemma {:induction false} EarlyCloseBreaksExclusion(s: System, p: Pid, q: Pid, r: Pid) returns (actions: seq<Action>)
    requires Exclusive(s) && p < |s.servers| && q < |s.servers| && r < |s.servers| && p != q && p != r && q != r
    requires Holds(s.servers[p]) && s.servers[q] == Server(Idle, Unused) && s.servers[r].phase == Idle
    ensures Runs(s, actions) && !HarmlessRun(s, actions)
    ensures var t := Exec(s, actions); |t.servers| == |s.servers| && Holds(t.servers[p]) && Holds(t.servers[r])
  {
    var s1 := Do(s, CallClose(q));
    var s2 := Do(s1, RemoveSocket(q, false));
    var s3 := Do(s2, RemoveLock(q, true));
    var s4 := Do(s3, OpenLock(r, true));
    var as4: seq<Action> := [];
    var as3 := [OpenLock(r, true)] + as4;
    var as2 := [RemoveLock(q, true)] + as3;
    var as1 := [RemoveSocket(q, false)] + as2;
    actions := [CallClose(q)] + as1;
    assert as3[1..] == as4 && as2[1..] == as3 && as1[1..] == as2 && actions[1..] == as1;
    assert Runs(s4, as4) && Exec(s4, as4) == s4;
    assert Runs(s3, as3) && Exec(s3, as3) == s4;
    assert Owns(s.servers[p], p, s.lock, s.socket);
    assert Runs(s2, as2) && Exec(s2, as2) == s4 && Harmful(s2, as2[0]);
    assert !HarmlessRun(s2, as2);
    assert Runs(s1, as1) && Exec(s1, as1) == s4 && !HarmlessRun(s1, as1);
  }

  // ---- Start and Close from beginning to end ----

  /** The steps of one Start on its own, with the outcome of each: those after a failure are the exit. */
  function StartScript(p: Pid, pidOk: bool, clearOk: bool, listen: ListenResult, dropOk: bool): seq<Action> {
    [OpenLock(p, true), WritePid(p, pidOk)]
    + if !pidOk then ExitScript(p, dropOk)
      else [RemoveOldSocket(p, clearOk)]
           + if !clearOk then ExitScript(p, dropOk)
             else [Listen(p, listen)] + if listen == Bound then [Publish(p)] else ExitScript(p, dropOk)
  }

  function ExitScript(p: Pid, dropOk: bool): seq<Action> {
    [GiveUpFile(p), GiveUpLock(p, dropOk)]
  }

  lemma {:induction false} RunsCons(s: System, a: Action, rest: seq<Action>)
    requires Enabled(s, a) && Runs(Do(s, a), rest)
    ensures Runs(s, [a] + rest) && Exec(s, [a] + rest) == Exec(Do(s, a), rest)
  {
    assert ([a] + rest)[1..] == rest;
  }

  /** A failure exit frees the lock exactly when its removal succeeds, and says so in the journal. */
  lemma {:induction false} ExitFreesLock(s: System, p: Pid, dropOk: bool)
    requires p < |s.servers| && s.servers[p].phase == GivingUp && s.lock == Some(p)
    ensures Runs(s, ExitScript(p, dropOk))
    ensures var t := Exec(s, ExitScript(p, dropOk));
            && |t.servers| == |s.servers| && t.servers[p].phase == Idle && t.socket == s.socket
            && (forall q: Pid :: q < |s.servers| && q != p ==> t.servers[q] == s.servers[q])
            && (dropOk ==> t.lock == None && t.journal == s.journal + [DropLock(p)])
            && (!dropOk ==> t.lock == Some(p) && t.journal == s.journal)
            && t.servers[p].closer == s.servers[p].closer
  {
    var s1 := Do(s, GiveUpFile(p));
    var s2 := Do(s1, GiveUpLock(p, dropOk));
    RunsCons(s1, GiveUpLock(p, dropOk), []);
    RunsCons(s, GiveUpFile(p), [GiveUpLock(p, dropOk)]);
    assert [GiveUpLock(p, dropOk)] + [] == [GiveUpLock(p, dropOk)];
    assert [GiveUpFile(p)] + [GiveUpLock(p, dropOk)] == ExitScript(p, dropOk);
    assert Exec(s2, []) == s2;
  }

  /** A Start that fails after it got the lock hands over like a Close: from every reachable
      disciplined state with a server on its way out, the lock path is free after its last two steps
      exactly when the removal succeeded, and then every idle server can start. */
  lemma {:induction false} FailedStartHandsOver(s: System, p: Pid, q: Pid, dropOk: bool)
    requires Governed(s) && p < |s.servers| && q < |s.servers| && s.servers[p].phase == GivingUp
    requires q == p || s.servers[q].phase == Idle
    ensures Runs(s, ExitScript(p, dropOk))
    ensures var t := Exec(s, ExitScript(p, dropOk));
            && (t.lock == None <==> dropOk) && (CanStart(t, q) <==> dropOk)
            && (dropOk ==> t.journal != [] && t.journal[|t.journal| - 1] == DropLock(p))
  {
    assert Owns(s.servers[p], p, s.lock, s.socket);
    ExitFreesLock(s, p, dropOk);
    var t := Exec(s, ExitScript(p, dropOk));
    ExitDisciplined(s, p, dropOk);
    RunKeepsGoverned(s, ExitScript(p, dropOk));
    StartSucceedsIffFree(t, q);
  }

  lemma {:induction false} ExitDisciplined(s: System, p: Pid, dropOk: bool)
    requires Runs(s, ExitScript(p, dropOk))
    ensures Disciplined(s, ExitScript(p, dropOk))
  {
    var script := ExitScript(p, dropOk);
    assert script[1..] == [GiveUpLock(p, dropOk)] && script[1..][1..] == [];
    assert Disciplined(Do(s, script[0]), script[1..]);
  }

  /** What one Start comes to, undisturbed: it serves exactly when each of its three steps succeeds;
      otherwise the server is idle again and the lock is gone exactly when its removal succeeded. */
  lemma {:induction false} StartOutcome(s: System, p: Pid, pidOk: bool, clearOk: bool, listen: ListenResult, dropOk: bool)
    requires p < |s.servers| && s.servers[p] == Server(Idle, Unused) && s.lock == None
    ensures var script := StartScript(p, pidOk, clearOk, listen, dropOk);
            && Runs(s, script) && |Exec(s, script).servers| == |s.servers|
            && var t := Exec(s, script);
               var ok := pidOk && clearOk && listen == Bound;
               && (ok ==> t.servers[p].phase == Serving && t.lock == Some(p) && t.socket == Some(p))
               && (!ok ==> t.servers[p].phase == Idle && (t.lock == None <==> dropOk))
               && (!ok ==> t.socket == if !pidOk || !clearOk then s.socket else if listen == RefusedAfterBind then Some(p) else None)
  {
    var s1 := Do(s, OpenLock(p, true));
    var s2 := Do(s1, WritePid(p, pidOk));
    if !pidOk {
      ExitFreesLock(s2, p, dropOk);
      StartPrefix(s, s1, p, pidOk, ExitScript(p, dropOk));
    } else {
      var s3 := Do(s2, RemoveOldSocket(p, clearOk));
      if !clearOk {
        ExitFreesLock(s3, p, dropOk);
        RunsCons(s2, RemoveOldSocket(p, clearOk), ExitScript(p, dropOk));
        StartPrefix(s, s1, p, pidOk, [RemoveOldSocket(p, clearOk)] + ExitScript(p, dropOk));
      } else {
        ListenOutcome(s3, p, listen, dropOk);
        var tail := [Listen(p, listen)] + if listen == Bound then [Publish(p)] else ExitScript(p, dropOk);
        RunsCons(s2, RemoveOldSocket(p, clearOk), tail);
        StartPrefix(s, s1, p, pidOk, [RemoveOldSocket(p, clearOk)] + tail);
      }
    }
  }

  lemma {:induction false} StartPrefix(s: System, s1: System, p: Pid, pidOk: bool, rest: seq<Action>)
    requires Enabled(s, OpenLock(p, true)) && s1 == Do(s, OpenLock(p, true))
    requires Enabled(s1, WritePid(p, pidOk)) && Runs(Do(s1, WritePid(p, pidOk)), rest)
    ensures Runs(s, [OpenLock(p, true), WritePid(p, pidOk)] + rest)
    ensures Exec(s, [OpenLock(p, true), WritePid(p, pidOk)] + rest) == Exec(Do(s1, WritePid(p, pidOk)), rest)
  {
    RunsCons(s1, WritePid(p, pidOk), rest);
    RunsCons(s, OpenLock(p, true), [WritePid(p, pidOk)] + rest);
    assert [OpenLock(p, true), WritePid(p, pidOk)] + rest == [OpenLock(p, true)] + ([WritePid(p, pidOk)] + rest);
  }

  lemma {:induction false} ListenOutcome(s: System, p: Pid, listen: ListenResult, dropOk: bool)
    requires p < |s.servers| && s.servers[p].phase == SocketCleared && s.lock == Some(p) && s.socket == None
    ensures var script := [Listen(p, listen)] + if listen == Bound then [Publish(p)] else ExitScript(p, dropOk);
            && Runs(s, script) && |Exec(s, script).servers| == |s.servers|
            && var t := Exec(s, script);
               && (listen == Bound ==> t.servers[p].phase == Serving && t.lock == Some(p) && t.socket == Some(p))
               && (listen != Bound ==> t.servers[p].phase == Idle && (t.lock == None <==> dropOk))
               && (listen != Bound ==> t.socket == if listen == RefusedAfterBind then Some(p) else None)
  {
    var s1 := Do(s, Listen(p, listen));
    if listen == Bound {
      var s2 := Do(s1, Publish(p));
      RunsCons(s1, Publish(p), []);
      assert [Publish(p)] + [] == [Publish(p)] && Exec(s2, []) == s2;
      RunsCons(s, Listen(p, listen), [Publish(p)]);
    } else {
      ExitFreesLock(s1, p, dropOk);
      RunsCons(s, Listen(p, listen), ExitScript(p, dropOk));
    }
  }

  /** What one Close of a serving server comes to, undisturbed: the socket is gone if either unlink
      worked, the lock if its removal did. */
  lemma {:induction false} CloseOutcome(s: System, p: Pid, unlinked: bool, socketOk: bool, lockOk: bool)
    requires p < |s.servers| && s.servers[p] == Server(Serving, Unused) && s.lock == Some(p) && s.socket == Some(p)
    ensures var script := [CallClose(p), CloseListener(p, unlinked), CloseLockFile(p), RemoveSocket(p, socketOk), RemoveLock(p, lockOk)];
            && Runs(s, script) && |Exec(s, script).servers| == |s.servers|
            && var t := Exec(s, script);
               && t.servers[p].closer == Closed(true)
               && (t.socket == None <==> unlinked || socketOk) && (t.lock == None <==> lockOk)
  {
    var s1 := Do(s, CallClose(p));
    var s2 := Do(s1, CloseListener(p, unlinked));
    var s3 := Do(s2, CloseLockFile(p));
    var s4 := Do(s3, RemoveSocket(p, socketOk));
    var s5 := Do(s4, RemoveLock(p, lockOk));
    var as5: seq<Action> := [];
    var as4 := [RemoveLock(p, lockOk)] + as5;
    var as3 := [RemoveSocket(p, socketOk)] + as4;
    var as2 := [CloseLockFile(p)] + as3;
    var as1 := [CloseListener(p, unlinked)] + as2;
    assert Exec(s5, as5) == s5;
    RunsCons(s4, RemoveLock(p, lockOk), as5);
    RunsCons(s3, RemoveSocket(p, socketOk), as4);
    RunsCons(s2, CloseLockFile(p), as3);
    RunsCons(s1, CloseListener(p, unlinked), as2);
    RunsCons(s, CallClose(p), as1);
    assert [CallClose(p)] + as1
        == [CallClose(p), CloseListener(p, unlinked), CloseLockFile(p), RemoveSocket(p, socketOk), RemoveLock(p, lockOk)];
  }
}
