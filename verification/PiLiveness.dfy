/** Whether the pi driver finishes: a subprocess exits only after it has written all its output, and
    nobody reads its stdout once the scan has ended, or its stderr once copying it has failed. */
module PiLiveness {
  import opened PiDriver

  /** A step of the subprocess or of one of the driver's goroutines, other than a read error. */
  predicate Own(a: Action) {
    !a.Receive? && !a.WaitDone? && !a.WaitCancel? && a != CloseEvents(true) && a != StopCopy(true)
  }

  ghost predicate CanMove(s: State) {
    exists a: Action :: Own(a) && Enabled(s, a)
  }

  /** What is still to be written once the scan has ended fits into the pipe. */
  predicate Drains(s: State) {
    Closed(s) ==> Bytes(s.prog.output) <= s.taken + s.prog.pipe
  }

  /** What is still to be written after a read error on stderr fits into the pipe. */
  predicate ErrDrains(s: State) {
    s.drainer == StderrDone && s.errCut ==> |s.prog.errors| <= s.drained + s.prog.pipe
  }

  /** The condition on the output alone: no line is too long, or what follows the first MaxLine
      bytes of the first such line fits into the pipe. */
  predicate Flows(prog: Program) {
    var k := FirstTooLong(prog.output);
    k == |prog.output| || Bytes(prog.output) <= Offset(prog.output, k) + MaxLine + prog.pipe
  }

  // ---- The order of the bytes ----

  /** How many of the first n bytes go there. */
  function Count(order: seq<Target>, n: nat, target: Target): nat
    requires n <= |order|
  {
    if n == 0 then 0 else Count(order, n - 1, target) + if order[n - 1] == target then 1 else 0
  }

  /** The program writes all of both streams, and its pipes hold something. */
  predicate Valid(prog: Program) {
    && prog.pipe > 0
    && Count(prog.order, |prog.order|, ToOut) == Bytes(prog.output)
    && Count(prog.order, |prog.order|, ToErr) == |prog.errors|
  }

  /** The subprocess has written the bytes in their order. */
  ghost predicate OrderInv(s: State) {
    var n := s.child.wrote + s.child.errWrote;
    && n <= |s.prog.order|
    && Count(s.prog.order, n, ToOut) == s.child.wrote && Count(s.prog.order, n, ToErr) == s.child.errWrote
  }

  lemma {:induction false} CountGrows(order: seq<Target>, i: nat, j: nat, target: Target)
    requires i <= j <= |order|
    ensures Count(order, i, target) <= Count(order, j, target)
  {
    if i < j {
      CountGrows(order, i, j - 1, target);
    }
  }

  lemma {:induction false} StepKeepsOrder(s: State, a: Action)
    requires OrderInv(s) && Enabled(s, a)
    ensures OrderInv(Do(s, a))
  {
    StepKeepsProgram(s, a);
    if !a.ChildWrite? && !a.ChildErr? {
      OnlyChildWrites(s, a);
    }
  }

  lemma {:induction false} OnlyChildWrites(s: State, a: Action)
    requires Enabled(s, a) && !a.ChildWrite? && !a.ChildErr?
    ensures Do(s, a).child.wrote == s.child.wrote && Do(s, a).child.errWrote == s.child.errWrote
  {
  }

  lemma {:induction false} RunKeepsOrder(s: State, actions: seq<Action>)
    requires OrderInv(s) && Runs(s, actions)
    ensures OrderInv(Exec(s, actions))
    decreases |actions|
  {
    if actions != [] {
      StepKeepsOrder(s, actions[0]);
      RunKeepsOrder(Do(s, actions[0]), actions[1..]);
    }
  }

  /** Until all is written there is a next byte, and there is room for it in its stream. */
  lemma {:induction false} NextByte(s: State)
    requires OrderInv(s) && Valid(s.prog)
    ensures WritesTo(s, ToOut) ==> s.child.wrote < Bytes(s.prog.output)
    ensures WritesTo(s, ToErr) ==> s.child.errWrote < |s.prog.errors|
    ensures !WritesTo(s, ToOut) && !WritesTo(s, ToErr) ==>
              s.child.wrote == Bytes(s.prog.output) && s.child.errWrote == |s.prog.errors|
  {
    var n := s.child.wrote + s.child.errWrote;
    if n < |s.prog.order| {
      CountGrows(s.prog.order, n + 1, |s.prog.order|, s.prog.order[n]);
    }
  }

  lemma {:induction false} OffsetGrows(output: seq<Line>, i: nat, j: nat)
    requires i <= j <= |output|
    ensures Offset(output, i) <= Offset(output, j)
  {
    if i < j {
      OffsetGrows(output, i, j - 1);
    }
  }

  // ---- Someone can always move while the pipe drains ----

  /** The subprocess can write or exit, or else the drainer can copy, while there is room for stdout
      and stderr drains. */
  lemma {:induction false} ChildOrDrainerCanMove(s: State) returns (a: Action)
    requires PipeInv(s) && OrderInv(s) && Valid(s.prog) && !s.child.exited && ErrDrains(s)
    requires s.child.wrote < Bytes(s.prog.output) ==> s.child.wrote < s.taken + s.prog.pipe
    ensures Own(a) && Enabled(s, a)
  {
    NextByte(s);
    if WritesTo(s, ToOut) {
      a := ChildWrite;
    } else if !WritesTo(s, ToErr) {
      a := ChildExit;
    } else if s.child.errWrote < s.drained + s.prog.pipe {
      a := ChildErr;
    } else {
      a := CopyChunk(1);
    }
  }

  lemma {:induction false} ReadingCanMove(s: State) returns (a: Action)
    requires PipeInv(s) && OrderInv(s) && Valid(s.prog) && ErrDrains(s) && s.scanner == Reading
    ensures Own(a) && Enabled(s, a)
  {
    OffsetGrows(s.prog.output, s.scanned, |s.prog.output|);
    if s.scanned == |s.prog.output| {
      if s.child.exited {
        a := CloseEvents(false);
      } else {
        a := ChildOrDrainerCanMove(s);
      }
    } else {
      OffsetGrows(s.prog.output, s.scanned + 1, |s.prog.output|);
      var line := s.prog.output[s.scanned];
      var start := Offset(s.prog.output, s.scanned);
      var needed := if line.TooLongLine? then start + MaxLine else start + Size(line);
      if s.taken >= needed {
        a := if line.TooLongLine? then CloseEvents(false) else Scan;
      } else if s.taken < s.child.wrote {
        a := Fill(1);
      } else {
        a := ChildOrDrainerCanMove(s);
      }
    }
  }

  lemma {:induction false} DoneScanningCanMove(s: State) returns (a: Action)
    requires PipeInv(s) && OrderInv(s) && Valid(s.prog) && PublicationInv(s) && Drains(s) && ErrDrains(s)
    requires s.scanner == ScanDone && !s.reaper.DoneClosed?
    ensures Own(a) && Enabled(s, a)
  {
    if !s.child.exited {
      a := ChildOrDrainerCanMove(s);
    } else if s.drainer == Copying {
      a := if s.drained < s.child.errWrote then CopyChunk(1) else StopCopy(false);
    } else {
      match s.reaper
      case AwaitScan => a := SeeScan;
      case AwaitStderr => a := SeeStderr;
      case Reaping => a := Reap(NoError);
      case Reaped(_) => a := Publish;
      case Published(_) => a := CloseDone;
    }
  }

  /** No goroutine waits for the consumer, whatever the channel holds; and as long as what nobody
      reads any more fits into its pipe, somebody can move until done is closed. */
  lemma {:induction false} NeverStuck(s: State)
    requires PipeInv(s) && OrderInv(s) && Valid(s.prog) && PublicationInv(s)
    requires Drains(s) && ErrDrains(s) && !s.reaper.DoneClosed?
    ensures CanMove(s)
  {
    match s.scanner
    case Reading =>
      var a := ReadingCanMove(s);
    case Sending(_) =>
      assert Own(TrySend) && Enabled(s, TrySend);
    case Noting(_) =>
      assert Own(WriteNote) && Enabled(s, WriteNote);
    case EventsClosed =>
      assert Own(SignalScan) && Enabled(s, SignalScan);
    case ScanDone =>
      var a := DoneScanningCanMove(s);
  }

  // ---- When it does not drain ----

  /** At the end of a scan without read errors the condition on the state is the one on the output. */
  lemma {:induction false} DrainsIffFlows(s: State)
    requires StreamInv(s) && PipeInv(s) && Closed(s) && !s.cut
    ensures Drains(s) <==> Flows(s.prog)
  {
    ScanCovers(s);
    OffsetGrows(s.prog.output, s.scanned, |s.prog.output|);
  }

  lemma {:induction false} ScannedLinesFit(s: State)
    requires FateInv(s)
    ensures s.scanned <= FirstTooLong(s.prog.output)
  {
    forall i | 0 <= i < s.scanned ensures !s.prog.output[i].TooLongLine? {
      if i < |s.fates| {
        assert Fits(s.prog.output[i], s.fates[i]);
      }
    }
  }

  /** If the output does not flow, no run ever gets the subprocess to exit: the pipe is full, nobody
      reads it, and the drainer and the reaper wait for good. */
  lemma {:induction false} NeverExits(s: State)
    requires StreamInv(s) && PipeInv(s) && !Flows(s.prog)
    ensures !s.child.exited
  {
    ScannedLinesFit(s);
    OffsetGrows(s.prog.output, s.scanned, FirstTooLong(s.prog.output));
  }

  /** Nor does it exit when more of stderr is left behind than the pipe holds. */
  lemma {:induction false} NeverExitsAfterErr(s: State)
    requires PipeInv(s) && !ErrDrains(s)
    ensures !s.child.exited
  {
  }

  // ---- Bounded work ----

  function Left(done: nat, total: nat): nat {
    if done < total then total - done else 0
  }

  function ScannerWork(scanner: Scanner): nat {
    match scanner
    case Sending(_) => 4
    case Noting(_) => 3
    case Reading => 2
    case EventsClosed => 1
    case ScanDone => 0
  }

  function LineWork(scanner: Scanner, scanned: nat, lines: nat): nat {
    3 * Left(scanned, lines) + ScannerWork(scanner)
  }

  function ReaperWork(r: Reaper): nat {
    match r
    case AwaitScan => 5
    case AwaitStderr => 4
    case Reaping => 3
    case Reaped(_) => 2
    case Published(_) => 1
    case DoneClosed(_) => 0
  }

  function ChildWork(s: State): nat {
    Left(s.child.wrote, Bytes(s.prog.output)) + Left(s.child.errWrote, |s.prog.errors|) + if s.child.exited then 0 else 1
  }

  function DriverWork(s: State): nat {
    Left(s.taken, Bytes(s.prog.output)) + LineWork(s.scanner, s.scanned, |s.prog.output|)
    + (if s.drainer == Copying then 1 + Left(s.drained, |s.prog.errors|) else 0)
    + ReaperWork(s.reaper)
  }

  /** The number of own steps left, at most. */
  function Work(s: State): nat {
    ChildWork(s) + DriverWork(s)
  }

  lemma {:induction false} ChildUsesWork(s: State, a: Action)
    requires PipeInv(s) && Enabled(s, a) && (a.ChildWrite? || a.ChildErr? || a.ChildExit?)
    ensures Work(Do(s, a)) < Work(s)
  {
  }

  /** Scanning and sending touch neither the subprocess nor the other goroutines. */
  predicate SameElsewhere(s: State, t: State) {
    && t.prog == s.prog && t.child == s.child && t.taken == s.taken
    && t.drainer == s.drainer && t.drained == s.drained && t.reaper == s.reaper
  }

  lemma {:induction false} ScanAdvances(s: State)
    requires Enabled(s, Scan)
    ensures var t := Do(s, Scan);
            SameElsewhere(s, t) && LineWork(t.scanner, t.scanned, |t.prog.output|) < LineWork(s.scanner, s.scanned, |s.prog.output|)
  {
  }

  lemma {:induction false} SendAdvances(s: State)
    requires Enabled(s, TrySend)
    ensures var t := Do(s, TrySend);
            SameElsewhere(s, t) && LineWork(t.scanner, t.scanned, |t.prog.output|) < LineWork(s.scanner, s.scanned, |s.prog.output|)
  {
  }

  lemma {:induction false} AdvanceUsesWork(s: State, t: State)
    requires SameElsewhere(s, t) && LineWork(t.scanner, t.scanned, |t.prog.output|) < LineWork(s.scanner, s.scanned, |s.prog.output|)
    ensures Work(t) < Work(s)
  {
  }

  lemma {:induction false} ScannerUsesWork(s: State, a: Action)
    requires PipeInv(s) && Enabled(s, a) && (a.Fill? || a.WriteNote? || a.CloseEvents? || a.SignalScan?)
    ensures Work(Do(s, a)) < Work(s)
  {
  }

  lemma {:induction false} OwnStepUsesWork(s: State, a: Action)
    requires PipeInv(s) && Enabled(s, a) && Own(a)
    ensures Work(Do(s, a)) < Work(s)
  {
    if a.ChildWrite? || a.ChildErr? || a.ChildExit? {
      ChildUsesWork(s, a);
    } else if a.Scan? {
      ScanAdvances(s);
      AdvanceUsesWork(s, Do(s, a));
    } else if a.TrySend? {
      SendAdvances(s);
      AdvanceUsesWork(s, Do(s, a));
    } else if a.Fill? || a.WriteNote? || a.CloseEvents? || a.SignalScan? {
      ScannerUsesWork(s, a);
    }
  }

  lemma {:induction false} OwnStepReadsOn(s: State, a: Action)
    requires Enabled(s, a) && Own(a) && !s.cut && !s.errCut
    ensures !Do(s, a).cut && !Do(s, a).errCut
  {
  }

  /** From any state the own steps run out: after finitely many of them nobody can move. */
  lemma {:induction false} OwnStepsRunOut(s: State) returns (actions: seq<Action>)
    requires Inv(s) && !s.cut && !s.errCut
    ensures Runs(s, actions) && !Exec(s, actions).cut && !Exec(s, actions).errCut && !CanMove(Exec(s, actions))
    decreases Work(s)
  {
    if a: Action :| Own(a) && Enabled(s, a) {
      StepKeepsInv(s, a);
      OwnStepUsesWork(s, a);
      OwnStepReadsOn(s, a);
      var rest := OwnStepsRunOut(Do(s, a));
      actions := [a] + rest;
      assert actions[1..] == rest;
    } else {
      actions := [];
    }
  }

  // ---- Main results ----

  /** Wherever a run without a stdout read error comes to rest, done is closed exactly when the
      output flows and what a stderr read error left unread fits into the pipe. Otherwise the
      subprocess hangs on a full pipe that nobody reads, and every goroutine waits. */
  lemma {:induction false} RestsFinishedIff(prog: Program, actions: seq<Action>)
    requires Valid(prog) && Runs(Initial(prog), actions)
    requires var s := Exec(Initial(prog), actions); !s.cut && !CanMove(s)
    ensures var s := Exec(Initial(prog), actions);
            && (s.reaper.DoneClosed? <==> Flows(prog) && ErrDrains(s))
            && (!s.reaper.DoneClosed? ==> Blocked(s))
  {
    var s0 := Initial(prog);
    RunKeepsInv(s0, actions);
    RunKeepsOrder(s0, actions);
    RestIff(Exec(s0, actions));
  }

  /** The subprocess cannot write its next byte because the reader of that pipe is gone. */
  predicate Blocked(s: State) {
    !s.child.exited &&
    ((WritesTo(s, ToOut) && Closed(s) && s.child.wrote == s.taken + s.prog.pipe)
     || (WritesTo(s, ToErr) && s.drainer == StderrDone && s.errCut && s.child.errWrote == s.drained + s.prog.pipe))
  }

  lemma {:induction false} RestIff(s: State)
    requires Inv(s) && OrderInv(s) && Valid(s.prog) && !s.cut && !CanMove(s)
    ensures s.reaper.DoneClosed? <==> Flows(s.prog) && ErrDrains(s)
    ensures !s.reaper.DoneClosed? ==> Blocked(s)
  {
    if Closed(s) {
      DrainsIffFlows(s);
    }
    if Flows(s.prog) && ErrDrains(s) {
      if !s.reaper.DoneClosed? {
        NeverStuck(s);
      }
    } else {
      if !Flows(s.prog) {
        NeverExits(s);
      } else {
        NeverExitsAfterErr(s);
      }
      RestBlocked(s);
    }
  }

  /** At rest with a subprocess that has not exited, it is blocked. */
  lemma {:induction false} RestBlocked(s: State)
    requires Inv(s) && OrderInv(s) && Valid(s.prog) && !CanMove(s) && !s.child.exited
    ensures Blocked(s)
  {
    NextByte(s);
    assert !Enabled(s, ChildWrite) && !Enabled(s, ChildErr) && !Enabled(s, ChildExit) by {
      assert Own(ChildWrite) && Own(ChildErr) && Own(ChildExit);
    }
    if WritesTo(s, ToOut) {
      if !Closed(s) {
        var a := ScannerCanMove(s);
      }
    } else {
      assert !Enabled(s, CopyChunk(1)) by {
        assert Own(CopyChunk(1));
      }
    }
  }

  /** A full stdout pipe keeps the scanner moving until it has closed its channel. */
  lemma {:induction false} ScannerCanMove(s: State) returns (a: Action)
    requires PipeInv(s) && s.prog.pipe > 0 && !Closed(s) && s.child.wrote == s.taken + s.prog.pipe
    ensures Own(a) && Enabled(s, a)
  {
    OffsetGrows(s.prog.output, s.scanned, |s.prog.output|);
    match s.scanner
    case Sending(_) => a := TrySend;
    case Noting(_) => a := WriteNote;
    case Reading =>
      if s.taken < Offset(s.prog.output, s.scanned) + MaxLine {
        a := Fill(1);
      } else if s.prog.output[s.scanned].TooLongLine? {
        a := CloseEvents(false);
      } else {
        a := Scan;
      }
  }

  /** Done can be closed exactly when the output flows. */
  lemma {:induction false} DoneReachableIff(prog: Program)
    requires Valid(prog)
    ensures (exists actions: seq<Action> :: Runs(Initial(prog), actions) && Finishes(prog, actions)) <==> Flows(prog)
  {
    var s0 := Initial(prog);
    if Flows(prog) {
      var actions := OwnStepsRunOut(s0);
      RestsFinishedIff(prog, actions);
      assert Finishes(prog, actions);
    } else {
      forall actions: seq<Action> | Runs(s0, actions) ensures !Finishes(prog, actions) {
        RunKeepsInv(s0, actions);
        NeverExits(Exec(s0, actions));
      }
    }
  }

  /** One over-long line is enough to hang the driver for good, exactly when its excess fills the pipe. */
  lemma {:induction false} OverlongLineHangsIff(prog: Program, excess: nat)
    requires prog.output == [TooLongLine(excess)]
    ensures !Flows(prog) <==> excess >= prog.pipe
    ensures !Flows(prog) <==> Bytes(prog.output) > 1_048_576 + prog.pipe
  {
    assert Offset(prog.output, 1) == MaxLine + 1 + excess;
  }

  ghost predicate Finishes(prog: Program, actions: seq<Action>)
    requires Runs(Initial(prog), actions)
  {
    Exec(Initial(prog), actions).reaper.DoneClosed?
  }

  function OwnSteps(actions: seq<Action>): nat
    decreases |actions|
  {
    if actions == [] then 0 else (if Own(actions[0]) then 1 else 0) + OwnSteps(actions[1..])
  }

  /** In every run the subprocess and the goroutines take a bounded number of steps, whatever the
      consumer and the callers of Wait do in between. */
  lemma {:induction false} OwnStepsAreBounded(s: State, actions: seq<Action>)
    requires Inv(s) && Runs(s, actions)
    ensures OwnSteps(actions) + Work(Exec(s, actions)) <= Work(s)
    decreases |actions|
  {
    if actions != [] {
      StepKeepsInv(s, actions[0]);
      if Own(actions[0]) {
        OwnStepUsesWork(s, actions[0]);
      } else {
        OtherStepKeepsWork(s, actions[0]);
      }
      OwnStepsAreBounded(Do(s, actions[0]), actions[1..]);
    }
  }

  lemma {:induction false} OtherStepKeepsWork(s: State, a: Action)
    requires Enabled(s, a) && !Own(a)
    ensures Work(Do(s, a)) <= Work(s)
  {
  }
}
