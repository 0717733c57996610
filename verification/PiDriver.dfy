/** The goroutines of adapters/pi/pi.go: the stdout scanner, the stderr drainer and the reaper that
    Spawn starts, with the subprocess, the consumer of Events and the callers of Wait, interleaved
    at will. */
module PiDriver {
  import opened Wrappers
  import opened Text

  const Capacity := 64

  /** The scanner's buffer in bytes. */
  const MaxLine := 1024 * 1024

  type LineSize = n: nat | n <= MaxLine

  /** A line of the subprocess's stdout, by what ParseLine makes of it, with its size in bytes up
      to and including the newline. A line beyond the scanner's buffer ends the scan. */
  datatype Line =
    | EventLine(kind: string, size: LineSize)
    | SkipLine(size: LineSize)
    | MalformedLine(message: string, size: LineSize)
    | TooLongLine(excess: nat)

  function Size(line: Line): nat {
    match line
    case EventLine(_, n) => n
    case SkipLine(n) => n
    case MalformedLine(_, n) => n
    case TooLongLine(excess) => MaxLine + 1 + excess
  }

  /** The position in stdout at which line k begins. */
  function Offset(output: seq<Line>, k: nat): nat
    requires k <= |output|
  {
    if k == 0 then 0 else Offset(output, k - 1) + Size(output[k - 1])
  }

  function Bytes(output: seq<Line>): nat {
    Offset(output, |output|)
  }

  datatype WorkerEvent = WorkerEvent(kind: string, sequence: nat)

  /** An entry of stderrBuf. */
  datatype Note =
    | ParseError(sequence: nat, message: string)
    | EventDropped(sequence: nat, kind: string)
    | Stderr(chunk: string)

  /** What became of a scanned line; a drop keeps the channel's length at that moment. */
  datatype Fate = Enqueued | Dropped(backlog: nat) | Skipped | Malformed

  datatype CmdErr = NoError | ExitStatus(code: int) | WaitFailure
  datatype Result = Result(exitCode: int, success: bool, reason: string)

  datatype Scanner = Reading | Sending(event: WorkerEvent) | Noting(note: Note) | EventsClosed | ScanDone
  datatype Drainer = Copying | StderrDone
  datatype Reaper =
    | AwaitScan | AwaitStderr | Reaping
    | Reaped(err: CmdErr) | Published(err: CmdErr) | DoneClosed(err: CmdErr)

  datatype Handed = ViaDone(result: Result, waitErr: Option<CmdErr>) | Cancelled

  /** Where the subprocess writes its next byte. */
  datatype Target = ToOut | ToErr

  /** The subprocess: all that it has to write to stdout and to stderr, the order in which it
      writes the bytes of the two, and the capacity of each of its pipes. */
  datatype Program = Program(output: seq<Line>, errors: string, order: seq<Target>, pipe: nat)

  /** How far the subprocess is; its exit is what closes its ends of the pipes. */
  datatype Child = Child(wrote: nat, errWrote: nat, exited: bool)

  /** `taken` and `drained` count the bytes read from stdout and stderr. `cut` and `errCut` say that
      a read error ended the reading. */
  datatype State = State(
    prog: Program, child: Child,
    scanner: Scanner, scanned: nat, taken: nat, cut: bool, fates: seq<Fate>,
    channel: seq<WorkerEvent>, received: seq<WorkerEvent>,
    drainer: Drainer, drained: nat, errCut: bool,
    buffer: seq<Note>,
    reaper: Reaper, published: nat, result: Result, waitErr: Option<CmdErr>,
    handed: seq<Handed>)

  datatype Action =
    | ChildWrite
    | ChildErr
    | ChildExit
    | Fill(bytes: nat)
    | Scan
    | TrySend
    | WriteNote
    | CloseEvents(readError: bool)
    | SignalScan
    | CopyChunk(bytes: nat)
    | StopCopy(readError: bool)
    | SeeScan
    | SeeStderr
    | Reap(err: CmdErr)
    | Publish
    | CloseDone
    | Receive
    | WaitDone
    | WaitCancel

  const NoResult := Result(0, false, "")

  function Initial(prog: Program): State {
    State(prog, Child(0, 0, false), Reading, 0, 0, false, [], [], [], Copying, 0, false, [],
          AwaitScan, 0, NoResult, None, [])
  }

  /** The next byte goes there. */
  predicate WritesTo(s: State, target: Target) {
    var n := s.child.wrote + s.child.errWrote;
    n < |s.prog.order| && s.prog.order[n] == target
  }

  /** The scanner's buffer is full of one line. */
  predicate Overlong(s: State) {
    && s.scanned < |s.prog.output| && s.prog.output[s.scanned].TooLongLine?
    && s.taken == Offset(s.prog.output, s.scanned) + MaxLine
  }

  /** The scan ends by itself: at end of file or at an over-long line. */
  predicate AtEnd(s: State) {
    Overlong(s) || (s.child.exited && s.scanned == |s.prog.output|)
  }

  predicate Enabled(s: State, a: Action) {
    match a
    case ChildWrite =>
      && !s.child.exited && WritesTo(s, ToOut)
      && s.child.wrote < Bytes(s.prog.output) && s.child.wrote < s.taken + s.prog.pipe
    case ChildErr =>
      && !s.child.exited && WritesTo(s, ToErr)
      && s.child.errWrote < |s.prog.errors| && s.child.errWrote < s.drained + s.prog.pipe
    case ChildExit => !s.child.exited && s.child.wrote == Bytes(s.prog.output) && s.child.errWrote == |s.prog.errors|
    case Fill(n) =>
      && s.scanner == Reading && n > 0 && s.taken + n <= s.child.wrote && s.scanned <= |s.prog.output|
      && s.taken + n <= Offset(s.prog.output, s.scanned) + MaxLine
    case Scan =>
      && s.scanner == Reading && s.scanned < |s.prog.output| && !s.prog.output[s.scanned].TooLongLine?
      && Offset(s.prog.output, s.scanned + 1) <= s.taken
    case TrySend => s.scanner.Sending?
    case WriteNote => s.scanner.Noting?
    case CloseEvents(readError) => s.scanner == Reading && (readError || AtEnd(s))
    case SignalScan => s.scanner == EventsClosed
    case CopyChunk(n) => s.drainer == Copying && n > 0 && s.drained + n <= s.child.errWrote <= |s.prog.errors|
    case StopCopy(readError) => s.drainer == Copying && (readError || (s.child.exited && s.drained == s.child.errWrote))
    case SeeScan => s.reaper == AwaitScan && s.scanner == ScanDone
    case SeeStderr => s.reaper == AwaitStderr && s.drainer == StderrDone
    case Reap(_) => s.reaper == Reaping && s.child.exited
    case Publish => s.reaper.Reaped?
    case CloseDone => s.reaper.Published?
    case Receive => s.channel != []
    case WaitDone => s.reaper.DoneClosed?
    case WaitCancel => true
  }

  // ---- publishResult ----

  function Digits(n: nat): string {
    if n < 10 then ["0123456789"[n]] else Digits(n / 10) + ["0123456789"[n % 10]]
  }

  function Render(n: Note): string {
    match n
    case ParseError(q, message) => "[pi-parse-error seq=" + Digits(q) + "] " + message + "\n"
    case EventDropped(q, kind) => "[pi-event-dropped seq=" + Digits(q) + " kind=" + kind + "] events channel full\n"
    case Stderr(chunk) => chunk
  }

  function RenderAll(notes: seq<Note>): string
    decreases |notes|
  {
    if notes == [] then "" else RenderAll(notes[..|notes| - 1]) + Render(notes[|notes| - 1])
  }

  function ResultOf(err: CmdErr, buffer: seq<Note>): Result {
    match err
    case NoError => Result(0, true, "")
    case ExitStatus(code) => Result(code, false, TrimSpace(RenderAll(buffer)))
    case WaitFailure => Result(-1, false, TrimSpace(RenderAll(buffer)))
  }

  function WaitErrOf(err: CmdErr): Option<CmdErr> {
    if err == NoError then None
    else if (if err.ExitStatus? then err.code else -1) == -1 then Some(err) else None
  }

  // ---- Steps ----

  function ScanStep(s: State): State
    requires Enabled(s, Scan)
  {
    var q := s.scanned + 1;
    match s.prog.output[s.scanned]
    case EventLine(kind, _) => s.(scanned := q, scanner := Sending(WorkerEvent(kind, q)))
    case SkipLine(_) => s.(scanned := q, fates := s.fates + [Skipped])
    case MalformedLine(message, _) => s.(scanned := q, fates := s.fates + [Malformed], scanner := Noting(ParseError(q, message)))
    case TooLongLine(_) => s
  }

  function SendStep(s: State): State
    requires Enabled(s, TrySend)
  {
    var e := s.scanner.event;
    if |s.channel| < Capacity then
      s.(scanner := Reading, channel := s.channel + [e], fates := s.fates + [Enqueued])
    else
      s.(scanner := Noting(EventDropped(e.sequence, e.kind)), fates := s.fates + [Dropped(|s.channel|)])
  }

  function Do(s: State, a: Action): State
    requires Enabled(s, a)
  {
    match a
    case ChildWrite => s.(child := s.child.(wrote := s.child.wrote + 1))
    case ChildErr => s.(child := s.child.(errWrote := s.child.errWrote + 1))
    case ChildExit => s.(child := s.child.(exited := true))
    case Fill(n) => s.(taken := s.taken + n)
    case Scan => ScanStep(s)
    case TrySend => SendStep(s)
    case WriteNote => s.(scanner := Reading, buffer := s.buffer + [s.scanner.note])
    case CloseEvents(_) => s.(scanner := EventsClosed, cut := !AtEnd(s))
    case SignalScan => s.(scanner := ScanDone)
    case CopyChunk(n) =>
      s.(drained := s.drained + n, buffer := s.buffer + [Stderr(s.prog.errors[s.drained..s.drained + n])])
    case StopCopy(_) => s.(drainer := StderrDone, errCut := !(s.child.exited && s.drained == s.child.errWrote))
    case SeeScan => s.(reaper := AwaitStderr)
    case SeeStderr => s.(reaper := Reaping)
    case Reap(err) => s.(reaper := Reaped(err))
    case Publish =>
      s.(reaper := Published(s.reaper.err), published := s.published + 1, result := ResultOf(s.reaper.err, s.buffer),
         waitErr := if WaitErrOf(s.reaper.err).Some? then WaitErrOf(s.reaper.err) else s.waitErr)
    case CloseDone => s.(reaper := DoneClosed(s.reaper.err))
    case Receive => s.(channel := s.channel[1..], received := s.received + [s.channel[0]])
    case WaitDone => s.(handed := s.handed + [ViaDone(s.result, s.waitErr)])
    case WaitCancel => s.(handed := s.handed + [Cancelled])
  }

  predicate Runs(s: State, actions: seq<Action>)
    decreases |actions|
  {
    actions == [] || (Enabled(s, actions[0]) && Runs(Do(s, actions[0]), actions[1..]))
  }

  function Exec(s: State, actions: seq<Action>): State
    requires Runs(s, actions)
    decreases |actions|
  {
    if actions == [] then s else Exec(Do(s, actions[0]), actions[1..])
  }

  // ---- Conservation of lines ----

  function SentFor(line: Line, n: nat, f: Fate): seq<WorkerEvent> {
    if f == Enqueued && line.EventLine? then [WorkerEvent(line.kind, n)] else []
  }

  function OwedFor(line: Line, n: nat, f: Fate): seq<Note> {
    match (f, line)
    case (Malformed, MalformedLine(message, _)) => [ParseError(n, message)]
    case (Dropped(_), EventLine(kind, _)) => [EventDropped(n, kind)]
    case _ => []
  }

  /** The events that reached the channel, numbered by their lines. */
  function Sent(output: seq<Line>, fates: seq<Fate>): seq<WorkerEvent>
    requires |fates| <= |output|
    decreases |fates|
  {
    if fates == [] then []
    else var n := |fates| - 1; Sent(output, fates[..n]) + SentFor(output[n], n + 1, fates[n])
  }

  /** The diagnostics owed for malformed lines and dropped events. */
  function Owed(output: seq<Line>, fates: seq<Fate>): seq<Note>
    requires |fates| <= |output|
    decreases |fates|
  {
    if fates == [] then []
    else var n := |fates| - 1; Owed(output, fates[..n]) + OwedFor(output[n], n + 1, fates[n])
  }

  /** The fate fits the line: each class of line has its own fates. */
  predicate Fits(line: Line, fate: Fate) {
    match fate
    case Enqueued => line.EventLine?
    case Dropped(backlog) => line.EventLine? && backlog == Capacity
    case Skipped => line.SkipLine?
    case Malformed => line.MalformedLine?
  }

  function ScannerNotes(buffer: seq<Note>): seq<Note>
    decreases |buffer|
  {
    if buffer == [] then []
    else
      var n := |buffer| - 1;
      ScannerNotes(buffer[..n]) + if buffer[n].Stderr? then [] else [buffer[n]]
  }

  function StderrText(buffer: seq<Note>): string
    decreases |buffer|
  {
    if buffer == [] then ""
    else
      var n := |buffer| - 1;
      StderrText(buffer[..n]) + if buffer[n].Stderr? then buffer[n].chunk else ""
  }

  lemma {:induction false} QueueSnoc(output: seq<Line>, fates: seq<Fate>, f: Fate, received: seq<WorkerEvent>, channel: seq<WorkerEvent>)
    requires |fates| < |output| && received + channel == Sent(output, fates)
    ensures received + (channel + SentFor(output[|fates|], |fates| + 1, f)) == Sent(output, fates + [f])
  {
    assert (fates + [f])[..|fates|] == fates;
    var more := SentFor(output[|fates|], |fates| + 1, f);
    assert received + (channel + more) == (received + channel) + more;
  }

  lemma {:induction false} OwedSnoc(output: seq<Line>, fates: seq<Fate>, f: Fate, notes: seq<Note>)
    requires |fates| < |output| && notes + [] == Owed(output, fates)
    ensures notes + OwedFor(output[|fates|], |fates| + 1, f) == Owed(output, fates + [f])
  {
    assert (fates + [f])[..|fates|] == fates;
    assert notes + [] == notes;
  }

  lemma {:induction false} BufferSnoc(buffer: seq<Note>, n: Note)
    ensures ScannerNotes(buffer + [n]) == ScannerNotes(buffer) + if n.Stderr? then [] else [n]
    ensures StderrText(buffer + [n]) == StderrText(buffer) + if n.Stderr? then n.chunk else ""
  {
    assert (buffer + [n])[..|buffer|] == buffer;
  }

  function InHand(s: State): seq<Note> {
    if s.scanner.Noting? then [s.scanner.note] else []
  }

  /** Every line scanned so far has one fate that fits it, but for an event being sent. */
  ghost predicate FateInv(s: State) {
    && s.scanned <= |s.prog.output|
    && |s.fates| == s.scanned - (if s.scanner.Sending? then 1 else 0)
    && (forall i :: 0 <= i < |s.fates| ==> Fits(s.prog.output[i], s.fates[i]))
    && (s.scanner.Sending? ==>
          && s.prog.output[|s.fates|].EventLine? && s.prog.output[|s.fates|].kind == s.scanner.event.kind
          && s.scanner.event.sequence == s.scanned)
    && |s.channel| <= Capacity
    && (s.scanner.Noting? ==> !s.scanner.note.Stderr?)
    && ((s.scanner.EventsClosed? || s.scanner.ScanDone?) && !s.cut ==> AtEnd(s))
  }

  ghost predicate QueueInv(s: State) {
    |s.fates| <= |s.prog.output| && s.received + s.channel == Sent(s.prog.output, s.fates)
  }

  ghost predicate NoteInv(s: State) {
    && |s.fates| <= |s.prog.output| && ScannerNotes(s.buffer) + InHand(s) == Owed(s.prog.output, s.fates)
    && s.drained <= |s.prog.errors| && StderrText(s.buffer) == s.prog.errors[..s.drained]
  }

  ghost predicate StreamInv(s: State) {
    FateInv(s) && QueueInv(s) && NoteInv(s)
  }

  lemma {:induction false} ScanKeepsFates(s: State)
    requires FateInv(s) && Enabled(s, Scan)
    ensures FateInv(Do(s, Scan))
  {
  }

  lemma {:induction false} SendKeepsFates(s: State)
    requires FateInv(s) && Enabled(s, TrySend)
    ensures FateInv(Do(s, TrySend))
  {
  }

  lemma {:induction false} StepKeepsFates(s: State, a: Action)
    requires FateInv(s) && Enabled(s, a)
    ensures FateInv(Do(s, a))
  {
    match a
    case Scan => ScanKeepsFates(s);
    case TrySend => SendKeepsFates(s);
    case WriteNote | CloseEvents(_) | SignalScan => ScannerKeepsFates(s, a);
    case ChildWrite | ChildErr | ChildExit => ChildKeepsFates(s, a);
    case _ =>
  }

  lemma {:induction false} ScannerKeepsFates(s: State, a: Action)
    requires FateInv(s) && Enabled(s, a) && (a.WriteNote? || a.CloseEvents? || a.SignalScan?)
    ensures FateInv(Do(s, a))
  {
  }

  lemma {:induction false} ChildKeepsFates(s: State, a: Action)
    requires FateInv(s) && Enabled(s, a) && (a.ChildWrite? || a.ChildErr? || a.ChildExit?)
    ensures FateInv(Do(s, a))
  {
  }

  predicate SameBooks(s: State, t: State) {
    t.buffer == s.buffer && t.drained == s.drained && t.prog == s.prog && t.received == s.received
  }

  /** Scanning and sending decide the fate of at most one line, and that one is the next. */
  lemma {:induction false} NextFate(s: State, a: Action) returns (f: Option<Fate>)
    requires FateInv(s) && Enabled(s, a) && (a.Scan? || a.TrySend?)
    ensures f.None? ==> Do(s, a).fates == s.fates && InHand(Do(s, a)) == [] && Do(s, a).channel == s.channel
    ensures f.Some? ==> Do(s, a).fates == s.fates + [f.value] && |s.fates| < |s.prog.output|
    ensures f.Some? ==> InHand(Do(s, a)) == OwedFor(s.prog.output[|s.fates|], |s.fates| + 1, f.value)
    ensures f.Some? ==> Do(s, a).channel == s.channel + SentFor(s.prog.output[|s.fates|], |s.fates| + 1, f.value)
    ensures InHand(s) == [] && SameBooks(s, Do(s, a))
  {
    var t := Do(s, a);
    f := if t.fates == s.fates then None else Some(t.fates[|s.fates|]);
  }

  lemma {:induction false} ScannerKeepsQueue(s: State, a: Action)
    requires FateInv(s) && QueueInv(s) && Enabled(s, a) && (a.Scan? || a.TrySend?)
    ensures QueueInv(Do(s, a))
  {
    var f := NextFate(s, a);
    if f.Some? {
      QueueSnoc(s.prog.output, s.fates, f.value, s.received, s.channel);
    }
  }

  lemma {:induction false} NotesFollow(s: State, t: State, f: Option<Fate>)
    requires NoteInv(s) && SameBooks(s, t) && InHand(s) == []
    requires f.None? ==> t.fates == s.fates && InHand(t) == []
    requires f.Some? ==> t.fates == s.fates + [f.value] && |s.fates| < |s.prog.output|
    requires f.Some? ==> InHand(t) == OwedFor(s.prog.output[|s.fates|], |s.fates| + 1, f.value)
    ensures NoteInv(t)
  {
    if f.Some? {
      OwedSnoc(s.prog.output, s.fates, f.value, ScannerNotes(s.buffer));
    }
  }

  lemma {:induction false} ScannerKeepsNotes(s: State, a: Action)
    requires FateInv(s) && NoteInv(s) && Enabled(s, a) && (a.Scan? || a.TrySend?)
    ensures NoteInv(Do(s, a))
  {
    var f := NextFate(s, a);
    NotesFollow(s, Do(s, a), f);
  }

  /** The scanner's note moves from its hand into the buffer. */
  lemma {:induction false} NoteWritten(s: State, t: State, n: Note)
    requires NoteInv(s) && InHand(s) == [n] && !n.Stderr? && InHand(t) == []
    requires t.buffer == s.buffer + [n] && t.fates == s.fates && t.prog == s.prog && t.drained == s.drained
    ensures NoteInv(t)
  {
    BufferSnoc(s.buffer, n);
    assert ScannerNotes(t.buffer) + [] == ScannerNotes(s.buffer) + [n];
  }

  /** A chunk of stderr joins the buffer. */
  lemma {:induction false} ChunkCopied(s: State, t: State, chunk: string)
    requires NoteInv(s) && s.drained + |chunk| <= |s.prog.errors| && chunk == s.prog.errors[s.drained..s.drained + |chunk|]
    requires t.buffer == s.buffer + [Stderr(chunk)] && t.fates == s.fates && t.prog == s.prog && InHand(t) == InHand(s)
    requires t.drained == s.drained + |chunk|
    ensures NoteInv(t)
  {
    BufferSnoc(s.buffer, Stderr(chunk));
    assert ScannerNotes(t.buffer) == ScannerNotes(s.buffer);
    assert s.prog.errors[..s.drained] + chunk == s.prog.errors[..s.drained + |chunk|];
  }

  lemma {:induction false} StepKeepsQueue(s: State, a: Action)
    requires FateInv(s) && QueueInv(s) && Enabled(s, a)
    ensures QueueInv(Do(s, a))
  {
    match a
    case Scan | TrySend => ScannerKeepsQueue(s, a);
    case Receive => assert s.received + s.channel == Do(s, a).received + Do(s, a).channel;
    case _ =>
  }

  lemma {:induction false} StepKeepsNotes(s: State, a: Action)
    requires FateInv(s) && NoteInv(s) && Enabled(s, a)
    ensures NoteInv(Do(s, a))
  {
    match a
    case Scan | TrySend => ScannerKeepsNotes(s, a);
    case WriteNote => NoteWritten(s, Do(s, a), s.scanner.note);
    case CopyChunk(n) => ChunkCopied(s, Do(s, a), s.prog.errors[s.drained..s.drained + n]);
    case _ =>
  }

  lemma {:induction false} StepKeepsStream(s: State, a: Action)
    requires StreamInv(s) && Enabled(s, a)
    ensures StreamInv(Do(s, a))
  {
    StepKeepsFates(s, a);
    StepKeepsQueue(s, a);
    StepKeepsNotes(s, a);
  }

  // ---- The pipes ----

  /** What has been read was written, and what was written was there to be written. */
  ghost predicate PipeInv(s: State) {
    && s.scanned <= |s.prog.output|
    && s.taken <= s.child.wrote <= Bytes(s.prog.output) && s.child.wrote <= s.taken + s.prog.pipe
    && Offset(s.prog.output, s.scanned) <= s.taken <= Offset(s.prog.output, s.scanned) + MaxLine
    && s.drained <= s.child.errWrote <= |s.prog.errors| && s.child.errWrote <= s.drained + s.prog.pipe
    && (s.child.exited ==> s.child.wrote == Bytes(s.prog.output) && s.child.errWrote == |s.prog.errors|)
    && (s.drainer == StderrDone && !s.errCut ==> s.child.exited && s.drained == |s.prog.errors|)
  }

  lemma {:induction false} ChildKeepsPipes(s: State, a: Action)
    requires PipeInv(s) && Enabled(s, a) && (a.ChildWrite? || a.ChildErr? || a.ChildExit? || a.Fill?)
    ensures PipeInv(Do(s, a))
  {
  }

  lemma {:induction false} ReadersKeepPipes(s: State, a: Action)
    requires PipeInv(s) && Enabled(s, a) && (a.Scan? || a.CopyChunk? || a.StopCopy?)
    ensures PipeInv(Do(s, a))
  {
  }

  lemma {:induction false} StepKeepsPipes(s: State, a: Action)
    requires PipeInv(s) && Enabled(s, a)
    ensures PipeInv(Do(s, a))
  {
    match a
    case ChildWrite | ChildErr | ChildExit | Fill(_) => ChildKeepsPipes(s, a);
    case Scan | CopyChunk(_) | StopCopy(_) => ReadersKeepPipes(s, a);
    case _ =>
  }

  // ---- Publication ----

  predicate HasPublished(r: Reaper) { r.Published? || r.DoneClosed? }

  /** What every value that a Wait hands back through done must be. */
  predicate Final(s: State, r: Handed) {
    r.ViaDone? ==> s.reaper.DoneClosed? && r.result == s.result && r.waitErr == s.waitErr
  }

  ghost predicate PublicationInv(s: State) {
    && (!s.reaper.AwaitScan? ==> s.scanner == ScanDone)
    && (!s.reaper.AwaitScan? && !s.reaper.AwaitStderr? ==> s.drainer == StderrDone)
    && (s.reaper.Reaped? || HasPublished(s.reaper) ==> s.child.exited)
    && s.published == (if HasPublished(s.reaper) then 1 else 0)
    && (HasPublished(s.reaper) ==> s.result == ResultOf(s.reaper.err, s.buffer) && s.waitErr == WaitErrOf(s.reaper.err))
    && (!HasPublished(s.reaper) ==> s.waitErr == None)
    && (forall i :: 0 <= i < |s.handed| ==> Final(s, s.handed[i]))
  }

  lemma {:induction false} StepKeepsPublication(s: State, a: Action)
    requires PublicationInv(s) && Enabled(s, a)
    ensures PublicationInv(Do(s, a))
  {
    var t := Do(s, a);
    forall i | 0 <= i < |t.handed| ensures Final(t, t.handed[i]) {
      if i < |s.handed| {
        assert Final(s, s.handed[i]);
      }
    }
  }

  ghost predicate Inv(s: State) {
    StreamInv(s) && PipeInv(s) && PublicationInv(s)
  }

  lemma {:induction false} StepKeepsProgram(s: State, a: Action)
    requires Enabled(s, a)
    ensures Do(s, a).prog == s.prog
  {
  }

  lemma {:induction false} StepKeepsInv(s: State, a: Action)
    requires Inv(s) && Enabled(s, a)
    ensures Inv(Do(s, a))
  {
    StepKeepsStream(s, a);
    StepKeepsPipes(s, a);
    StepKeepsPublication(s, a);
  }

  lemma {:induction false} RunKeepsInv(s: State, actions: seq<Action>)
    requires Inv(s) && Runs(s, actions)
    ensures Inv(Exec(s, actions)) && Exec(s, actions).prog == s.prog
    decreases |actions|
  {
    if actions != [] {
      StepKeepsInv(s, actions[0]);
      StepKeepsProgram(s, actions[0]);
      RunKeepsInv(Do(s, actions[0]), actions[1..]);
    }
  }

  // ---- Main results ----

  /** The event stands for an enqueued line of its kind, by its number. */
  predicate Numbered(output: seq<Line>, fates: seq<Fate>, e: WorkerEvent)
    requires |fates| <= |output|
  {
    && 1 <= e.sequence <= |fates|
    && fates[e.sequence - 1] == Enqueued 
    && output[e.sequence - 1].EventLine? && output[e.sequence - 1].kind == e.kind
  }

  /** Enqueued lines in strictly increasing line order. */
  ghost predicate InOrder(output: seq<Line>, fates: seq<Fate>, r: seq<WorkerEvent>)
    requires |fates| <= |output|
  {
    && (forall i :: 0 <= i < |r| ==> Numbered(output, fates, r[i]))
    && (forall i, j :: 0 <= i < j < |r| ==> r[i].sequence < r[j].sequence)
  }

  lemma {:induction false} InOrderSnoc(output: seq<Line>, fates: seq<Fate>, f: Fate, r: seq<WorkerEvent>)
    requires |fates| < |output| && InOrder(output, fates, r)
    ensures InOrder(output, fates + [f], r + SentFor(output[|fates|], |fates| + 1, f))
  {
    var all := r + SentFor(output[|fates|], |fates| + 1, f);
    forall i | 0 <= i < |all| ensures Numbered(output, fates + [f], all[i]) {
      if i < |r| {
        assert Numbered(output, fates, r[i]);
      }
    }
    forall i, j | 0 <= i < j < |all| ensures all[i].sequence < all[j].sequence {
      assert Numbered(output, fates, r[i]);
    }
  }

  lemma {:induction false} SentInOrder(output: seq<Line>, fates: seq<Fate>)
    requires |fates| <= |output|
    ensures InOrder(output, fates, Sent(output, fates))
    decreases |fates|
  {
    if fates != [] {
      var n := |fates| - 1;
      SentInOrder(output, fates[..n]);
      InOrderSnoc(output, fates[..n], fates[n], Sent(output, fates[..n]));
      assert fates[..n] + [fates[n]] == fates;
    }
  }

  /** And every enqueued line is among them. */
  lemma {:induction false} SentComplete(output: seq<Line>, fates: seq<Fate>, k: nat)
    requires k < |fates| <= |output| && fates[k] == Enqueued && output[k].EventLine?
    ensures WorkerEvent(output[k].kind, k + 1) in Sent(output, fates)
    decreases |fates|
  {
    var n := |fates| - 1;
    if k < n {
      SentComplete(output, fates[..n], k);
    }
  }

  predicate Closed(s: State) { s.scanner.EventsClosed? || s.scanner.ScanDone? }

  /** The number of lines before the first one that is too long. */
  function FirstTooLong(output: seq<Line>): (n: nat)
    ensures n <= |output|
    ensures forall i :: 0 <= i < n ==> !output[i].TooLongLine?
    ensures n < |output| ==> output[n].TooLongLine?
  {
    if output == [] || output[0].TooLongLine? then 0 else 1 + FirstTooLong(output[1..])
  }

  /** Without a read error the scan covers exactly the lines before the first one that is too long. */
  lemma {:induction false} ScanCovers(s: State)
    requires FateInv(s) && Closed(s) && !s.cut
    ensures |s.fates| == s.scanned == FirstTooLong(s.prog.output)
  {
    assert forall i :: 0 <= i < |s.fates| ==> Fits(s.prog.output[i], s.fates[i]) && !s.prog.output[i].TooLongLine?;
  }

  lemma {:induction false} ReceivedInOrder(s: State)
    requires QueueInv(s)
    ensures forall i, j :: 0 <= i < j < |s.received| ==> s.received[i].sequence < s.received[j].sequence
  {
    SentInOrder(s.prog.output, s.fates);
    assert forall i :: 0 <= i < |s.received| ==> s.received[i] == Sent(s.prog.output, s.fates)[i];
  }

  /** Over every interleaving: each scanned line has exactly one fate, a drop happens only at a
      full channel, the channel holds at most 64 events, and what the consumer has received,
      followed by what is still queued, is what was enqueued. After close and drain the consumer
      has seen all of it, and unless a read failed the scan covers exactly the lines before the
      first one that is too long. */
  lemma {:induction false} StreamConservation(prog: Program, actions: seq<Action>)
    requires Runs(Initial(prog), actions)
    ensures var s := Exec(Initial(prog), actions);
            && |s.fates| <= s.scanned <= |prog.output| && (!s.scanner.Sending? ==> |s.fates| == s.scanned)
            && (forall i :: 0 <= i < |s.fates| ==> Fits(prog.output[i], s.fates[i]))
            && |s.channel| <= 64
            && (forall i :: 0 <= i < |s.fates| && s.fates[i].Dropped? ==> s.fates[i].backlog == 64)
            && s.received + s.channel == Sent(prog.output, s.fates)
            && (forall i, j :: 0 <= i < j < |s.received| ==> s.received[i].sequence < s.received[j].sequence)
            && (Closed(s) && s.channel == [] ==> s.received == Sent(prog.output, s.fates) && |s.fates| == s.scanned)
            && (Closed(s) && !s.cut ==> |s.fates| == FirstTooLong(prog.output))
  {
    var s0 := Initial(prog);
    var s := Exec(s0, actions);
    RunKeepsInv(s0, actions);
    ReceivedInOrder(s);
    forall i | 0 <= i < |s.fates| && s.fates[i].Dropped? ensures s.fates[i].backlog == 64 {
      assert Fits(prog.output[i], s.fates[i]);
    }
    if Closed(s) && !s.cut {
      ScanCovers(s);
    }
  }

  /** Over every interleaving of the subprocess, the three goroutines, the consumer and any number
      of Wait calls: a Wait that returns through done hands back the result that was published
      exactly once, after the event channel was closed, stderr was drained and the subprocess was
      reaped. A failure's reason is made from the complete diagnostics: every chunk copied from
      stderr, which is all of it unless a read failed, and one note for each malformed line and
      each dropped event among the lines before the first one that is too long. */
  lemma {:induction false} WaitSeesCompleteResult(prog: Program, actions: seq<Action>, i: nat)
    requires Runs(Initial(prog), actions)
    requires var s := Exec(Initial(prog), actions); i < |s.handed| && s.handed[i].ViaDone?
    ensures var s := Exec(Initial(prog), actions);
            var r := s.handed[i].result;
            var waitErr := s.handed[i].waitErr;
            && s.reaper.DoneClosed? && s.published == 1 && r == s.result
            && Closed(s) && s.drainer == StderrDone && s.child.exited
            && |s.fates| <= |prog.output| && s.drained <= |prog.errors|
            && ScannerNotes(s.buffer) == Owed(prog.output, s.fates) && (!s.cut ==> |s.fates| == FirstTooLong(prog.output))
            && StderrText(s.buffer) == prog.errors[..s.drained] && (!s.errCut ==> s.drained == |prog.errors|)
            && (r.success <==> s.reaper.err == NoError)
            && r.reason == (if r.success then "" else TrimSpace(RenderAll(s.buffer)))
            && r.exitCode == (match s.reaper.err case NoError => 0 case ExitStatus(code) => code case WaitFailure => -1)
            && (waitErr.Some? ==> r.exitCode == -1)
            && (!r.success && r.exitCode == -1 ==> waitErr == Some(s.reaper.err))
  {
    var s0 := Initial(prog);
    RunKeepsInv(s0, actions);
    var s := Exec(s0, actions);
    assert Final(s, s.handed[i]);
    assert ScannerNotes(s.buffer) + [] == ScannerNotes(s.buffer);
    if !s.cut {
      ScanCovers(s);
    }
  }

  /** Once done is closed nothing a Wait could see changes any more. */
  lemma {:induction false} ResultIsFinal(s: State, actions: seq<Action>)
    requires PublicationInv(s) && s.reaper.DoneClosed? && Runs(s, actions)
    ensures var t := Exec(s, actions);
            t.result == s.result && t.waitErr == s.waitErr && t.buffer == s.buffer && t.published == s.published
            && t.reaper == s.reaper
    decreases |actions|
  {
    if actions != [] {
      StepKeepsPublication(s, actions[0]);
      ResultIsFinal(Do(s, actions[0]), actions[1..]);
    }
  }

  // ---- The text of a failure ----

  function Texts(notes: seq<Note>): (r: seq<string>)
    ensures |r| == |notes|
  {
    seq(|notes|, i requires 0 <= i < |notes| => Render(notes[i]))
  }

  lemma {:induction false} TextsSnoc(notes: seq<Note>, n: nat)
    requires |notes| == n + 1
    ensures Texts(notes) == Texts(notes[..n]) + [Texts(notes)[n]]
  {
  }

  lemma {:induction false} RenderLast(notes: seq<Note>, n: nat, text: string)
    requires |notes| == n + 1 && text == Texts(notes)[n]
    ensures RenderAll(notes) == RenderAll(notes[..n]) + text
  {
  }

  /** The buffer's text is the text of its entries, one after the other. */
  lemma {:induction false} RenderIsConcat(notes: seq<Note>)
    ensures RenderAll(notes) == Concat(Texts(notes))
    decreases |notes|
  {
    if notes != [] {
      var n := |notes| - 1;
      var text := Texts(notes)[n];
      RenderIsConcat(notes[..n]);
      RenderLast(notes, n, text);
      TextsSnoc(notes, n);
      ConcatSnoc(Texts(notes[..n]), text);
    }
  }

  /** How the entries read. */
  lemma {:induction false} EntryTexts(q: nat, text: string)
    ensures Render(Stderr(text)) == text
    ensures Render(ParseError(q, text)) == "[pi-parse-error seq=" + Digits(q) + "] " + text + "\n"
    ensures Render(EventDropped(q, text)) == "[pi-event-dropped seq=" + Digits(q) + " kind=" + text + "] events channel full\n"
  {
  }

  function ValueOf(digits: string): nat {
    if digits == "" then 0
    else
      var c := digits[|digits| - 1];
      10 * ValueOf(digits[..|digits| - 1]) + if '0' <= c <= '9' then c as int - '0' as int else 0
  }

  /** Sequence numbers are written in decimal. */
  lemma {:induction false} DigitsAreDecimal(n: nat)
    ensures ValueOf(Digits(n)) == n && Digits(n) != "" && (n > 0 ==> Digits(n)[0] != '0')
    ensures forall i :: 0 <= i < |Digits(n)| ==> '0' <= Digits(n)[i] <= '9'
  {
    var last := "0123456789"[n % 10];
    assert '0' <= last <= '9' && last as int - '0' as int == n % 10;
    if n < 10 {
      assert Digits(n) == [last] && [last][..0] == "";
    } else {
      DigitsAreDecimal(n / 10);
      assert Digits(n) == Digits(n / 10) + [last];
      assert (Digits(n / 10) + [last])[..|Digits(n / 10)|] == Digits(n / 10);
    }
  }

  lemma {:induction false} OnlyStderrRenders(buffer: seq<Note>)
    requires ScannerNotes(buffer) == []
    ensures RenderAll(buffer) == StderrText(buffer)
    decreases |buffer|
  {
    if buffer != [] {
      var n := |buffer| - 1;
      assert |ScannerNotes(buffer)| == |ScannerNotes(buffer[..n])| + if buffer[n].Stderr? then 0 else 1;
      OnlyStderrRenders(buffer[..n]);
    }
  }

  /** Nothing is owed exactly when no line was malformed and no event dropped. */
  lemma {:induction false} NothingOwedIff(output: seq<Line>, fates: seq<Fate>)
    requires |fates| <= |output| && forall i :: 0 <= i < |fates| ==> Fits(output[i], fates[i])
    ensures Owed(output, fates) == [] <==> forall i :: 0 <= i < |fates| ==> !fates[i].Malformed? && !fates[i].Dropped?
    decreases |fates|
  {
    if fates != [] {
      var n := |fates| - 1;
      NothingOwedIff(output, fates[..n]);
      assert Fits(output[n], fates[n]);
      assert forall i :: 0 <= i < n ==> fates[..n][i] == fates[i];
    }
  }

  /** What a failed command's Wait hands back as the reason: the trimmed text of the buffer, which is
      the whole of stderr when nothing was malformed or dropped and stderr was read to its end. */
  lemma {:induction false} FailureReason(prog: Program, actions: seq<Action>, i: nat)
    requires Runs(Initial(prog), actions)
    requires var s := Exec(Initial(prog), actions); i < |s.handed| && s.handed[i].ViaDone? && !s.handed[i].result.success
    ensures var s := Exec(Initial(prog), actions);
            var reason := s.handed[i].result.reason;
            && reason == TrimSpace(RenderAll(s.buffer))
            && (!s.errCut && (forall k :: 0 <= k < |s.fates| ==> !s.fates[k].Malformed? && !s.fates[k].Dropped?) ==>
                  reason == TrimSpace(prog.errors))
            && (forall k :: 0 <= k < |s.buffer| ==> Occurs(s.buffer, k))
  {
    var s := Exec(Initial(prog), actions);
    WaitSeesCompleteResult(prog, actions, i);
    RunKeepsInv(Initial(prog), actions);
    BufferIsStderr(s);
    forall k | 0 <= k < |s.buffer| ensures Occurs(s.buffer, k) {
      EntryOccurs(s.buffer, k);
    }
  }

  lemma {:induction false} BufferIsStderr(s: State)
    requires FateInv(s) && ScannerNotes(s.buffer) == Owed(s.prog.output, s.fates)
    requires s.drained <= |s.prog.errors| && StderrText(s.buffer) == s.prog.errors[..s.drained]
    ensures s.drained == |s.prog.errors| && (forall k :: 0 <= k < |s.fates| ==> !s.fates[k].Malformed? && !s.fates[k].Dropped?) ==>
              RenderAll(s.buffer) == s.prog.errors
  {
    NothingOwedIff(s.prog.output, s.fates);
    if ScannerNotes(s.buffer) == [] {
      OnlyStderrRenders(s.buffer);
    }
    assert s.prog.errors[..|s.prog.errors|] == s.prog.errors;
  }

  /** The text of entry k stands in the buffer's text after the texts before it and before the rest. */
  ghost predicate Occurs(buffer: seq<Note>, k: nat)
    requires k < |buffer|
  {
    RenderAll(buffer) == Concat(Texts(buffer)[..k]) + Render(buffer[k]) + Concat(Texts(buffer)[k + 1..])
  }

  lemma {:induction false} EntryOccurs(buffer: seq<Note>, k: nat)
    requires k < |buffer|
    ensures Occurs(buffer, k)
  {
    RenderIsConcat(buffer);
    ConcatAt(Texts(buffer), k);
  }

  // ---- The answers of Wait ----

  function Waits(actions: seq<Action>): seq<Action> {
    if actions == [] then []
    else (if actions[0].WaitDone? || actions[0].WaitCancel? then [actions[0]] else []) + Waits(actions[1..])
  }

  lemma {:induction false} StepAnswers(s: State, a: Action)
    requires Enabled(s, a)
    ensures !a.WaitDone? && !a.WaitCancel? ==> Do(s, a).handed == s.handed
    ensures a.WaitDone? ==> Do(s, a).handed == s.handed + [ViaDone(s.result, s.waitErr)]
    ensures a.WaitCancel? ==> Do(s, a).handed == s.handed + [Cancelled]
  {
  }

  /** Every Wait is answered once, in turn, and a cancelled one without a result. */
  lemma {:induction false} EveryWaitIsAnswered(s: State, actions: seq<Action>)
    requires Runs(s, actions)
    ensures var h := Exec(s, actions).handed;
            && |h| == |s.handed| + |Waits(actions)| && h[..|s.handed|] == s.handed
            && forall i :: 0 <= i < |Waits(actions)| ==> (h[|s.handed| + i] == Cancelled <==> Waits(actions)[i] == WaitCancel)
    decreases |actions|
  {
    if actions != [] {
      var a, rest := actions[0], actions[1..];
      var t := Do(s, a);
      StepAnswers(s, a);
      EveryWaitIsAnswered(t, rest);
      var h := Exec(s, actions).handed;
      assert h[..|s.handed|] == h[..|t.handed|][..|s.handed|];
      if a.WaitDone? || a.WaitCancel? {
        assert h[|s.handed|] == h[..|t.handed|][|s.handed|];
        assert forall i :: 0 < i < |Waits(actions)| ==> Waits(actions)[i] == Waits(rest)[i - 1];
      }
    }
  }
}
