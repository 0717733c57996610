/** Check specs, plans and their execution: internal/orchestrator/verification.go and
    internal/verify/verify.go. Running a command is a parameter. */
module Verification {
  import opened Ledger
  import opened StableSort

  // ---- Check specs ----

  /** The payload's "checks" field as JSON decoding leaves it. */
  datatype Item = Text(s: string) | NotText
  datatype ChecksField = Absent | Strings(texts: seq<string>) | List(items: seq<Item>) | OtherValue

  function NonEmptyTexts(items: seq<Item>): seq<string> {
    if items == [] then []
    else (if items[0].Text? && items[0].s != "" then [items[0].s] else []) + NonEmptyTexts(items[1..])
  }

  function NonEmptyStrings(texts: seq<string>): seq<string> {
    if texts == [] then [] else (if texts[0] != "" then [texts[0]] else []) + NonEmptyStrings(texts[1..])
  }

  function ParseChecks(field: ChecksField): seq<string> {
    match field
    case Strings(texts) => NonEmptyStrings(texts)
    case List(items) => NonEmptyTexts(items)
    case _ => []
  }

  /** The payload declares a check: its list holds a non-empty string. */
  ghost predicate DeclaresCheck(field: ChecksField) {
    || (field.Strings? && exists i :: 0 <= i < |field.texts| && field.texts[i] != "")
    || (field.List? && exists i :: 0 <= i < |field.items| && field.items[i].Text? && field.items[i].s != "")
  }

  lemma {:induction false} StringsDeclare(texts: seq<string>)
    ensures NonEmptyStrings(texts) != [] <==> exists i :: 0 <= i < |texts| && texts[i] != ""
  {
    if texts != [] {
      StringsDeclare(texts[1..]);
      assert forall i :: 0 <= i < |texts[1..]| ==> texts[1..][i] == texts[i + 1];
    }
  }

  lemma {:induction false} ItemsDeclare(items: seq<Item>)
    ensures NonEmptyTexts(items) != [] <==> exists i :: 0 <= i < |items| && items[i].Text? && items[i].s != ""
  {
    if items != [] {
      ItemsDeclare(items[1..]);
      assert forall i :: 0 <= i < |items[1..]| ==> items[1..][i] == items[i + 1];
    }
  }

  /** Verification is asked for exactly when the payload's list holds a non-empty string; in
      particular a bare string in place of the list is ignored. */
  lemma {:induction false} ChecksParsedIffDeclared(field: ChecksField)
    ensures ParseChecks(field) != [] <==> DeclaresCheck(field)
    ensures field.OtherValue? ==> ParseChecks(field) == []
  {
    match field
    case Strings(texts) => StringsDeclare(texts);
    case List(items) => ItemsDeclare(items);
    case _ =>
  }

  /** The position of the first colon, or the length. */
  function ColonAt(s: string): (i: nat)
    ensures i <= |s| && ':' !in s[..i]
    ensures i < |s| ==> s[i] == ':'
  {
    if s == "" || s[0] == ':' then 0
    else
      var i := ColonAt(s[1..]);
      assert s[..i + 1] == [s[0]] + s[1..][..i];
      i + 1
  }

  /** `strings.SplitN(s, ":", 3)`. */
  datatype Parts = One(a: string) | Two(a: string, b: string) | Three(a: string, b: string, c: string)

  function Split3(s: string): Parts {
    var i := ColonAt(s);
    if i == |s| then One(s)
    else
      var rest := s[i + 1..];
      var j := ColonAt(rest);
      if j == |rest| then Two(s[..i], rest) else Three(s[..i], rest[..j], rest[j + 1..])
  }

  function Glue(p: Parts): string {
    match p
    case One(a) => a
    case Two(a, b) => a + ":" + b
    case Three(a, b, c) => a + ":" + (b + ":" + c)
  }

  /** Splitting loses nothing, and only the last part may hold a colon. */
  lemma {:induction false} SplitGlue(s: string)
    ensures Glue(Split3(s)) == s
    ensures !Split3(s).One? ==> ':' !in Split3(s).a
    ensures Split3(s).Two? ==> ':' !in Split3(s).b
    ensures Split3(s).Three? ==> ':' !in Split3(s).b
  {
    var i := ColonAt(s);
    if i < |s| {
      var rest := s[i + 1..];
      assert s == s[..i] + ":" + rest;
      var j := ColonAt(rest);
      if j < |rest| {
        assert rest == rest[..j] + ":" + rest[j + 1..];
      } else {
        assert rest[..j] == rest;
      }
    }
  }

  datatype EvidenceKind = KindUnset | CommandKind | ManualKind | ArtifactKind | UnknownKind(name: string)

  datatype Check = Check(id: nat, command: seq<string>, shell: bool, shellCommand: string, cwd: string,
                         required: bool, kind: EvidenceKind, reason: string, artifacts: seq<string>)

  const FALSE_COMMAND: seq<string> := ["false"]
  const CONTENT_SCRIPT := "[ \"$(cat -- \"$1\")\" = \"$2\" ]"

  function BuildCheck(spec: string, cwd: string, idx: nat): Check {
    var base := Check(idx, FALSE_COMMAND, false, "", cwd, true, CommandKind, "", []);
    var parts := Split3(spec);
    if parts.One? then base
    else if parts.a == "file_exists" then base.(command := ["test", "-f", parts.b])
    else if parts.a == "file_content" then
      if parts.Two? then base
      else base.(shell := true, shellCommand := CONTENT_SCRIPT, command := [parts.b, parts.c])
    else if parts.a == "bash" then
      base.(shell := true, shellCommand := if parts.Three? then parts.b + ":" + parts.c else parts.b, command := [])
    else base
  }

  function BuildPlan(specs: seq<string>, cwd: string): (plan: seq<Check>)
    ensures |plan| == |specs|
  {
    seq(|specs|, i requires 0 <= i < |specs| => BuildCheck(specs[i], cwd, i))
  }

  /** A spec without a colon, of unknown kind, or a file_content without an expected value. */
  predicate Malformed(spec: string) {
    var k := ColonAt(spec);
    || k == |spec|
    || spec[..k] !in {"file_exists", "file_content", "bash"}
    || (spec[..k] == "file_content" && ':' !in spec[k + 1..])
  }

  /** A malformed spec turns into the failing command, and no other spec does. */
  lemma {:induction false} MalformedIffFalse(spec: string, cwd: string, idx: nat)
    ensures Malformed(spec) <==> BuildCheck(spec, cwd, idx).command == ["false"] && !BuildCheck(spec, cwd, idx).shell
  {
    assert |FALSE_COMMAND| == 1;
    var k := ColonAt(spec);
    if k < |spec| {
      var rest := spec[k + 1..];
      assert ColonAt(rest) == |rest| <==> ':' !in rest by {
        assert ColonAt(rest) == |rest| ==> rest[..ColonAt(rest)] == rest;
        assert ColonAt(rest) < |rest| ==> rest[ColonAt(rest)] in rest;
      }
    }
  }

  /** The shell only ever sees the fixed script, with the user's text as arguments, or the
      exact command the user gave to a bash check. */
  lemma {:induction false} ShellTextIsFixedOrVerbatim(spec: string, cwd: string, idx: nat)
    ensures var c := BuildCheck(spec, cwd, idx);
            && (!c.shell ==> c.shellCommand == "")
            && (c.shell ==>
                  || (c.shellCommand == CONTENT_SCRIPT && |c.command| == 2
                      && spec == Glue(Three("file_content", c.command[0], c.command[1])))
                  || (c.command == [] && spec == Glue(Two("bash", c.shellCommand))))
  {
    SplitGlue(spec);
  }

  /** A file_exists check looks for the path as given exactly when the path has no colon. */
  lemma {:induction false} FileExistsPath(path: string, cwd: string, idx: nat)
    ensures BuildCheck(Glue(Two("file_exists", path)), cwd, idx).command == ["test", "-f", path] <==> ':' !in path
  {
    var spec := Glue(Two("file_exists", path));
    assert spec[..11] == "file_exists" && spec[12..] == path;
    ColonUnique(spec, 11);
    SplitGlue(spec);
    var command := BuildCheck(spec, cwd, idx).command;
    assert command == ["test", "-f", Split3(spec).b];
    assert command[2] == Split3(spec).b && ["test", "-f", path][2] == path;
    var j := ColonAt(path);
    assert j == |path| ==> path[..j] == path;
    assert j < |path| ==> path[j] in path;
  }

  lemma {:induction false} ColonUnique(s: string, i: nat)
    requires i < |s| && s[i] == ':' && ':' !in s[..i]
    ensures ColonAt(s) == i
  {
    if i > 0 {
      assert s[0] == s[..i][0];
      assert s[1..][..i - 1] == s[..i][1..];
      ColonUnique(s[1..], i - 1);
    }
  }

  // ---- Running a plan ----

  datatype CommandResult = CommandResult(exitCode: int, failed: bool)
  type Runner = Check -> CommandResult

  datatype CheckEvidence = CheckEvidence(check: nat, kind: EvidenceKind, passed: bool)

  datatype CheckOutcome = Evidence(evidence: CheckEvidence) | CheckError

  function RunCheck(c: Check, runner: Runner): CheckOutcome {
    match c.kind
    case KindUnset | CommandKind =>
      if c.command == [] && !c.shell then CheckError
      else Evidence(CheckEvidence(c.id, CommandKind, !runner(c).failed && runner(c).exitCode == 0))
    case ManualKind =>
      if c.reason == "" then CheckError else Evidence(CheckEvidence(c.id, ManualKind, true))
    case ArtifactKind =>
      if c.artifacts == [] then CheckError else Evidence(CheckEvidence(c.id, ArtifactKind, true))
    case UnknownKind(_) => CheckError
  }

  predicate Runnable(plan: seq<Check>, runner: Runner) {
    forall i :: 0 <= i < |plan| ==> RunCheck(plan[i], runner).Evidence?
  }

  function Collect(plan: seq<Check>, runner: Runner): (r: seq<CheckEvidence>)
    requires Runnable(plan, runner)
    ensures |r| == |plan|
  {
    seq(|plan|, i requires 0 <= i < |plan| => RunCheck(plan[i], runner).evidence)
  }

  predicate RequiredPass(plan: seq<Check>, runner: Runner)
    requires Runnable(plan, runner)
  {
    forall i :: 0 <= i < |plan| && plan[i].required ==> RunCheck(plan[i], runner).evidence.passed
  }

  datatype PlanOptions = PlanOptions(run: Id, work: Id, verification: Id, root: string)

  datatype PlanOutcome = PlanError | PlanResult(passed: bool, evidence: seq<CheckEvidence>)

  function VerificationEvent(o: PlanOptions, passed: bool): Event {
    Blank(if passed then VerificationPassed else VerificationFailed, o.run)
      .(work := o.work, verification := o.verification, root := o.root,
        status := if passed then Passed else Failed)
  }

  function EvidenceEvent(o: PlanOptions, ev: CheckEvidence): Event {
    Blank(EvidenceCreated, o.run)
      .(work := o.work, verification := o.verification, root := o.root,
        status := if ev.passed then Passed else Failed)
  }

  function EvidenceEvents(o: PlanOptions, evidence: seq<CheckEvidence>): (es: seq<Event>)
    ensures |es| == |evidence|
  {
    seq(|evidence|, i requires 0 <= i < |evidence| => EvidenceEvent(o, evidence[i]))
  }

  function VerificationEvents(o: PlanOptions, passed: bool, evidence: seq<CheckEvidence>): seq<Event> {
    [VerificationEvent(o, passed)] + EvidenceEvents(o, evidence)
  }

  lemma {:induction false} UntilFailureSnoc(env: Env, log: seq<Attempt>, es: seq<Event>, e: Event)
    requires AllAccepted(env, |log|, |es|)
    ensures EmitUntilFailure(env, log, es + [e]) == Emit(env, EmitUntilFailure(env, log, es), e)
    ensures |EmitUntilFailure(env, log, es)| == |log| + |es|
    ensures AllAccepted(env, |log|, |es| + 1) <==> Accepted(env, |log| + |es|)
    decreases |es|
  {
    if es == [] {
      assert [] + [e] == [e] && [e][1..] == [];
    } else {
      assert (es + [e])[1..] == es[1..] + [e];
      UntilFailureSnoc(env, Emit(env, log, es[0]), es[1..], e);
    }
  }

  lemma {:induction false} UntilFailureStops(env: Env, log: seq<Attempt>, es: seq<Event>, k: nat)
    requires k < |es| && AllAccepted(env, |log|, k) && !Accepted(env, |log| + k)
    ensures EmitUntilFailure(env, log, es) == EmitUntilFailure(env, log, es[..k + 1])
    ensures !AllAccepted(env, |log|, |es|)
    decreases k
  {
    if k == 0 {
      assert es[..1] == [es[0]];
    } else {
      assert es[..k + 1][1..] == es[1..][..k];
      UntilFailureStops(env, Emit(env, log, es[0]), es[1..], k - 1);
    }
  }

  /** One more event of a series that stops at the first failure. */
  method RecordNext(sink: Sink, ghost start: seq<Attempt>, ghost done: seq<Event>, e: Event) returns (ok: bool)
    requires AllAccepted(sink.env, |start|, |done|) && sink.log == EmitUntilFailure(sink.env, start, done)
    modifies sink
    ensures sink.log == EmitUntilFailure(sink.env, start, done + [e])
    ensures ok == Accepted(sink.env, |start| + |done|) == AllAccepted(sink.env, |start|, |done| + 1)
  {
    UntilFailureSnoc(sink.env, start, done, e);
    ok := sink.Record(e);
  }

  /** recordVerificationStorage: the verdict first, then one event per piece of evidence, giving
      up at the first one that cannot be recorded. */
  method RecordVerification(sink: Sink, o: PlanOptions, passed: bool, evidence: seq<CheckEvidence>) returns (ok: bool)
    modifies sink
    ensures sink.log == EmitUntilFailure(sink.env, old(sink.log), VerificationEvents(o, passed, evidence))
    ensures ok == AllAccepted(sink.env, old(|sink.log|), |evidence| + 1)
  {
    ghost var start := sink.log;
    ghost var es := VerificationEvents(o, passed, evidence);
    ok := RecordNext(sink, start, [], VerificationEvent(o, passed));
    ghost var done := [es[0]];
    assert [] + [es[0]] == done;
    if !ok {
      UntilFailureStops(sink.env, start, es, 0);
      return;
    }
    for i := 0 to |evidence|
      invariant done == es[..i + 1] && AllAccepted(sink.env, |start|, |done|)
      invariant sink.log == EmitUntilFailure(sink.env, start, done)
    {
      ok := RecordNext(sink, start, done, EvidenceEvent(o, evidence[i]));
      assert done + [es[i + 1]] == es[..i + 2];
      done := es[..i + 2];
      if !ok {
        UntilFailureStops(sink.env, start, es, i + 1);
        return;
      }
    }
    assert done == es;
    ok := true;
  }

  /** RunPlan. */
  method RunPlan(plan: seq<Check>, runner: Runner, sink: Sink?, o: PlanOptions) returns (r: PlanOutcome)
    modifies if sink != null then {sink} else {}
    ensures plan == [] ==> r == PlanResult(false, [])
    ensures !Runnable(plan, runner) ==> r == PlanError
    ensures plan != [] && Runnable(plan, runner) ==>
              var recorded := sink == null || AllAccepted(sink.env, old(if sink == null then 0 else |sink.log|), |plan| + 1);
              r == if recorded then PlanResult(RequiredPass(plan, runner), Collect(plan, runner)) else PlanError
    ensures sink != null ==>
              sink.log == if plan == [] || !Runnable(plan, runner) then old(sink.log)
                          else EmitUntilFailure(sink.env, old(sink.log),
                                 VerificationEvents(o, RequiredPass(plan, runner), Collect(plan, runner)))
  {
    if |plan| == 0 {
      return PlanResult(false, []);
    }
    var passed := true;
    var evidence: seq<CheckEvidence> := [];
    for i := 0 to |plan|
      invariant Runnable(plan[..i], runner)
      invariant evidence == Collect(plan[..i], runner)
      invariant passed == RequiredPass(plan[..i], runner)
    {
      var outcome := RunCheck(plan[i], runner);
      if outcome.CheckError? {
        return PlanError;
      }
      assert forall j :: 0 <= j < i ==> plan[..i + 1][j] == plan[..i][j];
      evidence := evidence + [outcome.evidence];
      if plan[i].required && !outcome.evidence.passed {
        passed := false;
        assert plan[..i + 1][i] == plan[i];
      }
    }
    assert plan[..|plan|] == plan;
    if sink != null {
      var ok := RecordVerification(sink, o, passed, evidence);
      if !ok {
        return PlanError;
      }
    }
    r := PlanResult(passed, evidence);
  }

  // ---- Plans built from specs ----

  predicate Passes(runner: Runner, c: Check) {
    !runner(c).failed && runner(c).exitCode == 0
  }

  lemma {:induction false} BuiltCheckRuns(spec: string, cwd: string, idx: nat, runner: Runner)
    ensures var c := BuildCheck(spec, cwd, idx);
            c.required && RunCheck(c, runner) == Evidence(CheckEvidence(idx, CommandKind, Passes(runner, c)))
  {
  }

  /** Plans built from specs never make RunPlan fail by themselves, and pass exactly when every
      check's command succeeds. */
  lemma {:induction false} BuiltPlanRunnable(specs: seq<string>, cwd: string, runner: Runner)
    ensures Runnable(BuildPlan(specs, cwd), runner)
    ensures RequiredPass(BuildPlan(specs, cwd), runner) <==>
              forall i :: 0 <= i < |specs| ==> Passes(runner, BuildCheck(specs[i], cwd, i))
  {
    var plan := BuildPlan(specs, cwd);
    forall i | 0 <= i < |plan|
      ensures plan[i] == BuildCheck(specs[i], cwd, i) && plan[i].required
      ensures RunCheck(plan[i], runner) == Evidence(CheckEvidence(i, CommandKind, Passes(runner, plan[i])))
    {
      BuiltCheckRuns(specs[i], cwd, i, runner);
    }
    if RequiredPass(plan, runner) {
      forall i | 0 <= i < |specs| ensures Passes(runner, BuildCheck(specs[i], cwd, i)) {
        assert plan[i].required;
      }
    }
  }

  /** A runner for which the command "false" does not succeed. */
  ghost predicate FalseFails(runner: Runner) {
    forall c: Check :: c.command == ["false"] && !c.shell ==> !Passes(runner, c)
  }

  /** One malformed spec fails the whole plan. */
  lemma {:induction false} MalformedSpecFailsPlan(specs: seq<string>, cwd: string, runner: Runner, k: nat)
    requires FalseFails(runner) && k < |specs| && Malformed(specs[k])
    ensures Runnable(BuildPlan(specs, cwd), runner) && !RequiredPass(BuildPlan(specs, cwd), runner)
  {
    BuiltPlanRunnable(specs, cwd, runner);
    MalformedIffFalse(specs[k], cwd, k);
    assert !Passes(runner, BuildCheck(specs[k], cwd, k));
  }

  // ---- Specs in plain terms ----

  predicate IsCheck(item: Item) {
    item.Text? && item.s != ""
  }

  /** parseChecks keeps exactly the non-empty strings of the list, in their order. */
  lemma {:induction false} TextsKept(items: seq<Item>)
    ensures |NonEmptyTexts(items)| == |Filter(IsCheck, items)|
    ensures forall i :: 0 <= i < |NonEmptyTexts(items)| ==>
              Filter(IsCheck, items)[i].Text? && NonEmptyTexts(items)[i] == Filter(IsCheck, items)[i].s
  {
    if items != [] {
      TextsKept(items[1..]);
    }
  }

  /** A list that is already a list of strings is treated alike. */
  lemma {:induction false} StringsAsTexts(texts: seq<string>)
    ensures NonEmptyStrings(texts) == NonEmptyTexts(seq(|texts|, i requires 0 <= i < |texts| => Text(texts[i])))
  {
    var items := seq(|texts|, i requires 0 <= i < |texts| => Text(texts[i]));
    if texts != [] {
      StringsAsTexts(texts[1..]);
      assert items[1..] == seq(|texts[1..]|, i requires 0 <= i < |texts[1..]| => Text(texts[1..][i]));
    }
  }

  /** Every built check is a required command check with its own number, run in the given directory. */
  lemma {:induction false} BuiltCheckFrame(spec: string, cwd: string, idx: nat)
    ensures var c := BuildCheck(spec, cwd, idx); c.id == idx && c.cwd == cwd && c.required && c.kind == CommandKind
  {
  }

  /** What a well-formed spec of each kind becomes. */
  lemma {:induction false} FileContentCommand(path: string, expected: string, cwd: string, idx: nat)
    requires ':' !in path
    ensures var c := BuildCheck(Glue(Three("file_content", path, expected)), cwd, idx);
            c.shell && c.shellCommand == "[ \"$(cat -- \"$1\")\" = \"$2\" ]" && c.command == [path, expected]
  {
    var rest := path + ":" + expected;
    var spec := Glue(Three("file_content", path, expected));
    assert spec[..12] == "file_content" && spec[12] == ':' && spec[13..] == rest;
    ColonUnique(spec, 12);
    assert rest[..|path|] == path && rest[|path|] == ':' && rest[|path| + 1..] == expected;
    ColonUnique(rest, |path|);
  }

  lemma {:induction false} BashCommand(text: string, cwd: string, idx: nat)
    ensures var c := BuildCheck(Glue(Two("bash", text)), cwd, idx); c.shell && c.shellCommand == text && c.command == []
  {
    var spec := Glue(Two("bash", text));
    assert spec[..4] == "bash" && spec[4] == ':' && spec[5..] == text;
    ColonUnique(spec, 4);
    SplitGlue(spec);
    SplitGlue(text);
    var j := ColonAt(text);
    assert j < |text| ==> text == text[..j] + ":" + text[j + 1..];
  }

  /** What running a check yields: a command passes exactly on exit code 0 without a runner error;
      the other kinds pass by their statement, which must be there. */
  lemma {:induction false} CheckYields(c: Check, runner: Runner)
    ensures var r := RunCheck(c, runner);
            && (c.kind == CommandKind || c.kind == KindUnset ==>
                  && (r == CheckError <==> c.command == [] && !c.shell)
                  && (r.Evidence? ==>
                        && r.evidence.check == c.id && r.evidence.kind == CommandKind
                        && (r.evidence.passed <==> !runner(c).failed && runner(c).exitCode == 0)))
            && (c.kind == ManualKind ==>
                  (c.reason != "" ==> r == Evidence(CheckEvidence(c.id, ManualKind, true))) && (c.reason == "" ==> r == CheckError))
            && (c.kind == ArtifactKind ==>
                  (|c.artifacts| > 0 ==> r == Evidence(CheckEvidence(c.id, ArtifactKind, true))) && (c.artifacts == [] ==> r == CheckError))
            && (c.kind.UnknownKind? ==> r == CheckError)
  {
  }

  /** The events of a verification: its verdict by type and status, then the evidence by status, all
      with the run, work item, verification and project they belong to. */
  lemma {:induction false} VerdictReports(o: PlanOptions, passed: bool)
    ensures var e := VerificationEvent(o, passed);
            && (passed ==> e.typ == VerificationPassed && e.status == Passed)
            && (!passed ==> e.typ == VerificationFailed && e.status == Failed)
            && e.run == o.run && e.work == o.work && e.verification == o.verification && e.root == o.root
  {
  }

  lemma {:induction false} EvidenceReports(o: PlanOptions, ev: CheckEvidence)
    ensures var e := EvidenceEvent(o, ev);
            && e.typ == EvidenceCreated && (ev.passed ==> e.status == Passed) && (!ev.passed ==> e.status == Failed)
            && e.run == o.run && e.work == o.work && e.verification == o.verification && e.root == o.root
  {
  }

  lemma {:induction false} VerificationReports(o: PlanOptions, passed: bool, evidence: seq<CheckEvidence>)
    ensures var es := VerificationEvents(o, passed, evidence);
            && |es| == |evidence| + 1 && es[0] == VerificationEvent(o, passed)
            && forall i :: 0 <= i < |evidence| ==> es[i + 1] == EvidenceEvent(o, evidence[i])
  {
  }
}
