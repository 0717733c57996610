/** handleToolBefore of internal/orchestrator/orchestrator.go: the guard's decision on its way to
    the response and to the ledger. */
module ToolBefore {
  import opened Ledger
  import RunPipeline
  import RunAgreement
  import G = Guard
  import S = StableSort

  datatype Answer = AnswerNone | AnswerWarn | AnswerBlock
  datatype Response = Response(action: Answer, text: string, warnings: seq<string>)

  function AnswerFor(a: G.Action): Answer {
    match a
    case Block => AnswerBlock
    case Warn => AnswerWarn
    case _ => AnswerNone
  }

  /** The tool-call event that reports the decision. */
  function ToolEvent(d: G.Decision): Event {
    match AnswerFor(d.action)
    case AnswerBlock => Blank(ToolCallBlocked, "").(status := Blocked)
    case AnswerWarn => Blank(ToolCallStarted, "").(status := Warned)
    case AnswerNone => Blank(ToolCallStarted, "").(status := Allowed)
  }

  const StorageWarning := "storage event not recorded"

  method HandleToolBefore(req: RunPipeline.Request, glob: G.PathMatches, input: G.Input, rules: seq<G.Rule>,
                          suppressions: seq<G.Suppression>, sink: Sink?) returns (response: Response, ghost d: G.Decision)
    modifies sink
    ensures G.Outcome(glob, input, rules, suppressions, d)
    ensures response.action == AnswerFor(d.action) && response.text == d.reason
    ensures sink != null ==> sink.log == Emit(sink.env, old(sink.log), RunPipeline.Fill(req, ToolEvent(d)))
    ensures response.warnings
         == G.FailureWarnings(input, S.Filter(G.Applying(glob, input, suppressions), rules))
            + (if d.action == G.Warn && d.reason != "" then [d.reason] else [])
            + (if sink != null && !Accepted(sink.env, old(|sink.log|)) then ["storage event not recorded"] else [])
  {
    var result := G.Evaluate(glob, input, rules, suppressions);
    d := result.decision;
    var warnings := result.warnings;
    var action := AnswerNone;
    match result.decision.action {
      case Block => action := AnswerBlock;
      case Warn => action := AnswerWarn;
      case _ => action := AnswerNone;
    }
    if action == AnswerWarn && result.decision.reason != "" {
      warnings := warnings + [result.decision.reason];
    }
    var typ, status := ToolCallStarted, Allowed;
    if action == AnswerBlock {
      typ, status := ToolCallBlocked, Blocked;
    } else if action == AnswerWarn {
      status := Warned;
    }
    if sink != null {
      var ok := sink.Record(RunPipeline.Fill(req, Blank(typ, "").(status := status)));
      if !ok {
        warnings := warnings + [StorageWarning];
      }
    }
    response := Response(action, result.decision.reason, warnings);
  }

  /** The event as it reaches the tables. */
  function Recorded(h: Hash, root: string, env: Env, n: nat, req: RunPipeline.Request, d: G.Decision): Event {
    Normalise(h, root, Stamp(env, n, RunPipeline.Fill(req, ToolEvent(d))))
  }

  lemma {:induction false} CallRowAfter(h: Hash, root: string, t: Tables, e: Event)
    requires IsToolCall(e.typ)
    ensures var u := Record(h, root, t, e);
            var id := ToolCallId(h, Normalise(h, root, e));
            id in u.toolCalls && u.toolCalls[id].status == ToolStatus(e)
  {
  }

  /** An accepted tool-call event leaves its own status on its row. */
  lemma {:induction false} CallRowStatus(h: Hash, root: string, t: Tables, env: Env, log: seq<Attempt>, e: Event, stamped: Event)
    requires Accepted(env, |log|) && stamped == Stamp(env, |log|, e) && IsToolCall(stamped.typ)
    ensures var u := RunAgreement.TablesOf(h, root, t, Emit(env, log, e));
            var id := ToolCallId(h, Normalise(h, root, stamped));
            id in u.toolCalls && u.toolCalls[id].status == ToolStatus(stamped)
  {
    RunAgreement.EmitTables(h, root, t, env, log, e);
    CallRowAfter(h, root, RunAgreement.TablesOf(h, root, t, log), stamped);
  }

  lemma {:induction false} StampKeepsStatus(env: Env, n: nat, e: Event)
    ensures Stamp(env, n, e).typ == e.typ && ToolStatus(Stamp(env, n, e)) == ToolStatus(e)
  {
  }

  /** The row of the call is blocked exactly when the response says so. */
  lemma {:induction false} LedgerShowsDecision(h: Hash, root: string, t: Tables, env: Env, log: seq<Attempt>,
                                               req: RunPipeline.Request, d: G.Decision)
    requires Accepted(env, |log|)
    ensures var u := RunAgreement.TablesOf(h, root, t, Emit(env, log, RunPipeline.Fill(req, ToolEvent(d))));
            var id := ToolCallId(h, Recorded(h, root, env, |log|, req, d));
            id in u.toolCalls && (u.toolCalls[id].status == Blocked <==> AnswerFor(d.action) == AnswerBlock)
  {
    var e := RunPipeline.Fill(req, ToolEvent(d));
    ToolEventStatus(req, d);
    StampKeepsStatus(env, |log|, e);
    CallRowStatus(h, root, t, env, log, e, Stamp(env, |log|, e));
  }

  lemma {:induction false} ToolEventStatus(req: RunPipeline.Request, d: G.Decision)
    ensures var e := RunPipeline.Fill(req, ToolEvent(d));
            IsToolCall(e.typ) && (ToolStatus(e) == Blocked <==> AnswerFor(d.action) == AnswerBlock)
  {
  }

  /** Response, ledger and rules agree: the caller is told to block, and an accepted record leaves
      the call's row blocked, exactly when some unsuppressed rule asks for a block. */
  lemma {:induction false} BlockReachesLedgerIff(h: Hash, root: string, t: Tables, env: Env, log: seq<Attempt>,
                                                 req: RunPipeline.Request, glob: G.PathMatches, input: G.Input,
                                                 rules: seq<G.Rule>, suppressions: seq<G.Suppression>, d: G.Decision)
    requires G.Outcome(glob, input, rules, suppressions, d) && Accepted(env, |log|)
    ensures var u := RunAgreement.TablesOf(h, root, t, Emit(env, log, RunPipeline.Fill(req, ToolEvent(d))));
            var id := ToolCallId(h, Recorded(h, root, env, |log|, req, d));
            var asked := G.BlockAsked(glob, input, rules, suppressions);
            && id in u.toolCalls
            && (u.toolCalls[id].status == Blocked <==> asked)
            && (AnswerFor(d.action) == AnswerBlock <==> asked)
  {
    G.BlockIff(glob, input, rules, suppressions, d);
    LedgerShowsDecision(h, root, t, env, log, req, d);
  }

  /** One unsuppressed rule that fails on a destructive tool is enough. */
  lemma {:induction false} FailingRuleBlocks(h: Hash, root: string, t: Tables, env: Env, log: seq<Attempt>,
                                             req: RunPipeline.Request, glob: G.PathMatches, input: G.Input,
                                             rules: seq<G.Rule>, suppressions: seq<G.Suppression>, d: G.Decision, i: nat)
    requires G.Outcome(glob, input, rules, suppressions, d) && G.IsDestructive(input.tool)
    requires i < |rules| && !G.Suppressed(glob, input, suppressions, rules[i].id) && rules[i].evaluate(input).RuleFailed?
    ensures d.action == G.Block && d.severity == G.Danger && AnswerFor(d.action) == AnswerBlock
    ensures ToolEvent(d).typ == ToolCallBlocked && ToolEvent(d).status == Blocked
    ensures Accepted(env, |log|) ==>
              var u := RunAgreement.TablesOf(h, root, t, Emit(env, log, RunPipeline.Fill(req, ToolEvent(d))));
              var id := ToolCallId(h, Recorded(h, root, env, |log|, req, d));
              id in u.toolCalls && u.toolCalls[id].status == Blocked
  {
    G.BlockIff(glob, input, rules, suppressions, d);
    if Accepted(env, |log|) {
      assert G.AsksBlock(input, rules[i]);
      BlockReachesLedgerIff(h, root, t, env, log, req, glob, input, rules, suppressions, d);
    }
  }

  /** What the caller is told and what the ledger is told, for each action of the guard. */
  lemma {:induction false} AnswersAndEvents(d: G.Decision)
    ensures d.action == G.Block ==>
              AnswerFor(d.action) == AnswerBlock && ToolEvent(d).typ == ToolCallBlocked && ToolEvent(d).status == Blocked
    ensures d.action == G.Warn ==>
              AnswerFor(d.action) == AnswerWarn && ToolEvent(d).typ == ToolCallStarted && ToolEvent(d).status == Warned
    ensures d.action == G.Allow ==>
              AnswerFor(d.action) == AnswerNone && ToolEvent(d).typ == ToolCallStarted && ToolEvent(d).status == Allowed
  {
  }
}
