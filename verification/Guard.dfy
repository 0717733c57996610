/** The guard merge of internal/guard/guard.go. */
module Guard {
  import opened StableSort

  datatype Action = Block | Warn | Allow | Unset | OtherAction(name: string)
  datatype Severity = Danger | Warning | Info | OtherSeverity(name: string)
  datatype Decision = Decision(action: Action, severity: Severity, reason: string, rule: string)

  datatype Verdict = RuleFailed(error: string) | Decided(decision: Decision)

  /** What rules see: the tool and, in `args`, everything else. */
  datatype Input = Input(tool: string, path: string, args: string)

  datatype Rule = Rule(id: string, evaluate: Input -> Verdict)
  datatype Suppression = Suppression(rule: string, reason: string, scope: string, paths: seq<string>, tools: seq<string>)

  datatype Result = Result(decision: Decision, decisions: seq<Decision>, warnings: seq<string>, suppressed: seq<string>)

  /** Path globbing, taken as given. */
  type PathMatches = (string, seq<string>) -> bool

  const DefaultAllow := Decision(Allow, Info, "allowed", "default-allow")

  function ActionRank(a: Action): nat {
    match a
    case Block => 3
    case Warn => 2
    case Allow => 1
    case _ => 0
  }

  function SeverityRank(s: Severity): nat {
    match s
    case Danger => 3
    case Warning => 2
    case Info => 1
    case _ => 0
  }

  // ---- Destructive tools ----

  /** unicode.ToLower, as far as a result in the ASCII range is concerned: besides A to Z only
      U+0130 and U+212A have one. */
  function LowerRune(c: char): char {
    if 'A' <= c <= 'Z' then c - 'A' + 'a'
    else if c == '\U{0130}' then 'i'
    else if c == '\U{212A}' then 'k'
    else c
  }

  function Lower(s: string): (r: string)
    ensures |r| == |s|
  {
    seq(|s|, i requires 0 <= i < |s| => LowerRune(s[i]))
  }

  predicate IsDestructive(tool: string) {
    Lower(tool) in ["write", "edit", "apply_patch", "bash", "shell_mutation", "delete", "rm"]
  }

  // ---- Suppressions ----

  predicate ValidSuppression(s: Suppression) {
    s.rule != "" && s.reason != "" && s.scope == "project" && (|s.paths| > 0 || |s.tools| > 0)
  }

  predicate Covers(glob: PathMatches, input: Input, id: string, s: Suppression) {
    && ValidSuppression(s) && s.rule == id
    && (|s.tools| > 0 ==> input.tool in s.tools)
    && (|s.paths| > 0 ==> glob(input.path, s.paths))
  }

  method SuppressionApplies(glob: PathMatches, input: Input, id: string, suppressions: seq<Suppression>) returns (r: bool)
    ensures r <==> Suppressed(glob, input, suppressions, id)
  {
    for i := 0 to |suppressions|
      invariant forall j :: 0 <= j < i ==> !Covers(glob, input, id, suppressions[j])
    {
      var s := suppressions[i];
      if !ValidSuppression(s) || s.rule != id {
        continue;
      }
      if |s.tools| > 0 && input.tool !in s.tools {
        continue;
      }
      if |s.paths| > 0 && !glob(input.path, s.paths) {
        continue;
      }
      return true;
    }
    return false;
  }

  predicate Suppressed(glob: PathMatches, input: Input, suppressions: seq<Suppression>, id: string) {
    exists i :: 0 <= i < |suppressions| && Covers(glob, input, id, suppressions[i])
  }

  // ---- The specification of the merge ----

  function ErrorReason(id: string, error: string): string {
    "guard rule \"" + id + "\" failed: " + error
  }

  function ErrorDecision(input: Input, id: string, error: string): Decision {
    if IsDestructive(input.tool) then Decision(Block, Danger, ErrorReason(id, error), id)
    else Decision(Allow, Warning, ErrorReason(id, error), id)
  }

  /** What an unsuppressed rule contributes. */
  function DecisionOf(input: Input, rule: Rule): Decision {
    match rule.evaluate(input)
    case RuleFailed(error) => ErrorDecision(input, rule.id, error)
    case Decided(d) => if d.action == Unset then Decision(Allow, Info, "allowed", rule.id) else d
  }

  function Applying(glob: PathMatches, input: Input, suppressions: seq<Suppression>): Rule -> bool {
    (r: Rule) => !Suppressed(glob, input, suppressions, r.id)
  }

  function NotApplying(glob: PathMatches, input: Input, suppressions: seq<Suppression>): Rule -> bool {
    (r: Rule) => Suppressed(glob, input, suppressions, r.id)
  }

  function DecisionsOf(input: Input, rules: seq<Rule>): (r: seq<Decision>)
    ensures |r| == |rules|
  {
    seq(|rules|, i requires 0 <= i < |rules| => DecisionOf(input, rules[i]))
  }

  /** Lexicographic comparison of (action rank, severity rank). */
  predicate Milder(a: Decision, b: Decision) {
    || ActionRank(a.action) < ActionRank(b.action)
    || (ActionRank(a.action) == ActionRank(b.action) && SeverityRank(a.severity) < SeverityRank(b.severity))
  }

  predicate SameRanks(a: Decision, b: Decision) {
    ActionRank(a.action) == ActionRank(b.action) && SeverityRank(a.severity) == SeverityRank(b.severity)
  }

  /** d is the first among the strictest of the default followed by ds. */
  ghost predicate FirstStrictest(ds: seq<Decision>, d: Decision) {
    var all := [DefaultAllow] + ds;
    exists k :: 0 <= k < |all| && StrictestAt(all, k, d)
  }

  ghost predicate StrictestAt(all: seq<Decision>, k: nat, d: Decision)
    requires k < |all|
  {
    && all[k] == d
    && (forall j :: 0 <= j < |all| ==> !Milder(d, all[j]))
    && (forall j :: 0 <= j < k ==> Milder(all[j], d))
  }

  lemma {:induction false} StrictestSnoc(ds: seq<Decision>, d: Decision, e: Decision)
    requires FirstStrictest(ds, d)
    ensures FirstStrictest(ds + [e], if Milder(d, e) then e else d)
  {
    var all, more := [DefaultAllow] + ds, [DefaultAllow] + (ds + [e]);
    assert more == all + [e];
    var k :| 0 <= k < |all| && StrictestAt(all, k, d);
    if Milder(d, e) {
      assert StrictestAt(more, |all|, e);
    } else {
      assert StrictestAt(more, k, d);
    }
  }

  /** Only one decision of the merge can be meant. */
  lemma {:induction false} FirstStrictestIsUnique(ds: seq<Decision>, d: Decision, e: Decision)
    requires FirstStrictest(ds, d) && FirstStrictest(ds, e)
    ensures d == e
  {
    var all := [DefaultAllow] + ds;
    var k :| 0 <= k < |all| && StrictestAt(all, k, d);
    var m :| 0 <= m < |all| && StrictestAt(all, m, e);
    assert !(k < m) && !(m < k);
  }

  // ---- Evaluate ----

  function FailureWarning(input: Input, rule: Rule): seq<string> {
    match rule.evaluate(input)
    case RuleFailed(error) => if IsDestructive(input.tool) then [] else [ErrorReason(rule.id, error)]
    case Decided(_) => []
  }

  function FailureWarnings(input: Input, rules: seq<Rule>): seq<string>
    decreases |rules|
  {
    if rules == [] then []
    else FailureWarnings(input, rules[..|rules| - 1]) + FailureWarning(input, rules[|rules| - 1])
  }

  function Ids(rules: seq<Rule>): (r: seq<string>)
    ensures |r| == |rules|
  {
    seq(|rules|, i requires 0 <= i < |rules| => rules[i].id)
  }

  lemma {:induction false} FilterSnoc<T>(keep: T -> bool, xs: seq<T>, i: nat)
    requires i < |xs|
    ensures Filter(keep, xs[..i + 1]) == Filter(keep, xs[..i]) + if keep(xs[i]) then [xs[i]] else []
  {
    assert xs[..i + 1] == xs[..i] + [xs[i]];
    FilterAppend(keep, xs[..i], [xs[i]]);
    FilterCons(keep, xs[i], []);
  }

  /** What the loop has gathered from the rules that apply and those that are suppressed. */
  ghost predicate Gathered(input: Input, on: seq<Rule>, off: seq<Rule>, r: Result) {
    && r.decisions == DecisionsOf(input, on)
    && r.suppressed == Ids(off)
    && r.warnings == FailureWarnings(input, on)
    && FirstStrictest(r.decisions, r.decision)
    && ActionRank(r.decision.action) > 0
  }

  lemma {:induction false} GatherSuppressed(input: Input, on: seq<Rule>, off: seq<Rule>, r: Result, rule: Rule)
    requires Gathered(input, on, off, r)
    ensures Gathered(input, on, off + [rule], r.(suppressed := r.suppressed + [rule.id]))
  {
  }

  lemma {:induction false} GatherApplying(input: Input, on: seq<Rule>, off: seq<Rule>, r: Result, rule: Rule)
    requires Gathered(input, on, off, r)
    ensures var d := DecisionOf(input, rule);
            Gathered(input, on + [rule], off,
                     Result(if Milder(r.decision, d) then d else r.decision, r.decisions + [d],
                            r.warnings + FailureWarning(input, rule), r.suppressed))
  {
    var d := DecisionOf(input, rule);
    StrictestSnoc(r.decisions, r.decision, d);
    assert (on + [rule])[..|on|] == on;
    assert DecisionsOf(input, on + [rule]) == r.decisions + [d];
  }

  /** The final decision is the first strictest one among the default and the decisions of the
      unsuppressed rules; every rule lands in Decisions or in SuppressedRules, in order. */
  method Evaluate(glob: PathMatches, input: Input, rules: seq<Rule>, suppressions: seq<Suppression>) returns (r: Result)
    ensures r.decisions == DecisionsOf(input, Filter(Applying(glob, input, suppressions), rules))
    ensures r.suppressed == Ids(Filter(NotApplying(glob, input, suppressions), rules))
    ensures r.warnings == FailureWarnings(input, Filter(Applying(glob, input, suppressions), rules))
    ensures FirstStrictest(r.decisions, r.decision)
    ensures r.decision.action in {Block, Warn, Allow}
  {
    ghost var keep, drop := Applying(glob, input, suppressions), NotApplying(glob, input, suppressions);
    ghost var on: seq<Rule>, off: seq<Rule> := [], [];
    r := Result(DefaultAllow, [], [], []);
    assert StrictestAt([DefaultAllow] + [], 0, DefaultAllow);
    for i := 0 to |rules|
      invariant on == Filter(keep, rules[..i]) && off == Filter(drop, rules[..i])
      invariant Gathered(input, on, off, r)
    {
      FilterSnoc(keep, rules, i);
      FilterSnoc(drop, rules, i);
      var rule := rules[i];
      var skip := SuppressionApplies(glob, input, rule.id, suppressions);
      assert keep(rule) == !skip && drop(rule) == skip;
      if skip {
        GatherSuppressed(input, on, off, r, rule);
        off := off + [rule];
        r := r.(suppressed := r.suppressed + [rule.id]);
      } else {
        GatherApplying(input, on, off, r, rule);
        on := on + [rule];
        r := Merge(input, rule, r);
      }
    }
    assert rules[..|rules|] == rules;
  }

  /** The part of the loop body for a rule that is not suppressed. */
  method Merge(input: Input, rule: Rule, before: Result) returns (r: Result)
    requires ActionRank(before.decision.action) > 0
    ensures var d := DecisionOf(input, rule);
            r == Result(if Milder(before.decision, d) then d else before.decision, before.decisions + [d],
                        before.warnings + FailureWarning(input, rule), before.suppressed)
  {
    r := before;
    var verdict := rule.evaluate(input);
    var decision;
    match verdict {
      case RuleFailed(error) =>
        decision := ErrorDecision(input, rule.id, error);
        if !IsDestructive(input.tool) {
          r := r.(warnings := r.warnings + [decision.reason]);
        }
      case Decided(d) =>
        decision := d;
    }
    if decision.action == Unset {
      decision := Decision(Allow, Info, "allowed", rule.id);
    }
    r := r.(decisions := r.decisions + [decision]);
    if ActionRank(decision.action) > ActionRank(r.decision.action) {
      r := r.(decision := decision);
    } else if decision.action == r.decision.action && SeverityRank(decision.severity) > SeverityRank(r.decision.severity) {
      r := r.(decision := decision);
    }
  }

  // ---- Properties of the merge ----

  /** The outcome of Evaluate, as a relation. */
  ghost predicate Outcome(glob: PathMatches, input: Input, rules: seq<Rule>, suppressions: seq<Suppression>, d: Decision) {
    FirstStrictest(DecisionsOf(input, Filter(Applying(glob, input, suppressions), rules)), d)
  }

  /** No two rules are lost or invented: the rules are shared out between the two lists. */
  lemma {:induction false} EveryRuleLandsOnce(glob: PathMatches, input: Input, rules: seq<Rule>, suppressions: seq<Suppression>)
    ensures multiset(Filter(Applying(glob, input, suppressions), rules))
            + multiset(Filter(NotApplying(glob, input, suppressions), rules)) == multiset(rules)
    ensures |Filter(Applying(glob, input, suppressions), rules)| + |Filter(NotApplying(glob, input, suppressions), rules)| == |rules|
  {
    var on, off := Filter(Applying(glob, input, suppressions), rules), Filter(NotApplying(glob, input, suppressions), rules);
    FilterPartition(Applying(glob, input, suppressions), NotApplying(glob, input, suppressions), rules);
    assert |multiset(on) + multiset(off)| == |multiset(rules)|;
  }

  /** Fewer rules that apply never give a stricter outcome. */
  lemma {:induction false} FewerRulesAreMilder(input: Input, few: seq<Rule>, many: seq<Rule>, d: Decision, e: Decision)
    requires forall i :: 0 <= i < |few| ==> few[i] in many
    requires FirstStrictest(DecisionsOf(input, few), d) && FirstStrictest(DecisionsOf(input, many), e)
    ensures !Milder(e, d)
  {
    var all, more := [DefaultAllow] + DecisionsOf(input, few), [DefaultAllow] + DecisionsOf(input, many);
    var k :| 0 <= k < |all| && StrictestAt(all, k, d);
    var m :| 0 <= m < |more| && StrictestAt(more, m, e);
    if k == 0 {
      assert more[0] == d;
    } else {
      assert few[k - 1] in many;
      var i :| 0 <= i < |many| && many[i] == few[k - 1];
      assert more[i + 1] == d;
    }
  }

  /** Reordering the rules changes neither rank of the outcome. */
  lemma {:induction false} RuleOrderKeepsRanks(glob: PathMatches, input: Input, rules: seq<Rule>, shuffled: seq<Rule>,
                                               suppressions: seq<Suppression>, d: Decision, e: Decision)
    requires multiset(rules) == multiset(shuffled)
    requires Outcome(glob, input, rules, suppressions, d) && Outcome(glob, input, shuffled, suppressions, e)
    ensures SameRanks(d, e)
  {
    var keep := Applying(glob, input, suppressions);
    FilterSubset(keep, keep, rules, shuffled);
    FilterSubset(keep, keep, shuffled, rules);
    FewerRulesAreMilder(input, Filter(keep, rules), Filter(keep, shuffled), d, e);
    FewerRulesAreMilder(input, Filter(keep, shuffled), Filter(keep, rules), e, d);
  }

  lemma {:induction false} FilterSubset(keep: Rule -> bool, wide: Rule -> bool, xs: seq<Rule>, ys: seq<Rule>)
    requires multiset(xs) == multiset(ys)
    requires forall i :: 0 <= i < |xs| && keep(xs[i]) ==> wide(xs[i])
    ensures forall i :: 0 <= i < |Filter(keep, xs)| ==> Filter(keep, xs)[i] in Filter(wide, ys)
  {
    forall i | 0 <= i < |Filter(keep, xs)| ensures Filter(keep, xs)[i] in Filter(wide, ys) {
      var x := Filter(keep, xs)[i];
      FilterMembers(keep, xs, x);
      assert x in multiset(xs);
      FilterMembers(wide, ys, x);
    }
  }

  /** Adding suppressions never makes the outcome stricter. */
  lemma {:induction false} SuppressionsNeverRaise(glob: PathMatches, input: Input, rules: seq<Rule>,
                                                  few: seq<Suppression>, many: seq<Suppression>, d: Decision, e: Decision)
    requires forall i :: 0 <= i < |few| ==> few[i] in many
    requires Outcome(glob, input, rules, few, d) && Outcome(glob, input, rules, many, e)
    ensures !Milder(d, e)
  {
    forall i | 0 <= i < |rules| && Applying(glob, input, many)(rules[i]) ensures Applying(glob, input, few)(rules[i]) {
      forall j | 0 <= j < |few| ensures !Covers(glob, input, rules[i].id, few[j]) {
        assert few[j] in many;
        var k :| 0 <= k < |many| && many[k] == few[j];
        assert !Covers(glob, input, rules[i].id, many[k]);
      }
    }
    FilterSubset(Applying(glob, input, many), Applying(glob, input, few), rules, rules);
    FewerRulesAreMilder(input, Filter(Applying(glob, input, many), rules), Filter(Applying(glob, input, few), rules), e, d);
  }

  /** The rule, if it applies, asks for a block. */
  predicate AsksBlock(input: Input, rule: Rule) {
    match rule.evaluate(input)
    case RuleFailed(_) => IsDestructive(input.tool)
    case Decided(d) => d.action == Block
  }

  /** Some unsuppressed rule asks for a block. */
  ghost predicate BlockAsked(glob: PathMatches, input: Input, rules: seq<Rule>, suppressions: seq<Suppression>) {
    exists i :: 0 <= i < |rules| && !Suppressed(glob, input, suppressions, rules[i].id) && AsksBlock(input, rules[i])
  }

  /** The outcome is a block exactly when some unsuppressed rule asks for one; a rule that fails
      on a destructive tool asks for the highest severity, too. */
  lemma {:induction false} BlockIff(glob: PathMatches, input: Input, rules: seq<Rule>, suppressions: seq<Suppression>, d: Decision)
    requires Outcome(glob, input, rules, suppressions, d)
    ensures d.action == Block <==> BlockAsked(glob, input, rules, suppressions)
    ensures (exists i :: 0 <= i < |rules| && !Suppressed(glob, input, suppressions, rules[i].id)
                         && rules[i].evaluate(input).RuleFailed? && IsDestructive(input.tool)) ==>
              d.action == Block && d.severity == Danger
  {
    var keep := Applying(glob, input, suppressions);
    var on := Filter(keep, rules);
    var all := [DefaultAllow] + DecisionsOf(input, on);
    var k :| 0 <= k < |all| && StrictestAt(all, k, d);
    forall i | 0 <= i < |rules| && keep(rules[i])
      ensures !Milder(d, DecisionOf(input, rules[i]))
    {
      FilterMembers(keep, rules, rules[i]);
      var j :| 0 <= j < |on| && on[j] == rules[i];
      assert all[j + 1] == DecisionOf(input, rules[i]);
    }
    if d.action == Block {
      assert k > 0;
      var rule := on[k - 1];
      assert d == DecisionOf(input, rule);
      FilterMembers(keep, rules, rule);
      var i :| 0 <= i < |rules| && rules[i] == rule;
      assert !Suppressed(glob, input, suppressions, rules[i].id) && AsksBlock(input, rules[i]);
    }
  }

  // ---- The rules in plain terms ----

  /** Block before warn before allow before anything else; danger before warning before info. */
  lemma {:induction false} Ranks()
    ensures ActionRank(Block) > ActionRank(Warn) > ActionRank(Allow)
    ensures forall name: string :: ActionRank(Allow) > ActionRank(OtherAction(name))
    ensures ActionRank(Allow) > ActionRank(Unset)
    ensures SeverityRank(Danger) > SeverityRank(Warning) > SeverityRank(Info)
    ensures forall name: string :: SeverityRank(Info) > SeverityRank(OtherSeverity(name))
  {
  }

  predicate AsksWarn(input: Input, rule: Rule) {
    match rule.evaluate(input)
    case RuleFailed(_) => false
    case Decided(d) => d.action == Warn
  }

  /** Without a block the outcome is a warning exactly when some unsuppressed rule asks for one. */
  lemma {:induction false} WarnIff(glob: PathMatches, input: Input, rules: seq<Rule>, suppressions: seq<Suppression>, d: Decision)
    requires Outcome(glob, input, rules, suppressions, d) && d.action != Block
    ensures d.action == Warn <==>
            exists i :: 0 <= i < |rules| && !Suppressed(glob, input, suppressions, rules[i].id) && AsksWarn(input, rules[i])
    ensures d.action == Warn || d.action == Allow
  {
    var keep := Applying(glob, input, suppressions);
    var on := Filter(keep, rules);
    var all := [DefaultAllow] + DecisionsOf(input, on);
    var k :| 0 <= k < |all| && StrictestAt(all, k, d);
    assert !Milder(d, all[0]);
    forall i | 0 <= i < |rules| && keep(rules[i]) ensures !Milder(d, DecisionOf(input, rules[i])) {
      FilterMembers(keep, rules, rules[i]);
      var j :| 0 <= j < |on| && on[j] == rules[i];
      assert all[j + 1] == DecisionOf(input, rules[i]);
    }
    if d.action == Warn {
      assert k > 0;
      var rule := on[k - 1];
      assert d == DecisionOf(input, rule);
      FilterMembers(keep, rules, rule);
      var i :| 0 <= i < |rules| && rules[i] == rule;
      assert !Suppressed(glob, input, suppressions, rules[i].id) && AsksWarn(input, rules[i]);
    }
  }

  /** When every rule is suppressed, or there is none, the call is allowed by default. */
  lemma {:induction false} AllowedByDefault(glob: PathMatches, input: Input, rules: seq<Rule>, suppressions: seq<Suppression>, d: Decision)
    requires Outcome(glob, input, rules, suppressions, d)
    requires forall i :: 0 <= i < |rules| ==> Suppressed(glob, input, suppressions, rules[i].id)
    ensures d == Decision(Allow, Info, "allowed", "default-allow")
  {
    var keep := Applying(glob, input, suppressions);
    forall i | 0 <= i < |rules| ensures !keep(rules[i]) {
      assert Suppressed(glob, input, suppressions, rules[i].id);
    }
    FilterNone(keep, rules);
    assert Filter(keep, rules) == [];
    assert [DefaultAllow] + DecisionsOf(input, []) == [DefaultAllow];
  }

  lemma {:induction false} FilterNone<T>(keep: T -> bool, xs: seq<T>)
    requires forall i :: 0 <= i < |xs| ==> !keep(xs[i])
    ensures Filter(keep, xs) == []
  {
    if xs != [] {
      FilterNone(keep, xs[1..]);
    }
  }

  lemma {:induction false} LowerCase(c: char)
    ensures 'A' <= c <= 'Z' ==> LowerRune(c) as int == c as int + 32
    ensures 'a' <= c <= 'z' || c == '_' ==> LowerRune(c) == c
  {
  }

  /** The destructive tools, in any case. */
  lemma {:induction false} DestructiveTools()
    ensures IsDestructive("write") && IsDestructive("edit") && IsDestructive("apply_patch") && IsDestructive("bash")
    ensures IsDestructive("shell_mutation") && IsDestructive("delete") && IsDestructive("rm")
    ensures IsDestructive("Write") && IsDestructive("BASH")
    ensures !IsDestructive("read") && !IsDestructive("grep") && !IsDestructive("")
  {
    assert Lower("write") == "write" && Lower("edit") == "edit" && Lower("apply_patch") == "apply_patch" && Lower("bash") == "bash";
    assert Lower("shell_mutation") == "shell_mutation" && Lower("delete") == "delete" && Lower("rm") == "rm";
    assert Lower("Write") == "write" && Lower("BASH") == "bash";
    assert Lower("read") == "read" && Lower("grep") == "grep" && Lower("") == "";
    assert "read"[0] == 'r' && "grep"[0] == 'g';
  }

  /** What a rule contributes: its decision, allow if it gives none, and when it fails a block with
      danger on a destructive tool or else an allow with a warning. */
  lemma {:induction false} Contribution(input: Input, rule: Rule)
    ensures var d := DecisionOf(input, rule);
            var v := rule.evaluate(input);
            && (v.Decided? && v.decision.action != Unset ==> d == v.decision)
            && (v.Decided? && v.decision.action == Unset ==> d.action == Allow && d.severity == Info && d.rule == rule.id)
            && (v.RuleFailed? && IsDestructive(input.tool) ==> d.action == Block && d.severity == Danger && d.rule == rule.id)
            && (v.RuleFailed? && !IsDestructive(input.tool) ==> d.action == Allow && d.severity == Warning && d.rule == rule.id)
            && (v.RuleFailed? ==> d.reason == "guard rule \"" + rule.id + "\" failed: " + v.error)
    ensures var v := rule.evaluate(input);
            && (v.RuleFailed? && !IsDestructive(input.tool) ==> FailureWarning(input, rule) == [DecisionOf(input, rule).reason])
            && (v.Decided? || IsDestructive(input.tool) ==> FailureWarning(input, rule) == [])
  {
  }

  /** A suppression needs a rule, a reason, the project scope and some limit, and covers its own rule
      within its limits only. */
  lemma {:induction false} CoverageRules(glob: PathMatches, input: Input, id: string, s: Suppression)
    ensures s.rule != id || id == "" || s.reason == "" || s.scope != "project" || (s.paths == [] && s.tools == []) ==>
              !Covers(glob, input, id, s)
    ensures s.tools != [] && input.tool !in s.tools ==> !Covers(glob, input, id, s)
    ensures s.paths != [] && !glob(input.path, s.paths) ==> !Covers(glob, input, id, s)
    ensures (s.rule == id != "" && s.reason != "" && s.scope == "project" && input.tool in s.tools
             && (s.paths == [] || glob(input.path, s.paths))) ==> Covers(glob, input, id, s)
    ensures (s.rule == id != "" && s.reason != "" && s.scope == "project" && s.tools == [] && s.paths != []
             && glob(input.path, s.paths)) ==> Covers(glob, input, id, s)
  {
  }

  /** The warnings of several rules are those of each, in order. */
  lemma {:induction false} WarningsSnoc(input: Input, rules: seq<Rule>, rule: Rule)
    ensures FailureWarnings(input, []) == []
    ensures FailureWarnings(input, rules + [rule]) == FailureWarnings(input, rules) + FailureWarning(input, rule)
  {
    assert (rules + [rule])[..|rules|] == rules;
  }
}
