/** The hook chain of internal/hook/chain.go. A hook may change the shared input, so each one is
    a function from the input it finds to its reply and the input it leaves. */
module HookChain {
  import opened Wrappers
  import opened StableSort

  datatype Slot = SlotInput | SlotOutput | SlotGuard | SlotLifecycle | SlotFlow | OtherSlot(name: string)

  datatype Flow = Flow(proceed: bool, reason: string)
  datatype Output = Output(warnings: seq<string>, allow: bool, reason: string, flow: Option<Flow>)
  datatype Reply = Failure(error: string) | Success(out: Output)
  datatype Step<I> = Step(reply: Reply, left: I)

  datatype Hook<!I> = Hook(id: string, slot: Slot, priority: int, run: I -> Step<I>)

  /** What Apply returns, and the input as the hooks have left it. */
  datatype Outcome<I> = Outcome(out: Output, err: Option<string>, left: I)

  predicate Hard(slot: Slot) {
    slot == SlotInput || slot == SlotGuard
  }

  function ByPriority<I>(): (Hook<I>, Hook<I>) -> bool {
    (a: Hook<I>, b: Hook<I>) => a.priority < b.priority
  }

  function InSlot<I>(slot: Slot): Hook<I> -> bool {
    (h: Hook<I>) => h.slot == slot
  }

  function NewChain<I>(hooks: seq<Hook<I>>): seq<Hook<I>> {
    Sort(ByPriority(), hooks)
  }

  // ---- The specification: what happens to a list of hooks that all run ----

  /** The input that hook number k finds when all before it have run. */
  function Found<I>(hs: seq<Hook<I>>, input: I, k: nat): I
    requires k <= |hs|
  {
    if k == 0 then input else hs[k - 1].run(Found(hs, input, k - 1)).left
  }

  function ReplyAt<I>(hs: seq<Hook<I>>, input: I, k: nat): Reply
    requires k < |hs|
  {
    hs[k].run(Found(hs, input, k)).reply
  }

  /** The warnings that one reply contributes. */
  function WarningsOf(id: string, r: Reply): seq<string> {
    match r
    case Failure(error) => ["hook " + id + " error: " + error]
    case Success(out) => out.warnings
  }

  function WarningsUpTo<I>(hs: seq<Hook<I>>, input: I, k: nat): seq<string>
    requires k <= |hs|
  {
    if k == 0 then [] else WarningsUpTo(hs, input, k - 1) + WarningsOf(hs[k - 1].id, ReplyAt(hs, input, k - 1))
  }

  /** The last flow decision among the first k replies. */
  function FlowUpTo<I>(hs: seq<Hook<I>>, input: I, k: nat): Option<Flow>
    requires k <= |hs|
  {
    if k == 0 then None
    else
      var r := ReplyAt(hs, input, k - 1);
      if r.Success? && r.out.flow.Some? then r.out.flow else FlowUpTo(hs, input, k - 1)
  }

  /** An error or a denial, where that matters. */
  predicate Stops(slot: Slot, r: Reply) {
    Hard(slot) && (r.Failure? || !r.out.allow)
  }

  /** The first hook from k on whose reply stops the chain, or the end. */
  function StopAt<I>(hs: seq<Hook<I>>, slot: Slot, input: I, k: nat): (n: nat)
    requires k <= |hs|
    ensures k <= n <= |hs|
    ensures forall j :: k <= j < n ==> !Stops(slot, ReplyAt(hs, input, j))
    ensures n < |hs| ==> Stops(slot, ReplyAt(hs, input, n))
    decreases |hs| - k
  {
    if k == |hs| || Stops(slot, ReplyAt(hs, input, k)) then k else StopAt(hs, slot, input, k + 1)
  }

  function Expected<I>(hs: seq<Hook<I>>, slot: Slot, input: I): Outcome<I> {
    var n := StopAt(hs, slot, input, 0);
    var flow := FlowUpTo(hs, input, n);
    if n == |hs| then Outcome(Output(WarningsUpTo(hs, input, n), true, "", flow), None, Found(hs, input, n))
    else
      match ReplyAt(hs, input, n)
      case Failure(error) =>
        Outcome(Output(WarningsUpTo(hs, input, n), true, "", flow), Some(error), Found(hs, input, n + 1))
      case Success(out) =>
        Outcome(Output(WarningsUpTo(hs, input, n + 1), false, out.reason, flow), None, Found(hs, input, n + 1))
  }

  // ---- Apply ----

  lemma {:induction false} NextInSlot<T>(keep: T -> bool, xs: seq<T>, i: nat, kept: seq<T>, k: nat)
    requires i < |xs| && k <= |kept| && kept[k..] == Filter(keep, xs[i..])
    ensures keep(xs[i]) ==> k < |kept| && kept[k] == xs[i] && kept[k + 1..] == Filter(keep, xs[i + 1..])
    ensures !keep(xs[i]) ==> kept[k..] == Filter(keep, xs[i + 1..])
  {
    assert xs[i..] == [xs[i]] + xs[i + 1..];
    FilterCons(keep, xs[i], xs[i + 1..]);
    if keep(xs[i]) {
      assert kept[k..][0] == kept[k] && kept[k..][1..] == kept[k + 1..];
    }
  }

  /** No reply before hook number k stops the chain. */
  ghost predicate Reaches<I>(hs: seq<Hook<I>>, slot: Slot, input: I, k: nat)
    requires k <= |hs|
  {
    forall j :: 0 <= j < k ==> !Stops(slot, ReplyAt(hs, input, j))
  }

  lemma {:induction false} StopHere<I>(hs: seq<Hook<I>>, slot: Slot, input: I, k: nat)
    requires k <= |hs| && Reaches(hs, slot, input, k)
    requires k < |hs| ==> Stops(slot, ReplyAt(hs, input, k))
    ensures StopAt(hs, slot, input, 0) == k
  {
  }

  /** The loop has run the first k hooks of the slot and none of them stopped it. */
  ghost predicate Progress<I>(hs: seq<Hook<I>>, slot: Slot, input: I, k: nat, agg: Output, current: I) {
    && k <= |hs| && Reaches(hs, slot, input, k)
    && agg == Output(WarningsUpTo(hs, input, k), true, "", FlowUpTo(hs, input, k))
    && current == Found(hs, input, k)
  }

  lemma {:induction false} Advance<I>(hs: seq<Hook<I>>, slot: Slot, input: I, k: nat, agg: Output, current: I)
    requires Progress(hs, slot, input, k, agg, current) && k < |hs|
    requires !Stops(slot, hs[k].run(current).reply)
    ensures var step := hs[k].run(current);
            var flow := if step.reply.Success? && step.reply.out.flow.Some? then step.reply.out.flow else agg.flow;
            Progress(hs, slot, input, k + 1,
                     agg.(warnings := agg.warnings + WarningsOf(hs[k].id, step.reply), flow := flow), step.left)
  {
  }

  lemma {:induction false} Halt<I>(hs: seq<Hook<I>>, slot: Slot, input: I, k: nat, agg: Output, current: I)
    requires Progress(hs, slot, input, k, agg, current) && k < |hs|
    requires Stops(slot, hs[k].run(current).reply)
    ensures var step := hs[k].run(current);
            Expected(hs, slot, input) ==
            match step.reply
            case Failure(error) => Outcome(agg, Some(error), step.left)
            case Success(out) => Outcome(Output(agg.warnings + out.warnings, false, out.reason, agg.flow), None, step.left)
  {
    StopHere(hs, slot, input, k);
  }

  lemma {:induction false} End<I>(hs: seq<Hook<I>>, slot: Slot, input: I, agg: Output, current: I)
    requires Progress(hs, slot, input, |hs|, agg, current)
    ensures Expected(hs, slot, input) == Outcome(agg, None, current)
  {
    StopHere(hs, slot, input, |hs|);
  }

  /** The loop of Apply over the whole chain gives what the hooks of the slot alone prescribe. */
  method Apply<I>(chain: seq<Hook<I>>, slot: Slot, input: I) returns (r: Outcome<I>)
    ensures r == Expected(Filter(InSlot(slot), chain), slot, input)
  {
    ghost var hs := Filter(InSlot(slot), chain);
    ghost var k: nat := 0;
    var agg := Output([], true, "", None);
    var current := input;
    for i := 0 to |chain|
      invariant k <= |hs| && hs[k..] == Filter(InSlot(slot), chain[i..])
      invariant Progress(hs, slot, input, k, agg, current)
    {
      var h := chain[i];
      NextInSlot(InSlot(slot), chain, i, hs, k);
      if h.slot == slot {
        var step := h.run(current);
        if Stops(slot, step.reply) {
          Halt(hs, slot, input, k, agg, current);
        } else {
          Advance(hs, slot, input, k, agg, current);
        }
        current := step.left;
        k := k + 1;
        if step.reply.Failure? {
          if Hard(slot) {
            return Outcome(agg, Some(step.reply.error), current);
          }
          agg := agg.(warnings := agg.warnings + ["hook " + h.id + " error: " + step.reply.error]);
        } else {
          var out := step.reply.out;
          agg := agg.(warnings := agg.warnings + out.warnings);
          if Hard(slot) && !out.allow {
            return Outcome(agg.(allow := false, reason := out.reason), None, current);
          }
          if out.flow.Some? {
            agg := agg.(flow := out.flow);
          }
        }
      }
    }
    assert k == |hs|;
    End(hs, slot, input, agg, current);
    return Outcome(agg, None, current);
  }

  // ---- Order and isolation ----

  lemma {:induction false} PriorityIsStrictWeak<I(!new)>()
    ensures StrictWeak(ByPriority<I>())
  {
  }

  /** The chain runs by priority; hooks of one priority keep the order in which they were given. */
  lemma {:induction false} ChainOrder<I(!new)>(hooks: seq<Hook<I>>, p: int)
    ensures Sorted(ByPriority<I>(), NewChain(hooks)) && multiset(NewChain(hooks)) == multiset(hooks)
    ensures forall i, j :: 0 <= i < j < |NewChain(hooks)| ==> NewChain(hooks)[i].priority <= NewChain(hooks)[j].priority
    ensures var same := (h: Hook<I>) => h.priority == p; Filter(same, NewChain(hooks)) == Filter(same, hooks)
  {
    PriorityIsStrictWeak<I>();
    SortSorted(ByPriority<I>(), hooks);
    var same := (h: Hook<I>) => h.priority == p;
    SortFilterCommute(ByPriority<I>(), same, hooks);
    forall i | 0 <= i < |Filter(same, hooks)| ensures Filter(same, hooks)[i].priority == p {
      FilterMembers(same, hooks, Filter(same, hooks)[i]);
    }
    SortTies(ByPriority<I>(), Filter(same, hooks));
  }

  /** Apply on a slot depends only on the hooks registered for that slot, in their order: hooks of
      other slots may come and go without any effect on the outcome or on the input. */
  lemma {:induction false} SlotIsolation<I(!new)>(hooks: seq<Hook<I>>, others: seq<Hook<I>>, slot: Slot, input: I)
    requires Filter(InSlot(slot), hooks) == Filter(InSlot(slot), others)
    ensures Expected(Filter(InSlot(slot), NewChain(hooks)), slot, input)
         == Expected(Filter(InSlot(slot), NewChain(others)), slot, input)
  {
    PriorityIsStrictWeak<I>();
    SortFilterCommute(ByPriority<I>(), InSlot(slot), hooks);
    SortFilterCommute(ByPriority<I>(), InSlot(slot), others);
  }

  /** In particular, the whole chain behaves like the chain of only that slot's hooks. */
  lemma {:induction false} SlotChainSuffices<I(!new)>(hooks: seq<Hook<I>>, slot: Slot, input: I)
    ensures var alone := NewChain(Filter(InSlot(slot), hooks));
            && Filter(InSlot(slot), alone) == alone == Filter(InSlot(slot), NewChain(hooks))
            && Expected(Filter(InSlot(slot), NewChain(hooks)), slot, input) == Expected(alone, slot, input)
  {
    var own := Filter(InSlot(slot), hooks);
    PriorityIsStrictWeak<I>();
    SortFilterCommute(ByPriority<I>(), InSlot(slot), hooks);
    SortFilterCommute(ByPriority<I>(), InSlot(slot), own);
    forall i | 0 <= i < |own| ensures own[i].slot == slot {
      FilterMembers(InSlot(slot), hooks, own[i]);
    }
    FilterAll(InSlot(slot), own);
  }

  // ---- Hard and soft slots ----

  /** A soft slot runs every hook, never returns an error and always allows. */
  lemma {:induction false} SoftSlotRunsAll<I>(hs: seq<Hook<I>>, slot: Slot, input: I)
    requires !Hard(slot)
    ensures var r := Expected(hs, slot, input);
            && r.err == None && r.out.allow && r.left == Found(hs, input, |hs|)
            && r.out.warnings == WarningsUpTo(hs, input, |hs|) && r.out.flow == FlowUpTo(hs, input, |hs|)
  {
  }

  lemma {:induction false} FoundByPrefix<I>(hs: seq<Hook<I>>, gs: seq<Hook<I>>, input: I, m: nat, k: nat)
    requires k <= m <= |hs| && m <= |gs| && hs[..m] == gs[..m]
    ensures Found(hs, input, k) == Found(gs, input, k)
    ensures WarningsUpTo(hs, input, k) == WarningsUpTo(gs, input, k)
    ensures FlowUpTo(hs, input, k) == FlowUpTo(gs, input, k)
  {
    if k > 0 {
      FoundByPrefix(hs, gs, input, m, k - 1);
      assert hs[..m][k - 1] == hs[k - 1] && gs[..m][k - 1] == gs[k - 1];
    }
  }

  /** A hard slot runs exactly up to the first error or denial: whatever comes after that hook
      changes neither the outcome nor the input. */
  lemma {:induction false} HardSlotStopsAtFirst<I>(hs: seq<Hook<I>>, gs: seq<Hook<I>>, slot: Slot, input: I)
    requires Hard(slot)
    requires var n := StopAt(hs, slot, input, 0); n < |hs| && n < |gs| && hs[..n + 1] == gs[..n + 1]
    ensures Expected(gs, slot, input) == Expected(hs, slot, input)
  {
    var n := StopAt(hs, slot, input, 0);
    assert hs[..n + 1][n] == hs[n] && gs[..n + 1][n] == gs[n];
    FoundByPrefix(hs, gs, input, n + 1, n);
    FoundByPrefix(hs, gs, input, n + 1, n + 1);
    forall j | 0 <= j <= n ensures ReplyAt(gs, input, j) == ReplyAt(hs, input, j) {
      FoundByPrefix(hs, gs, input, n + 1, j);
      assert hs[..n + 1][j] == hs[j] && gs[..n + 1][j] == gs[j];
    }
    StopHere(gs, slot, input, n);
  }

  /** An outcome denies or fails exactly when some hook on a hard slot would stop the chain; the
      reason, or the error, is that of the first such hook. */
  lemma {:induction false} DeniedOrFailedIff<I>(hs: seq<Hook<I>>, slot: Slot, input: I)
    ensures var r := Expected(hs, slot, input);
            && (!r.out.allow || r.err.Some? <==> exists k :: 0 <= k < |hs| && Stops(slot, ReplyAt(hs, input, k)))
            && !(!r.out.allow && r.err.Some?)
    ensures var r := Expected(hs, slot, input);
            var n := StopAt(hs, slot, input, 0);
            && (!r.out.allow ==> n < |hs| && ReplyAt(hs, input, n).Success? && r.out.reason == ReplyAt(hs, input, n).out.reason)
            && (r.err.Some? ==> n < |hs| && ReplyAt(hs, input, n) == Failure(r.err.value))
  {
  }

  // ---- The rules in plain terms ----

  /** On the input and guard slots a denial stops the chain and denies, and an error stops it and is
      returned; on every other slot neither does. */
  lemma {:induction false} FirstReplyDecides<I>(hs: seq<Hook<I>>, slot: Slot, input: I)
    requires hs != []
    ensures var reply := hs[0].run(input).reply;
            var r := Expected(hs, slot, input);
            && (slot == SlotGuard || slot == SlotInput ==>
                  && (reply.Failure? ==> r.err == Some(reply.error) && r.out.allow)
                  && (reply.Success? && !reply.out.allow ==> r.err == None && !r.out.allow && r.out.reason == reply.out.reason))
            && (slot == SlotOutput || slot == SlotLifecycle || slot == SlotFlow || slot.OtherSlot? ==> r.err == None && r.out.allow)
  {
    assert ReplyAt(hs, input, 0) == hs[0].run(input).reply;
  }

  /** The flow decision is that of the last hook that made one, if any did. */
  lemma {:induction false} FlowIsLast<I>(hs: seq<Hook<I>>, input: I, k: nat)
    requires k <= |hs|
    ensures FlowUpTo(hs, input, k) == None <==> forall j :: 0 <= j < k ==> !Decides(ReplyAt(hs, input, j))
    ensures forall j :: 0 <= j < k && Decides(ReplyAt(hs, input, j)) && (forall m :: j < m < k ==> !Decides(ReplyAt(hs, input, m))) ==>
              FlowUpTo(hs, input, k) == ReplyAt(hs, input, j).out.flow
  {
    if k > 0 {
      FlowIsLast(hs, input, k - 1);
    }
  }

  predicate Decides(r: Reply) {
    r.Success? && r.out.flow.Some?
  }

  /** The warnings are those of the replies in order; a failed hook is named with its error. */
  lemma {:induction false} WarningsInOrder<I>(hs: seq<Hook<I>>, input: I, k: nat)
    requires k < |hs|
    ensures WarningsUpTo(hs, input, 0) == []
    ensures var r := ReplyAt(hs, input, k);
            && (r.Success? ==> WarningsUpTo(hs, input, k + 1) == WarningsUpTo(hs, input, k) + r.out.warnings)
            && (r.Failure? ==> WarningsUpTo(hs, input, k + 1) == WarningsUpTo(hs, input, k) + ["hook " + hs[k].id + " error: " + r.error])
  {
  }

  /** Each hook finds the input as the one before it left it. */
  lemma {:induction false} InputIsThreaded<I>(hs: seq<Hook<I>>, input: I, k: nat)
    requires k < |hs|
    ensures Found(hs, input, 0) == input && Found(hs, input, k + 1) == hs[k].run(Found(hs, input, k)).left
  {
  }
}
