/** Route selection of internal/route/route.go. Lowering the input's letters is taken as given. */
module Route {
  import opened Wrappers
  import opened StableSort
  import opened Text

  datatype Confidence = Low | Medium | High

  datatype Trigger = Trigger(pattern: string, domain: string, priority: int)
  datatype Agent = Agent(name: string, triggers: seq<Trigger>, autonomy: string)
  type Agents = map<string, Agent>

  datatype Match = Match(agent: Agent, trigger: Trigger, matched: seq<string>, priority: int, matchCount: nat, weak: bool)

  datatype RouteResult = RouteResult(domain: string, agent: string, confidence: Confidence, reason: string,
                                     triggers: seq<string>, requiresUser: bool)

  type LowerCase = string -> string

  // ---- Terms ----

  predicate Separates(c: char) {
    c == '|' || c == ',' || c == ';' || c == '\n' || c == '\t'
  }

  /** The part of s before its first separator. */
  function PartLength(s: string): (n: nat)
    ensures n <= |s|
  {
    if s == "" || Separates(s[0]) then 0 else 1 + PartLength(s[1..])
  }

  /** The trimmed non-empty parts of a lowered pattern. */
  function Terms(s: string): seq<string>
    decreases |s|
  {
    if s == "" then []
    else
      var n := PartLength(s);
      if n == 0 then Terms(s[1..])
      else (if TrimSpace(s[..n]) == "" then [] else [TrimSpace(s[..n])]) + Terms(s[n..])
  }

  function MatchedTerms(text: string, terms: seq<string>): seq<string> {
    Filter((term: string) => Contains(text, term), terms)
  }

  predicate WeakMatch(text: string, matched: seq<string>) {
    |matched| == 1 && (Contains(text, "maybe " + matched[0]) || Contains(text, matched[0] + "?"))
  }

  function ConfidenceFor(m: Match): Confidence {
    if m.matchCount >= 2 then High else if m.weak then Low else Medium
  }

  // ---- Orders ----

  /** Go's order on strings. */
  predicate StringLess(a: string, b: string) {
    if b == "" then false
    else if a == "" then true
    else if a[0] != b[0] then a[0] < b[0]
    else StringLess(a[1..], b[1..])
  }

  lemma {:induction false} StringLessAsymmetric(a: string, b: string)
    ensures !(StringLess(a, b) && StringLess(b, a))
  {
    if a != "" && b != "" && a[0] == b[0] {
      StringLessAsymmetric(a[1..], b[1..]);
    }
  }

  lemma {:induction false} StringLessTransitive(a: string, b: string, c: string)
    requires !StringLess(a, b) && !StringLess(b, c)
    ensures !StringLess(a, c)
  {
    if a != "" && b != "" && c != "" && a[0] == b[0] == c[0] {
      StringLessTransitive(a[1..], b[1..], c[1..]);
    }
  }

  lemma {:induction false} StringLessTotal(a: string, b: string)
    requires !StringLess(a, b) && !StringLess(b, a)
    ensures a == b
  {
    if a != "" && b != "" {
      StringLessTotal(a[1..], b[1..]);
      assert a == [a[0]] + a[1..] && b == [b[0]] + b[1..];
    }
  }

  lemma {:induction false} StringOrderIsTotal()
    ensures StrictTotal(StringLess)
  {
    forall x, y ensures StringLess(x, y) ==> !StringLess(y, x) {
      StringLessAsymmetric(x, y);
    }
    forall x, y, z | !StringLess(x, y) && !StringLess(y, z) ensures !StringLess(x, z) {
      StringLessTransitive(x, y, z);
    }
    forall x, y | !StringLess(x, y) && !StringLess(y, x) ensures x == y {
      StringLessTotal(x, y);
    }
  }

  /** The comparison of findMatches. */
  predicate Ahead(a: Match, b: Match) {
    if a.matchCount != b.matchCount then a.matchCount > b.matchCount
    else if a.priority != b.priority then a.priority > b.priority
    else StringLess(a.agent.name, b.agent.name)
  }

  lemma {:induction false} AheadIsStrictWeak()
    ensures StrictWeak(Ahead)
  {
    forall x, y ensures Ahead(x, y) ==> !Ahead(y, x) {
      StringLessAsymmetric(x.agent.name, y.agent.name);
    }
    forall x, y, z | !Ahead(x, y) && !Ahead(y, z) ensures !Ahead(x, z) {
      if !StringLess(x.agent.name, y.agent.name) && !StringLess(y.agent.name, z.agent.name) {
        StringLessTransitive(x.agent.name, y.agent.name, z.agent.name);
      }
    }
  }

  // ---- Candidates ----

  /** A trigger of an agent, by the agent's key and the trigger's index. */
  datatype Pair = Pair(key: string, index: nat)

  predicate PairOf(agents: Agents, p: Pair) {
    p.key in agents && p.index < |agents[p.key].triggers|
  }

  function MatchOf(lower: LowerCase, text: string, agent: Agent, trigger: Trigger): Match {
    var matched := MatchedTerms(text, Terms(lower(trigger.pattern)));
    Match(agent, trigger, matched, trigger.priority, |matched|, WeakMatch(text, matched))
  }

  function MatchAt(lower: LowerCase, text: string, agents: Agents, p: Pair): Match
    requires PairOf(agents, p)
  {
    MatchOf(lower, text, agents[p.key], agents[p.key].triggers[p.index])
  }

  /** The pair matches the text. */
  predicate Matching(lower: LowerCase, text: string, agents: Agents, p: Pair) {
    PairOf(agents, p) && MatchAt(lower, text, agents, p).matched != []
  }

  /** Which of an agent's triggers match. */
  function Hits(lower: LowerCase, text: string, agents: Agents, key: string): nat -> bool {
    (index: nat) => Matching(lower, text, agents, Pair(key, index))
  }

  /** The matching pairs of one agent, for its first n triggers. */
  function AgentPairs(key: string, hits: nat -> bool, n: nat): (r: seq<Pair>)
    ensures forall i :: 0 <= i < |r| ==> r[i].key == key && r[i].index < n && hits(r[i].index)
  {
    if n == 0 then [] else AgentPairs(key, hits, n - 1) + if hits(n - 1) then [Pair(key, n - 1)] else []
  }

  /** The matching pairs of the named agents, agent by agent. */
  function Pairs(lower: LowerCase, text: string, agents: Agents, keys: seq<string>): (r: seq<Pair>)
    requires forall i :: 0 <= i < |keys| ==> keys[i] in agents
    ensures forall i :: 0 <= i < |r| ==> Matching(lower, text, agents, r[i]) && r[i].key in keys
    decreases |keys|
  {
    if keys == [] then []
    else
      var n := |keys| - 1;
      Pairs(lower, text, agents, keys[..n]) + AgentPairs(keys[n], Hits(lower, text, agents, keys[n]), |agents[keys[n]].triggers|)
  }

  function MatchesAt(lower: LowerCase, text: string, agents: Agents, pairs: seq<Pair>): (r: seq<Match>)
    requires forall i :: 0 <= i < |pairs| ==> PairOf(agents, pairs[i])
    ensures |r| == |pairs|
  {
    seq(|pairs|, i requires 0 <= i < |pairs| => MatchAt(lower, text, agents, pairs[i]))
  }

  predicate Distinct(keys: seq<string>) {
    forall i, j :: 0 <= i < j < |keys| ==> keys[i] != keys[j]
  }

  /** Some order in which the registry's map hands out its keys. */
  ghost predicate Enumerates(keys: seq<string>, agents: Agents) {
    Distinct(keys) && forall k :: k in keys <==> k in agents
  }

  /** The triggers of one agent stay in their order. */
  predicate InTriggerOrder(pairs: seq<Pair>) {
    forall i, j :: 0 <= i < j < |pairs| && pairs[i].key == pairs[j].key ==> pairs[i].index < pairs[j].index
  }

  lemma {:induction false} InTriggerOrderAppend(a: seq<Pair>, b: seq<Pair>)
    requires InTriggerOrder(a) && InTriggerOrder(b)
    requires forall i, j :: 0 <= i < |a| && 0 <= j < |b| && a[i].key == b[j].key ==> a[i].index < b[j].index
    ensures InTriggerOrder(a + b)
  {
    var r := a + b;
    forall i, j | 0 <= i < j < |r| && r[i].key == r[j].key ensures r[i].index < r[j].index {
      assert r[i] == if i < |a| then a[i] else b[i - |a|];
      assert r[j] == if j < |a| then a[j] else b[j - |a|];
    }
  }

  lemma {:induction false} AgentPairsInOrder(key: string, hits: nat -> bool, n: nat)
    ensures InTriggerOrder(AgentPairs(key, hits, n))
  {
    if n > 0 {
      AgentPairsInOrder(key, hits, n - 1);
      if hits(n - 1) {
        InTriggerOrderAppend(AgentPairs(key, hits, n - 1), [Pair(key, n - 1)]);
      }
    }
  }

  lemma {:induction false} AgentPairsComplete(key: string, hits: nat -> bool, n: nat, m: nat)
    requires m < n && hits(m)
    ensures Pair(key, m) in AgentPairs(key, hits, n)
  {
    if m < n - 1 {
      AgentPairsComplete(key, hits, n - 1, m);
    }
  }

  /** No matching pair is missed, and the triggers of one agent stay in their order. */
  lemma {:induction false} PairsComplete(lower: LowerCase, text: string, agents: Agents, keys: seq<string>)
    requires Distinct(keys) && forall i :: 0 <= i < |keys| ==> keys[i] in agents
    ensures InTriggerOrder(Pairs(lower, text, agents, keys))
    ensures forall p: Pair :: p.key in keys && Matching(lower, text, agents, p) ==> p in Pairs(lower, text, agents, keys)
    decreases |keys|
  {
    if keys != [] {
      var n := |keys| - 1;
      var before := Pairs(lower, text, agents, keys[..n]);
      var own := AgentPairs(keys[n], Hits(lower, text, agents, keys[n]), |agents[keys[n]].triggers|);
      PairsComplete(lower, text, agents, keys[..n]);
      AgentPairsInOrder(keys[n], Hits(lower, text, agents, keys[n]), |agents[keys[n]].triggers|);
      assert keys[n] !in keys[..n];
      InTriggerOrderAppend(before, own);
      forall p: Pair | p.key in keys && Matching(lower, text, agents, p) ensures p in before + own {
        if p.key == keys[n] {
          AgentPairsComplete(keys[n], Hits(lower, text, agents, keys[n]), |agents[keys[n]].triggers|, p.index);
        } else {
          assert p.key in keys[..n];
        }
      }
    }
  }

  // ---- findMatches and Route ----

  /** The ranked matches: the specification of findMatches. */
  function Ranked(lower: LowerCase, text: string, agents: Agents, keys: seq<string>): seq<Match>
    requires forall i :: 0 <= i < |keys| ==> keys[i] in agents
  {
    Sort(Ahead, MatchesAt(lower, text, agents, Pairs(lower, text, agents, keys)))
  }

  lemma {:induction false} MatchesAppend(lower: LowerCase, text: string, agents: Agents, a: seq<Pair>, b: seq<Pair>)
    requires forall i :: 0 <= i < |a| ==> PairOf(agents, a[i])
    requires forall i :: 0 <= i < |b| ==> PairOf(agents, b[i])
    ensures MatchesAt(lower, text, agents, a + b) == MatchesAt(lower, text, agents, a) + MatchesAt(lower, text, agents, b)
  {
  }

  lemma {:induction false} HitMatches(lower: LowerCase, text: string, agents: Agents, key: string, j: nat)
    requires key in agents && j < |agents[key].triggers|
    ensures var m := MatchOf(lower, text, agents[key], agents[key].triggers[j]);
            && (Hits(lower, text, agents, key)(j) <==> m.matched != [])
            && MatchesAt(lower, text, agents, [Pair(key, j)]) == [m]
  {
  }

  /** The inner loop of findMatches: one agent's triggers in their order. */
  method AgentMatches(lower: LowerCase, text: string, agents: Agents, key: string) returns (r: seq<Match>)
    requires key in agents
    ensures var pairs := AgentPairs(key, Hits(lower, text, agents, key), |agents[key].triggers|);
            (forall i :: 0 <= i < |pairs| ==> PairOf(agents, pairs[i])) && r == MatchesAt(lower, text, agents, pairs)
  {
    var agent := agents[key];
    ghost var hits := Hits(lower, text, agents, key);
    ghost var pairs := [];
    r := [];
    for j := 0 to |agent.triggers|
      invariant pairs == AgentPairs(key, hits, j)
      invariant forall i :: 0 <= i < |pairs| ==> PairOf(agents, pairs[i])
      invariant r == MatchesAt(lower, text, agents, pairs)
    {
      var m := MatchOf(lower, text, agent, agent.triggers[j]);
      HitMatches(lower, text, agents, key, j);
      if m.matched != [] {
        MatchesAppend(lower, text, agents, pairs, [Pair(key, j)]);
        pairs := pairs + [Pair(key, j)];
        r := r + [m];
      }
    }
  }

  method FindMatches(lower: LowerCase, text: string, agents: Agents, keys: seq<string>) returns (matches: seq<Match>)
    requires forall i :: 0 <= i < |keys| ==> keys[i] in agents
    ensures matches == Ranked(lower, text, agents, keys)
  {
    matches := [];
    for i := 0 to |keys|
      invariant matches == MatchesAt(lower, text, agents, Pairs(lower, text, agents, keys[..i]))
    {
      assert keys[..i + 1][..i] == keys[..i];
      var own := AgentMatches(lower, text, agents, keys[i]);
      MatchesAppend(lower, text, agents, Pairs(lower, text, agents, keys[..i]),
                    AgentPairs(keys[i], Hits(lower, text, agents, keys[i]), |agents[keys[i]].triggers|));
      matches := matches + own;
    }
    assert keys[..|keys|] == keys;
    matches := Sort(Ahead, matches);
  }

  function ResultFor(m: Match): RouteResult {
    RouteResult(m.trigger.domain, m.agent.name, ConfidenceFor(m), "matched registry trigger for agent " + m.agent.name,
                m.matched, m.agent.autonomy == "cautious" && ConfidenceFor(m) == Low)
  }

  const NoMatch := RouteResult("", "", Low, "no trigger match", [], false)

  function ResultOf(matches: seq<Match>): RouteResult {
    if matches == [] then NoMatch else ResultFor(matches[0])
  }

  lemma {:induction false} SortedKeysAreKeys(agents: Agents, keys: seq<string>)
    requires forall i :: 0 <= i < |keys| ==> keys[i] in agents
    ensures forall i :: 0 <= i < |Sort(StringLess, keys)| ==> Sort(StringLess, keys)[i] in agents
  {
    SortMembers(StringLess, keys);
    forall i | 0 <= i < |Sort(StringLess, keys)| ensures Sort(StringLess, keys)[i] in agents {
      assert Sort(StringLess, keys)[i] in keys;
    }
  }

  /** `keys` is the order in which the map happened to hand out its keys. */
  method Route(lower: LowerCase, input: string, agents: Agents, keys: seq<string>) returns (r: RouteResult)
    requires Enumerates(keys, agents)
    ensures SortedKeys(agents, keys) && r == ResultOf(Ranked(lower, lower(input), agents, Sort(StringLess, keys)))
    ensures KeysAreNames(agents) ==> Optimal(lower, lower(input), agents, r)
  {
    if KeysAreNames(agents) {
      RankingIsOptimal(lower, lower(input), agents, keys);
    }
    var text := lower(input);
    SortedKeysAreKeys(agents, keys);
    var matches := FindMatches(lower, text, agents, Sort(StringLess, keys));
    if |matches| == 0 {
      return NoMatch;
    }
    var best := matches[0];
    r := RouteResult(best.trigger.domain, best.agent.name, ConfidenceFor(best),
                     "matched registry trigger for agent " + best.agent.name, best.matched, false);
    if best.agent.autonomy == "cautious" && ConfidenceFor(best) == Low {
      r := r.(requiresUser := true);
    }
  }

  predicate SortedKeys(agents: Agents, keys: seq<string>) {
    forall i :: 0 <= i < |Sort(StringLess, keys)| ==> Sort(StringLess, keys)[i] in agents
  }

  // ---- Optimality ----

  predicate KeysAreNames(agents: Agents) {
    forall k :: k in agents ==> agents[k].name == k
  }

  /** p beats q: more matched terms, then higher priority, then the smaller name, then the earlier trigger. */
  predicate Beats(lower: LowerCase, text: string, agents: Agents, p: Pair, q: Pair)
    requires PairOf(agents, p) && PairOf(agents, q)
  {
    var a, b := MatchAt(lower, text, agents, p), MatchAt(lower, text, agents, q);
    || a.matchCount > b.matchCount
    || (a.matchCount == b.matchCount && a.priority > b.priority)
    || (a.matchCount == b.matchCount && a.priority == b.priority && StringLess(p.key, q.key))
    || (a.matchCount == b.matchCount && a.priority == b.priority && p.key == q.key && p.index < q.index)
  }

  /** p matches and beats every other matching pair of the registry. */
  ghost predicate Best(lower: LowerCase, text: string, agents: Agents, p: Pair) {
    && Matching(lower, text, agents, p)
    && forall q :: Matching(lower, text, agents, q) ==> q == p || Beats(lower, text, agents, p, q)
  }

  /** Nothing comes ahead of pair number k, and it comes ahead of all before it. */
  ghost predicate HeadAt(lower: LowerCase, text: string, agents: Agents, pairs: seq<Pair>, k: nat)
    requires k < |pairs| && forall i :: 0 <= i < |pairs| ==> PairOf(agents, pairs[i])
  {
    forall j :: 0 <= j < |pairs| ==>
      && !Ahead(MatchAt(lower, text, agents, pairs[j]), MatchAt(lower, text, agents, pairs[k]))
      && (j < k ==> Ahead(MatchAt(lower, text, agents, pairs[k]), MatchAt(lower, text, agents, pairs[j])))
  }

  /** The head of the ranking belongs to a pair that nothing comes ahead of, the first such one. */
  lemma {:induction false} RankedHead(lower: LowerCase, text: string, agents: Agents, pairs: seq<Pair>) returns (k: nat)
    requires pairs != [] && forall i :: 0 <= i < |pairs| ==> PairOf(agents, pairs[i])
    ensures k < |pairs|
    ensures var r := Sort(Ahead, MatchesAt(lower, text, agents, pairs)); r != [] && r[0] == MatchAt(lower, text, agents, pairs[k])
    ensures HeadAt(lower, text, agents, pairs, k)
  {
    var ms := MatchesAt(lower, text, agents, pairs);
    AheadIsStrictWeak();
    k := SortHeadIsFirst(Ahead, ms);
    forall j | 0 <= j < |pairs|
      ensures !Ahead(MatchAt(lower, text, agents, pairs[j]), MatchAt(lower, text, agents, pairs[k]))
      ensures j < k ==> Ahead(MatchAt(lower, text, agents, pairs[k]), MatchAt(lower, text, agents, pairs[j]))
    {
      assert !Ahead(ms[j], ms[k]);
    }
  }

  lemma {:induction false} BestAmong(lower: LowerCase, text: string, agents: Agents, pairs: seq<Pair>, k: nat)
    requires k < |pairs| && KeysAreNames(agents)
    requires forall i :: 0 <= i < |pairs| ==> PairOf(agents, pairs[i])
    requires Matching(lower, text, agents, pairs[k])
    requires forall q :: Matching(lower, text, agents, q) ==> q in pairs
    requires InTriggerOrder(pairs) && HeadAt(lower, text, agents, pairs, k)
    ensures Best(lower, text, agents, pairs[k])
  {
    forall q | Matching(lower, text, agents, q) ensures q == pairs[k] || Beats(lower, text, agents, pairs[k], q) {
      var j :| 0 <= j < |pairs| && pairs[j] == q;
      FirstOrBeats(lower, text, agents, pairs, k, j);
    }
  }

  /** The first ranked match belongs to the best pair; there is none exactly when nothing matches. */
  lemma {:induction false} RouteOptimal(lower: LowerCase, text: string, agents: Agents, keys: seq<string>) returns (p: Option<Pair>)
    requires KeysAreNames(agents) && Enumerates(keys, agents)
    ensures p.None? <==> Ranked(lower, text, agents, keys) == []
    ensures p.None? ==> forall q :: !Matching(lower, text, agents, q)
    ensures p.Some? ==> Best(lower, text, agents, p.value) && Ranked(lower, text, agents, keys) != []
                        && Ranked(lower, text, agents, keys)[0] == MatchAt(lower, text, agents, p.value)
  {
    var pairs := Pairs(lower, text, agents, keys);
    PairsComplete(lower, text, agents, keys);
    if pairs == [] {
      p := None;
    } else {
      var k := RankedHead(lower, text, agents, pairs);
      forall q | Matching(lower, text, agents, q) ensures q in pairs {
        assert q.key in keys;
      }
      BestAmong(lower, text, agents, pairs, k);
      p := Some(pairs[k]);
    }
  }

  lemma {:induction false} FirstOrBeats(lower: LowerCase, text: string, agents: Agents, pairs: seq<Pair>, k: nat, j: nat)
    requires k < |pairs| && j < |pairs| && KeysAreNames(agents)
    requires PairOf(agents, pairs[k]) && PairOf(agents, pairs[j])
    requires pairs[k].key == pairs[j].key && k < j ==> pairs[k].index < pairs[j].index
    requires !Ahead(MatchAt(lower, text, agents, pairs[j]), MatchAt(lower, text, agents, pairs[k]))
    requires j < k ==> Ahead(MatchAt(lower, text, agents, pairs[k]), MatchAt(lower, text, agents, pairs[j]))
    ensures j == k || Beats(lower, text, agents, pairs[k], pairs[j])
  {
    var p, q := pairs[k], pairs[j];
    if !StringLess(p.key, q.key) && !StringLess(q.key, p.key) {
      StringLessTotal(p.key, q.key);
    }
  }

  /** The result is that of the best pair, and reports no match only if nothing matches. */
  ghost predicate Optimal(lower: LowerCase, text: string, agents: Agents, r: RouteResult) {
    && (forall p :: Best(lower, text, agents, p) ==> r == ResultFor(MatchAt(lower, text, agents, p)))
    && ((exists p :: Best(lower, text, agents, p)) || (r == NoMatch && forall q :: !Matching(lower, text, agents, q)))
  }

  lemma {:induction false} RankingIsOptimal(lower: LowerCase, text: string, agents: Agents, keys: seq<string>)
    requires KeysAreNames(agents) && Enumerates(keys, agents)
    ensures SortedKeys(agents, keys) && Optimal(lower, text, agents, ResultOf(Ranked(lower, text, agents, Sort(StringLess, keys))))
  {
    SortedKeysAreKeys(agents, keys);
    SortedEnumerates(agents, keys);
    var best := RouteOptimal(lower, text, agents, Sort(StringLess, keys));
    forall p | Best(lower, text, agents, p) ensures best == Some(p) {
      if best.Some? {
        BestIsUnique(lower, text, agents, p, best.value);
      }
    }
  }

  lemma {:induction false} SortedEnumerates(agents: Agents, keys: seq<string>)
    requires Enumerates(keys, agents)
    ensures Enumerates(Sort(StringLess, keys), agents)
  {
    var sorted := Sort(StringLess, keys);
    SortMembers(StringLess, keys);
    forall i, j | 0 <= i < j < |sorted| ensures sorted[i] != sorted[j] {
      DistinctCount(keys, sorted[i]);
      if sorted[i] == sorted[j] {
        RepeatedCount(sorted, i, j);
      }
    }
  }

  lemma {:induction false} RepeatedCount(xs: seq<string>, i: nat, j: nat)
    requires i < j < |xs| && xs[i] == xs[j]
    ensures multiset(xs)[xs[i]] >= 2
  {
    assert xs == xs[..j] + xs[j..];
    assert xs[..j][i] == xs[i] && xs[j..][0] == xs[j];
    assert xs[i] in multiset(xs[..j]) && xs[j] in multiset(xs[j..]);
  }

  /** At most one pair can be best, so optimality alone fixes the chosen pair. */
  lemma {:induction false} BestIsUnique(lower: LowerCase, text: string, agents: Agents, p: Pair, q: Pair)
    requires Best(lower, text, agents, p) && Best(lower, text, agents, q)
    ensures p == q
  {
    StringLessAsymmetric(p.key, q.key);
  }

  lemma {:induction false} EnumerationsAgree(agents: Agents, xs: seq<string>, ys: seq<string>)
    requires Enumerates(xs, agents) && Enumerates(ys, agents)
    ensures multiset(xs) == multiset(ys)
  {
    forall k ensures multiset(xs)[k] == multiset(ys)[k] {
      DistinctCount(xs, k);
      DistinctCount(ys, k);
      assert k in xs <==> k in ys;
    }
  }

  lemma {:induction false} DistinctCount(xs: seq<string>, k: string)
    requires Distinct(xs)
    ensures multiset(xs)[k] == if k in xs then 1 else 0
  {
    if xs != [] {
      DistinctCount(xs[1..], k);
      assert xs == [xs[0]] + xs[1..];
      assert xs[0] !in xs[1..];
    }
  }

  /** Whatever order the map hands out its keys in, Route gives the same result, for any registry. */
  lemma {:induction false} EnumerationIrrelevant(lower: LowerCase, text: string, agents: Agents, xs: seq<string>, ys: seq<string>)
    requires Enumerates(xs, agents) && Enumerates(ys, agents)
    ensures SortedKeys(agents, xs) && SortedKeys(agents, ys)
    ensures ResultOf(Ranked(lower, text, agents, Sort(StringLess, xs))) == ResultOf(Ranked(lower, text, agents, Sort(StringLess, ys)))
  {
    EnumerationsAgree(agents, xs, ys);
    SortedKeysAreKeys(agents, xs);
    StringOrderIsTotal();
    SortOrderIrrelevant(StringLess, xs, ys);
  }

  // ---- The rules in plain terms ----

  /** No separator splits the text. */
  predicate Whole(s: string) {
    forall i :: 0 <= i < |s| ==> s[i] != '|' && s[i] != ',' && s[i] != ';' && s[i] != '\n' && s[i] != '\t'
  }

  lemma {:induction false} WholePart(s: string)
    requires Whole(s)
    ensures PartLength(s) == |s|
  {
    if s != "" {
      WholePart(s[1..]);
    }
  }

  lemma {:induction false} PartBefore(s: string, c: char, rest: string)
    requires Whole(s) && c in "|,;\n\t"
    ensures PartLength(s + [c] + rest) == |s|
  {
    if s != "" {
      PartBefore(s[1..], c, rest);
      assert (s + [c] + rest)[1..] == s[1..] + [c] + rest;
    }
  }

  /** The terms of a pattern are its parts between separators, trimmed, without the blank ones: a part
      without separators is one term or none, and a separator ends a part. */
  lemma {:induction false} TermsOfPart(s: string)
    requires Whole(s)
    ensures Terms(s) == if TrimSpace(s) == "" then [] else [TrimSpace(s)]
  {
    WholePart(s);
    if s != "" {
      assert s[..|s|] == s && s[|s|..] == "";
    }
  }

  lemma {:induction false} TermsAfterSeparator(c: char, rest: string)
    requires c in "|,;\n\t"
    ensures Terms([c] + rest) == Terms(rest)
  {
    assert ([c] + rest)[1..] == rest;
    assert PartLength([c] + rest) == 0;
  }

  lemma {:induction false} TermsSplit(s: string, n: nat)
    requires s != "" && n == PartLength(s) && n > 0
    ensures Terms(s) == (if TrimSpace(s[..n]) == "" then [] else [TrimSpace(s[..n])]) + Terms(s[n..])
  {
  }

  lemma {:induction false} TermsAcrossSeparator(s: string, c: char, rest: string)
    requires Whole(s) && c in "|,;\n\t"
    ensures Terms(s + [c] + rest) == Terms(s) + Terms(rest)
  {
    var all := s + [c] + rest;
    TermsOfPart(s);
    TermsAfterSeparator(c, rest);
    if s == "" {
      assert all == [c] + rest;
    } else {
      PartBefore(s, c, rest);
      TermsSplit(all, |s|);
      assert all[..|s|] == s && all[|s|..] == [c] + rest;
    }
  }

  /** The matched terms are those that occur in the text, in their order. */
  lemma {:induction false} MatchedIff(text: string, terms: seq<string>, term: string)
    ensures term in MatchedTerms(text, terms) <==> term in terms && exists i :: 0 <= i <= |text| && term <= text[i..]
  {
    FilterMembers((x: string) => Contains(text, x), terms, term);
    ContainsIff(text, term);
  }

  /** How sure a match is: two terms make it high; a single one is low if hedged, else medium. */
  lemma {:induction false} ConfidenceRules(lower: LowerCase, text: string, agent: Agent, trigger: Trigger)
    ensures var m := MatchOf(lower, text, agent, trigger);
            && m.matched == MatchedTerms(text, Terms(lower(trigger.pattern))) && m.matchCount == |m.matched|
            && m.agent == agent && m.trigger == trigger && m.priority == trigger.priority
            && (|m.matched| >= 2 ==> ConfidenceFor(m) == High && !m.weak)
            && (|m.matched| == 1 && (Contains(text, "maybe " + m.matched[0]) || Contains(text, m.matched[0] + "?")) ==> ConfidenceFor(m) == Low)
            && (|m.matched| == 1 && !Contains(text, "maybe " + m.matched[0]) && !Contains(text, m.matched[0] + "?") ==> ConfidenceFor(m) == Medium)
  {
  }

  /** What the result takes from its match; the user is asked exactly for an unsure match of a cautious agent. */
  lemma {:induction false} ResultRules(m: Match)
    ensures var r := ResultFor(m);
            && r.domain == m.trigger.domain && r.agent == m.agent.name && r.triggers == m.matched && r.confidence == ConfidenceFor(m)
            && (r.requiresUser <==> m.agent.autonomy == "cautious" && ConfidenceFor(m) == Low)
    ensures NoMatch.confidence == Low && NoMatch.agent == "" && NoMatch.triggers == [] && !NoMatch.requiresUser
  {
  }

  /** The order on names: a proper prefix comes first, else the first difference decides. */
  lemma {:induction false} PrefixComesFirst(p: string, x: string)
    requires x != ""
    ensures StringLess(p, p + x)
  {
    if p != "" {
      PrefixComesFirst(p[1..], x);
      assert (p + x)[1..] == p[1..] + x;
    }
  }

  lemma {:induction false} FirstDifferenceDecides(p: string, x: string, y: string)
    requires x != "" && y != "" && x[0] < y[0]
    ensures StringLess(p + x, p + y)
  {
    if p == "" {
      assert p + x == x && p + y == y;
    } else {
      FirstDifferenceDecides(p[1..], x, y);
      assert (p + x)[1..] == p[1..] + x && (p + y)[1..] == p[1..] + y;
    }
  }
}
