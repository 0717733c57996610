/** The prompt budget allocator of internal/prompt/prompt.go: greedy omission of optional
    sections followed by assembly of the text. */
module Prompt {
  import opened Wrappers
  import opened Text
  import opened StableSort

  datatype Section = Section(name: string, source: string, content: string, required: bool, priority: int)

  datatype PromptSection = PromptSection(name: string, source: string, tokens: nat, required: bool, priority: int)

  datatype Selection =
    | Selected(sections: seq<Section>, omitted: seq<PromptSection>, omittedNames: seq<string>)
    | OverBudget(requiredTokens: nat)

  datatype Output =
    | Built(systemPrompt: string, sections: seq<PromptSection>, omitted: seq<PromptSection>,
            omittedNames: seq<string>, tokenEstimate: nat)
    | Rejected(requiredTokens: nat)

  function EstimateTokens(content: string): nat {
    |Fields(content)|
  }

  function MetadataFor(s: Section): PromptSection {
    PromptSection(s.name, s.source, EstimateTokens(s.content), s.required, s.priority)
  }

  function TotalTokens(ss: seq<Section>): nat {
    if ss == [] then 0 else TotalTokens(ss[..|ss| - 1]) + EstimateTokens(ss[|ss| - 1].content)
  }

  function RequiredTokens(ss: seq<Section>): nat {
    if ss == [] then 0
    else
      var last := ss[|ss| - 1];
      RequiredTokens(ss[..|ss| - 1]) + if last.required then EstimateTokens(last.content) else 0
  }

  // ---- The reference definition: which sections a budget leaves out ----

  /** An optional section is identified by its priority and its original position. */
  type Candidate = (int, nat)

  predicate Sooner(a: Candidate, b: Candidate) {
    a.0 < b.0 || (a.0 == b.0 && a.1 < b.1)
  }

  function Candidates(ss: seq<Section>): (cs: seq<Candidate>) {
    if ss == [] then []
    else
      var n := |ss| - 1;
      Candidates(ss[..n]) + if ss[n].required then [] else [(ss[n].priority, n)]
  }

  /** Positions of the optional sections in the order the allocator gives them up. */
  function OmissionOrder(ss: seq<Section>): seq<Candidate> {
    Sort(Sooner, Candidates(ss))
  }

  predicate Dropped(order: seq<Candidate>, k: nat, i: nat)
    requires k <= |order|
  {
    exists j :: 0 <= j < k && order[j].1 == i
  }

  /** The positions below `n` that survive the first `k` omissions, in original order. */
  function KeptPositions(order: seq<Candidate>, k: nat, n: nat): (ps: seq<nat>)
    requires k <= |order|
  {
    if n == 0 then []
    else KeptPositions(order, k, n - 1) + if Dropped(order, k, n - 1) then [] else [n - 1]
  }

  function At(ss: seq<Section>, ps: seq<nat>): (r: seq<Section>)
    requires forall i :: 0 <= i < |ps| ==> ps[i] < |ss|
    ensures |r| == |ps|
  {
    seq(|ps|, i requires 0 <= i < |ps| => ss[ps[i]])
  }

  lemma {:induction false} KeptPositionsShape(order: seq<Candidate>, k: nat, n: nat)
    requires k <= |order|
    ensures forall p: nat :: p in KeptPositions(order, k, n) <==> p < n && !Dropped(order, k, p)
    ensures forall i, j :: 0 <= i < j < |KeptPositions(order, k, n)|
              ==> KeptPositions(order, k, n)[i] < KeptPositions(order, k, n)[j]
  {
    if n > 0 {
      KeptPositionsShape(order, k, n - 1);
      var ps := KeptPositions(order, k, n - 1);
      forall i | 0 <= i < |ps| ensures ps[i] < n - 1 {
        assert ps[i] in ps;
      }
    }
  }

  lemma {:induction false} KeptBelow(order: seq<Candidate>, k: nat, n: nat)
    requires k <= |order|
    ensures forall i :: 0 <= i < |KeptPositions(order, k, n)| ==> KeptPositions(order, k, n)[i] < n
  {
    if n > 0 {
      KeptBelow(order, k, n - 1);
    }
  }

  /** The sections left after the first `k` omissions, in original order. */
  function KeptSections(ss: seq<Section>, k: nat): seq<Section>
    requires k <= |OmissionOrder(ss)|
  {
    KeptBelow(OmissionOrder(ss), k, |ss|);
    At(ss, KeptPositions(OmissionOrder(ss), k, |ss|))
  }

  /** The total that is left after each possible number of omissions. */
  function KeptTotals(ss: seq<Section>): (r: seq<nat>)
    ensures |r| == |OmissionOrder(ss)| + 1
  {
    seq(|OmissionOrder(ss)| + 1, k requires 0 <= k <= |OmissionOrder(ss)| => TotalTokens(KeptSections(ss, k)))
  }

  /** The first index, counted from `k`, at which the total is within `max`; the last if none is. */
  function FirstWithin(totals: seq<nat>, max: int, k: nat): (r: nat)
    requires k < |totals|
    ensures k <= r < |totals|
    decreases |totals| - k
  {
    if k == |totals| - 1 || totals[k] <= max then k else FirstWithin(totals, max, k + 1)
  }

  lemma {:induction false} FirstWithinIsLeast(totals: seq<nat>, max: int, k: nat)
    requires k < |totals|
    ensures forall j :: k <= j < FirstWithin(totals, max, k) ==> totals[j] > max
    ensures FirstWithin(totals, max, k) < |totals| - 1 ==> totals[FirstWithin(totals, max, k)] <= max
    decreases |totals| - k
  {
    if !(k == |totals| - 1 || totals[k] <= max) {
      FirstWithinIsLeast(totals, max, k + 1);
    }
  }

  /** The length of the shortest prefix of the omission order that brings the total within `max`. */
  function OmissionCount(ss: seq<Section>, max: int): (r: nat)
    ensures r <= |OmissionOrder(ss)|
  {
    FirstWithin(KeptTotals(ss), max, 0)
  }

  /** Stopping any earlier leaves the prompt over budget. */
  lemma {:induction false} OmissionCountIsLeast(ss: seq<Section>, max: int, j: nat)
    requires j < OmissionCount(ss, max)
    ensures TotalTokens(KeptSections(ss, j)) > max
  {
    FirstWithinIsLeast(KeptTotals(ss), max, 0);
    assert KeptTotals(ss)[j] > max;
  }

  lemma {:induction false} CandidatesShape(ss: seq<Section>)
    ensures forall c :: c in Candidates(ss)
              <==> c.1 < |ss| && !ss[c.1].required && c.0 == ss[c.1].priority
    ensures forall i, j :: 0 <= i < j < |Candidates(ss)| ==> Candidates(ss)[i].1 < Candidates(ss)[j].1
  {
    if ss != [] {
      var n := |ss| - 1;
      var front := Candidates(ss[..n]);
      CandidatesShape(ss[..n]);
      forall i | 0 <= i < |front| ensures front[i].1 < n {
        assert front[i] in front;
      }
      forall c: Candidate
        ensures c in Candidates(ss) <==> c.1 < |ss| && !ss[c.1].required && c.0 == ss[c.1].priority
      {
        assert c.1 < n ==> ss[..n][c.1] == ss[c.1];
      }
    }
  }

  lemma {:induction false} SoonerIsTotalOrder()
    ensures StrictTotal(Sooner)
  {
  }

  /** The omission order lists every optional position once, by priority and then position. */
  lemma {:induction false} OmissionOrderShape(ss: seq<Section>)
    ensures forall c :: c in OmissionOrder(ss)
              <==> c.1 < |ss| && !ss[c.1].required && c.0 == ss[c.1].priority
    ensures forall i, j :: 0 <= i < j < |OmissionOrder(ss)| ==> Sooner(OmissionOrder(ss)[i], OmissionOrder(ss)[j])
  {
    CandidatesShape(ss);
    SoonerIsTotalOrder();
    SortMembers(Sooner, Candidates(ss));
    SortSorted(Sooner, Candidates(ss));
    NoDuplicates(Candidates(ss));
    DistinctByMultiplicity(OmissionOrder(ss));
  }

  lemma {:induction false} NoDuplicates(cs: seq<Candidate>)
    requires forall i, j :: 0 <= i < j < |cs| ==> cs[i].1 < cs[j].1
    ensures forall c :: multiset(cs)[c] <= 1
  {
    if cs != [] {
      var n := |cs| - 1;
      assert cs == cs[..n] + [cs[n]];
      NoDuplicates(cs[..n]);
      assert cs[n] !in cs[..n];
    }
  }

  lemma {:induction false} DistinctByMultiplicity<T(!new)>(s: seq<T>)
    requires forall x :: multiset(s)[x] <= 1
    ensures forall i, j :: 0 <= i < j < |s| ==> s[i] != s[j]
  {
    forall i, j | 0 <= i < j < |s| ensures s[i] != s[j] {
      assert s == s[..i] + [s[i]] + s[i + 1..j] + [s[j]] + s[j + 1..];
      assert multiset(s)[s[i]] <= 1;
    }
  }

  /** Positions in the omission order are optional and pairwise distinct. */
  lemma {:induction false} OmissionPositions(ss: seq<Section>)
    ensures forall j :: 0 <= j < |OmissionOrder(ss)|
              ==> OmissionOrder(ss)[j].1 < |ss| && !ss[OmissionOrder(ss)[j].1].required
    ensures forall i, j :: 0 <= i < j < |OmissionOrder(ss)| ==> OmissionOrder(ss)[i].1 != OmissionOrder(ss)[j].1
  {
    var order := OmissionOrder(ss);
    OmissionOrderShape(ss);
    forall j | 0 <= j < |order| ensures order[j].1 < |ss| && !ss[order[j].1].required && order[j].0 == ss[order[j].1].priority {
      assert order[j] in order;
    }
  }

  lemma {:induction false} OmissionPosition(ss: seq<Section>, j: nat)
    requires j < |OmissionOrder(ss)|
    ensures OmissionOrder(ss)[j].1 < |ss| && !ss[OmissionOrder(ss)[j].1].required
  {
    OmissionPositions(ss);
  }

  /** The next section to give up is still among the kept ones. */
  lemma {:induction false} NextStillKept(ss: seq<Section>, k: nat) returns (at: nat)
    requires k < |OmissionOrder(ss)|
    ensures var ps := KeptPositions(OmissionOrder(ss), k, |ss|);
            at < |ps| && ps[at] == OmissionOrder(ss)[k].1
  {
    var ps := KeptPositions(OmissionOrder(ss), k, |ss|);
    OmissionPositions(ss);
    KeptPositionsShape(OmissionOrder(ss), k, |ss|);
    assert OmissionOrder(ss)[k].1 in ps;
    at :| 0 <= at < |ps| && ps[at] == OmissionOrder(ss)[k].1;
  }

  // ---- The imperative allocator, proved against it ----

  /** `idx` is the optional section of lowest priority, the earliest one on a tie. */
  predicate LowestOptional(ss: seq<Section>, idx: nat) {
    && idx < |ss| && !ss[idx].required
    && forall i :: 0 <= i < |ss| && !ss[i].required ==>
         ss[idx].priority <= ss[i].priority && (ss[idx].priority == ss[i].priority ==> idx <= i)
  }

  /** The first loop of lowestPriorityOptionalIndex. */
  method CollectCandidates(ss: seq<Section>) returns (candidates: seq<Candidate>)
    ensures candidates == Candidates(ss)
  {
    candidates := [];
    for i := 0 to |ss|
      invariant candidates == Candidates(ss[..i])
    {
      assert ss[..i + 1][..i] == ss[..i];
      if !ss[i].required {
        candidates := candidates + [(ss[i].priority, i)];
      }
    }
    assert ss[..|ss|] == ss;
  }

  method LowestPriorityOptionalIndex(ss: seq<Section>) returns (idx: int)
    ensures idx == -1 || (idx >= 0 && LowestOptional(ss, idx))
    ensures idx == -1 <==> forall i :: 0 <= i < |ss| ==> ss[i].required
  {
    var candidates := CollectCandidates(ss);
    if |candidates| == 0 {
      NoCandidates(ss);
      return -1;
    }
    LowestCandidate(ss);
    var sorted := Sort(Sooner, candidates);
    idx := sorted[0].1;
  }

  lemma {:induction false} NoCandidates(ss: seq<Section>)
    requires Candidates(ss) == []
    ensures forall i :: 0 <= i < |ss| ==> ss[i].required
  {
    CandidatesShape(ss);
    forall i | 0 <= i < |ss| ensures ss[i].required {
      assert (ss[i].priority, i) !in Candidates(ss);
    }
  }

  lemma {:induction false} NotSooner(a: Candidate, b: Candidate)
    ensures !Sooner(b, a) <==> a.0 < b.0 || (a.0 == b.0 && a.1 <= b.1)
  {
  }

  lemma {:induction false} LowestCandidate(ss: seq<Section>)
    requires Candidates(ss) != []
    ensures |OmissionOrder(ss)| > 0 && LowestOptional(ss, OmissionOrder(ss)[0].1)
  {
    SoonerIsTotalOrder();
    SortHead(Sooner, Candidates(ss));
    CandidatesShape(ss);
    var c := OmissionOrder(ss)[0];
    forall i | 0 <= i < |ss| && !ss[i].required
      ensures ss[c.1].priority <= ss[i].priority && (ss[c.1].priority == ss[i].priority ==> c.1 <= i)
    {
      NotSooner(c, (ss[i].priority, i));
    }
  }

  lemma {:induction false} WithoutLast<T>(xs: seq<T>, i: nat)
    requires i + 1 < |xs|
    ensures var n := |xs| - 1;
            var r := xs[..i] + xs[i + 1..];
            r[..n - 1] == xs[..n][..i] + xs[..n][i + 1..] && r[n - 1] == xs[n]
  {
  }

  lemma {:induction false} RequiredTokensWithout(ss: seq<Section>, idx: nat)
    requires idx < |ss| && !ss[idx].required
    ensures RequiredTokens(ss) == RequiredTokens(ss[..idx] + ss[idx + 1..])
  {
    var n := |ss| - 1;
    if idx == n {
      assert ss[..idx] + ss[idx + 1..] == ss[..n];
    } else {
      RequiredTokensWithout(ss[..n], idx);
      WithoutLast(ss, idx);
    }
  }

  lemma {:induction false} AllRequiredTokens(ss: seq<Section>)
    requires forall i :: 0 <= i < |ss| ==> ss[i].required
    ensures TotalTokens(ss) == RequiredTokens(ss)
  {
    if ss != [] {
      AllRequiredTokens(ss[..|ss| - 1]);
    }
  }

  lemma {:induction false} KeptAllAtFirst(order: seq<Candidate>, n: nat)
    ensures KeptPositions(order, 0, n) == seq(n, i => i)
  {
    if n > 0 {
      KeptAllAtFirst(order, n - 1);
    }
  }

  lemma {:induction false} KeptAfterOmission(order: seq<Candidate>, k: nat, n: nat, at: nat)
    requires k < |order|
    requires at < |KeptPositions(order, k, n)| && KeptPositions(order, k, n)[at] == order[k].1
    ensures var ps := KeptPositions(order, k, n);
            KeptPositions(order, k + 1, n) == ps[..at] + ps[at + 1..]
  {
    var ps := KeptPositions(order, k, n);
    var front := KeptPositions(order, k, n - 1);
    KeptBelow(order, k, n);
    KeptBelow(order, k, n - 1);
    if order[k].1 == n - 1 {
      KeptUnaffected(order, k, n - 1);
      assert Dropped(order, k + 1, n - 1);
      assert ps[..at] == front && ps[at + 1..] == [];
    } else {
      assert Dropped(order, k + 1, n - 1) <==> Dropped(order, k, n - 1);
      KeptAfterOmission(order, k, n - 1, at);
      assert ps[..at] == front[..at];
      assert ps[at + 1..] == front[at + 1..] + ps[|front|..];
    }
  }

  lemma {:induction false} KeptUnaffected(order: seq<Candidate>, k: nat, n: nat)
    requires k < |order| && order[k].1 >= n
    ensures KeptPositions(order, k + 1, n) == KeptPositions(order, k, n)
  {
    if n > 0 {
      KeptUnaffected(order, k, n - 1);
      assert Dropped(order, k + 1, n - 1) <==> Dropped(order, k, n - 1);
    }
  }

  lemma {:induction false} NotLaterIsNext(order: seq<Candidate>, k: nat, m: nat)
    requires forall i, j :: 0 <= i < j < |order| ==> Sooner(order[i], order[j])
    requires k <= m < |order| && !Sooner(order[k], order[m])
    ensures m == k
  {
  }

  lemma {:induction false} CandidateOf(ss: seq<Section>, k: nat, i: nat) returns (m: nat)
    requires k <= |OmissionOrder(ss)|
    requires var ps := KeptPositions(OmissionOrder(ss), k, |ss|);
             i < |ps| && ps[i] < |ss| && !ss[ps[i]].required
    ensures var p := KeptPositions(OmissionOrder(ss), k, |ss|)[i];
            k <= m < |OmissionOrder(ss)| && OmissionOrder(ss)[m] == (ss[p].priority, p)
  {
    var order := OmissionOrder(ss);
    var ps := KeptPositions(order, k, |ss|);
    OmissionOrderShape(ss);
    KeptPositionsShape(order, k, |ss|);
    assert ps[i] in ps;
    assert (ss[ps[i]].priority, ps[i]) in order;
    m :| 0 <= m < |order| && order[m] == (ss[ps[i]].priority, ps[i]);
  }

  /** The section the greedy step picks is the next one of the omission order. */
  lemma {:induction false} GreedyPicksNext(ss: seq<Section>, k: nat, idx: nat)
    requires k <= |OmissionOrder(ss)| && LowestOptional(KeptSections(ss, k), idx)
    ensures k < |OmissionOrder(ss)|
    ensures KeptPositions(OmissionOrder(ss), k, |ss|)[idx] == OmissionOrder(ss)[k].1
  {
    var order := OmissionOrder(ss);
    var ps := KeptPositions(order, k, |ss|);
    KeptBelow(order, k, |ss|);
    assert KeptSections(ss, k)[idx] == ss[ps[idx]];
    var m := CandidateOf(ss, k, idx);
    var at := NextStillKept(ss, k);
    assert KeptSections(ss, k)[at] == ss[ps[at]];
    assert !ss[ps[at]].required && order[k] == (ss[ps[at]].priority, ps[at]) by {
      OmissionOrderShape(ss);
      assert order[k] in order;
    }
    assert idx < at ==> ps[idx] < ps[at] by { KeptPositionsShape(order, k, |ss|); }
    assert at < idx ==> ps[at] < ps[idx] by { KeptPositionsShape(order, k, |ss|); }
    assert !Sooner(order[k], order[m]);
    OmissionOrderShape(ss);
    NotLaterIsNext(order, k, m);
  }

  lemma {:induction false} AtWithout(ss: seq<Section>, ps: seq<nat>, at: nat)
    requires forall i :: 0 <= i < |ps| ==> ps[i] < |ss|
    requires at < |ps|
    ensures At(ss, ps[..at] + ps[at + 1..]) == At(ss, ps)[..at] + At(ss, ps)[at + 1..]
  {
  }

  lemma {:induction false} KeptSectionsStep(ss: seq<Section>, k: nat, at: nat)
    requires k < |OmissionOrder(ss)|
    requires at < |KeptPositions(OmissionOrder(ss), k, |ss|)|
    requires KeptPositions(OmissionOrder(ss), k, |ss|)[at] == OmissionOrder(ss)[k].1
    ensures var kept := KeptSections(ss, k);
            && OmissionOrder(ss)[k].1 < |ss| && kept[at] == ss[OmissionOrder(ss)[k].1]
            && !kept[at].required
            && KeptSections(ss, k + 1) == kept[..at] + kept[at + 1..]
  {
    var order := OmissionOrder(ss);
    var ps := KeptPositions(order, k, |ss|);
    OmissionPosition(ss, k);
    KeptAfterOmission(order, k, |ss|, at);
    KeptBelow(order, k, |ss|);
    AtWithout(ss, ps, at);
  }

  function OmittedMetadata(ss: seq<Section>, k: nat): (r: seq<PromptSection>)
    requires k <= |OmissionOrder(ss)|
    ensures |r| == k
  {
    if k == 0 then []
    else
      OmissionPosition(ss, k - 1);
      OmittedMetadata(ss, k - 1) + [MetadataFor(ss[OmissionOrder(ss)[k - 1].1])]
  }

  function Names(ps: seq<PromptSection>): seq<string> {
    seq(|ps|, i requires 0 <= i < |ps| => ps[i].name)
  }

  lemma {:induction false} NamesSnoc(ps: seq<PromptSection>, p: PromptSection)
    ensures Names(ps + [p]) == Names(ps) + [p.name]
  {
  }

  /** One greedy omission moves from the first `k` omissions to the first `k + 1`. */
  lemma {:induction false} GreedyStep(ss: seq<Section>, k: nat, idx: nat)
    requires k <= |OmissionOrder(ss)| && LowestOptional(KeptSections(ss, k), idx)
    ensures k < |OmissionOrder(ss)|
    ensures KeptSections(ss, k + 1) == KeptSections(ss, k)[..idx] + KeptSections(ss, k)[idx + 1..]
    ensures OmittedMetadata(ss, k + 1) == OmittedMetadata(ss, k) + [MetadataFor(KeptSections(ss, k)[idx])]
    ensures RequiredTokens(KeptSections(ss, k + 1)) == RequiredTokens(KeptSections(ss, k))
  {
    GreedyPicksNext(ss, k, idx);
    KeptSectionsStep(ss, k, idx);
    RequiredTokensWithout(KeptSections(ss, k), idx);
  }

  method SumRequired(ss: seq<Section>) returns (total: nat)
    ensures total == RequiredTokens(ss)
  {
    total := 0;
    for i := 0 to |ss|
      invariant total == RequiredTokens(ss[..i])
    {
      assert ss[..i + 1][..i] == ss[..i];
      if ss[i].required {
        total := total + EstimateTokens(ss[i].content);
      }
    }
    assert ss[..|ss|] == ss;
  }

  /** The positions that selectSections keeps, or none if it fails: a budget that is not positive
      counts as no budget. */
  function Chosen(ss: seq<Section>, max: int): Option<seq<nat>> {
    if max <= 0 then Some(KeptPositions(OmissionOrder(ss), 0, |ss|))
    else if RequiredTokens(ss) > max then None
    else Some(KeptPositions(OmissionOrder(ss), OmissionCount(ss, max), |ss|))
  }

  predicate ChosenInRange(ss: seq<Section>, max: int) {
    Chosen(ss, max).Some? ==> forall i :: 0 <= i < |Chosen(ss, max).value| ==> Chosen(ss, max).value[i] < |ss|
  }

  lemma {:induction false} ChosenSections(ss: seq<Section>, max: int)
    ensures ChosenInRange(ss, max)
    ensures max <= 0 ==> At(ss, Chosen(ss, max).value) == ss
    ensures max > 0 && RequiredTokens(ss) <= max ==> At(ss, Chosen(ss, max).value) == KeptSections(ss, OmissionCount(ss, max))
  {
    KeptBelow(OmissionOrder(ss), 0, |ss|);
    KeptBelow(OmissionOrder(ss), OmissionCount(ss, max), |ss|);
    KeptNothingOmitted(ss);
  }

  /** What the loop of selectSections has reached after k omissions. */
  ghost predicate Omitting(ss: seq<Section>, max: int, k: nat, selected: seq<Section>, omitted: seq<PromptSection>, warnings: seq<string>) {
    && k <= |OmissionOrder(ss)| && selected == KeptSections(ss, k)
    && OmissionCount(ss, max) == FirstWithin(KeptTotals(ss), max, k)
    && RequiredTokens(selected) <= max
    && omitted == OmittedMetadata(ss, k) && warnings == Names(omitted)
  }

  lemma {:induction false} OmittingNext(ss: seq<Section>, max: int, k: nat, selected: seq<Section>, omitted: seq<PromptSection>,
                                        warnings: seq<string>, idx: nat)
    requires Omitting(ss, max, k, selected, omitted, warnings) && TotalTokens(selected) > max && LowestOptional(selected, idx)
    ensures Omitting(ss, max, k + 1, selected[..idx] + selected[idx + 1..], omitted + [MetadataFor(selected[idx])],
                     warnings + [selected[idx].name])
  {
    GreedyStep(ss, k, idx);
    NamesSnoc(omitted, MetadataFor(selected[idx]));
    assert KeptTotals(ss)[k] > max;
  }

  /** selectSections. Its second error return, reached when no optional section is left, is
      shown unreachable, so the only rejection is the one for oversized required sections. */
  method SelectSections(ss: seq<Section>, max: int) returns (r: Selection)
    ensures max <= 0 ==> r == Selected(ss, [], [])
    ensures r.OverBudget? <==> max > 0 && RequiredTokens(ss) > max
    ensures r.OverBudget? ==> r.requiredTokens == RequiredTokens(ss)
    ensures max > 0 && r.Selected? ==>
              var k := OmissionCount(ss, max);
              && r.sections == KeptSections(ss, k)
              && r.omitted == OmittedMetadata(ss, k)
              && r.omittedNames == Names(r.omitted)
              && TotalTokens(r.sections) <= max
    ensures r.Selected? ==> |r.omittedNames| == |r.omitted| && forall i :: 0 <= i < |r.omitted| ==> r.omittedNames[i] == r.omitted[i].name
    ensures ChosenInRange(ss, max) && (r.Selected? <==> Chosen(ss, max).Some?)
    ensures r.Selected? ==> r.sections == At(ss, Chosen(ss, max).value)
  {
    ChosenSections(ss, max);
    var selected := ss;
    if max <= 0 {
      return Selected(selected, [], []);
    }
    var requiredTokens := SumRequired(selected);
    if requiredTokens > max {
      return OverBudget(requiredTokens);
    }
    var omitted, warnings;
    selected, omitted, warnings := OmitUntilFits(ss, max);
    r := Selected(selected, omitted, warnings);
  }

  lemma {:induction false} OmittingStarts(ss: seq<Section>, max: int)
    requires RequiredTokens(ss) <= max
    ensures Omitting(ss, max, 0, ss, [], [])
  {
    KeptNothingOmitted(ss);
  }

  lemma {:induction false} OmittingEnds(ss: seq<Section>, max: int, k: nat, selected: seq<Section>, omitted: seq<PromptSection>,
                                        warnings: seq<string>)
    requires Omitting(ss, max, k, selected, omitted, warnings) && TotalTokens(selected) <= max
    ensures k == OmissionCount(ss, max)
  {
    assert KeptTotals(ss)[k] <= max;
  }

  /** The loop of selectSections. */
  method OmitUntilFits(ss: seq<Section>, max: int)
      returns (selected: seq<Section>, omitted: seq<PromptSection>, warnings: seq<string>)
    requires RequiredTokens(ss) <= max
    ensures Omitting(ss, max, OmissionCount(ss, max), selected, omitted, warnings) && TotalTokens(selected) <= max
  {
    selected, omitted, warnings := ss, [], [];
    ghost var k := 0;
    OmittingStarts(ss, max);
    while TotalTokens(selected) > max
      invariant Omitting(ss, max, k, selected, omitted, warnings)
      decreases |selected|
    {
      var idx := LowestPriorityOptionalIndex(selected);
      if idx < 0 {
        AllRequiredTokens(selected);
        assert false;
      }
      OmittingNext(ss, max, k, selected, omitted, warnings, idx);
      omitted := omitted + [MetadataFor(selected[idx])];
      warnings := warnings + [selected[idx].name];
      selected := selected[..idx] + selected[idx + 1..];
      k := k + 1;
    }
    OmittingEnds(ss, max, k, selected, omitted, warnings);
  }

  lemma {:induction false} KeptNothingOmitted(ss: seq<Section>)
    ensures KeptSections(ss, 0) == ss
  {
    KeptAllAtFirst(OmissionOrder(ss), |ss|);
    KeptPositionsShape(OmissionOrder(ss), 0, |ss|);
  }

  // ---- Assembly ----

  /** The selected sections that contribute text. */
  function NonBlank(ss: seq<Section>): seq<Section> {
    if ss == [] then []
    else NonBlank(ss[..|ss| - 1]) + if TrimSpace(ss[|ss| - 1].content) == "" then [] else [ss[|ss| - 1]]
  }

  function MetadataOf(ss: seq<Section>): seq<PromptSection> {
    seq(|ss|, i requires 0 <= i < |ss| => MetadataFor(ss[i]))
  }

  lemma {:induction false} MetadataOfSnoc(ss: seq<Section>, s: Section)
    ensures MetadataOf(ss + [s]) == MetadataOf(ss) + [MetadataFor(s)]
  {
  }

  function WordsOf(ss: seq<Section>): seq<string> {
    if ss == [] then [] else WordsOf(ss[..|ss| - 1]) + Fields(ss[|ss| - 1].content)
  }

  lemma {:induction false} WordsAreTokens(ss: seq<Section>)
    ensures |WordsOf(ss)| == TotalTokens(ss)
  {
    if ss != [] {
      WordsAreTokens(ss[..|ss| - 1]);
    }
  }

  function PartsOf(ss: seq<Section>): seq<string> {
    if ss == [] then []
    else
      var content := TrimSpace(ss[|ss| - 1].content);
      PartsOf(ss[..|ss| - 1]) + if content == "" then [] else [content]
  }

  lemma {:induction false} PartsKeepWords(ss: seq<Section>)
    ensures Concat(FieldsOfEach(PartsOf(ss))) == WordsOf(ss)
  {
    if ss != [] {
      var front := ss[..|ss| - 1];
      var content := TrimSpace(ss[|ss| - 1].content);
      PartsKeepWords(front);
      FieldsTrim(ss[|ss| - 1].content);
      if content != "" {
        assert FieldsOfEach(PartsOf(front) + [content]) == FieldsOfEach(PartsOf(front)) + [Fields(content)];
        ConcatSnoc(FieldsOfEach(PartsOf(front)), Fields(content));
      } else {
        assert PartsOf(ss) == PartsOf(front);
        assert WordsOf(ss) == WordsOf(front);
      }
    }
  }

  /** The assembly loop: trimmed non-blank contents, joined by a blank line. */
  /** What the loop of BuildPrompt has gathered from the sections so far. */
  ghost predicate Assembled(ss: seq<Section>, parts: seq<string>, sections: seq<PromptSection>, total: nat) {
    parts == PartsOf(ss) && total == TotalTokens(ss) && sections == MetadataOf(NonBlank(ss))
  }

  lemma {:induction false} AssembledNext(ss: seq<Section>, s: Section, parts: seq<string>, sections: seq<PromptSection>, total: nat)
    requires Assembled(ss, parts, sections, total)
    ensures TrimSpace(s.content) == "" ==> Assembled(ss + [s], parts, sections, total)
    ensures TrimSpace(s.content) != "" ==>
              Assembled(ss + [s], parts + [TrimSpace(s.content)], sections + [MetadataFor(s)], total + MetadataFor(s).tokens)
  {
    assert (ss + [s])[..|ss|] == ss;
    FieldsTrim(s.content);
    MetadataOfSnoc(NonBlank(ss), s);
  }

  method Assemble(selected: seq<Section>) returns (prompt: string, sections: seq<PromptSection>, total: nat)
    ensures prompt == Join(PartsOf(selected), "\n\n")
    ensures Fields(prompt) == WordsOf(selected)
    ensures total == TotalTokens(selected)
    ensures sections == MetadataOf(NonBlank(selected))
  {
    var parts: seq<string> := [];
    sections, total := [], 0;
    for i := 0 to |selected|
      invariant Assembled(selected[..i], parts, sections, total)
    {
      AssembledNext(selected[..i], selected[i], parts, sections, total);
      assert selected[..i] + [selected[i]] == selected[..i + 1];
      var content := TrimSpace(selected[i].content);
      if content != "" {
        parts := parts + [content];
        var metadata := MetadataFor(selected[i]);
        sections := sections + [metadata];
        total := total + metadata.tokens;
      }
    }
    assert selected[..|selected|] == selected;
    PartsKeepWords(selected);
    FieldsJoin(parts, "\n\n");
    prompt := Join(parts, "\n\n");
  }

  /** BuildPrompt. The assembled prompt holds exactly the words of the chosen sections, in
      order, and its estimate is the number of words it really has. */
  method BuildPrompt(ss: seq<Section>, max: int) returns (out: Output)
    ensures out.Rejected? <==> max > 0 && RequiredTokens(ss) > max
    ensures out.Built? ==>
              var chosen := if max <= 0 then ss else KeptSections(ss, OmissionCount(ss, max));
              && out.systemPrompt == Join(PartsOf(chosen), "\n\n")
              && Fields(out.systemPrompt) == WordsOf(chosen)
              && out.tokenEstimate == |Fields(out.systemPrompt)| == TotalTokens(chosen)
              && (max > 0 ==> |Fields(out.systemPrompt)| <= max)
              && out.sections == MetadataOf(NonBlank(chosen))
              && out.omitted == if max <= 0 then [] else OmittedMetadata(ss, OmissionCount(ss, max))
  {
    var selection := SelectSections(ss, max);
    if selection.OverBudget? {
      return Rejected(selection.requiredTokens);
    }
    var prompt, sections, total := Assemble(selection.sections);
    WordsAreTokens(selection.sections);
    out := Built(prompt, sections, selection.omitted, selection.omittedNames, total);
  }

  // ---- What the reference definition promises ----

  /** A required section is never given up, whatever the number of omissions. */
  lemma {:induction false} RequiredAlwaysKept(ss: seq<Section>, k: nat, i: nat)
    requires k <= |OmissionOrder(ss)| && i < |ss| && ss[i].required
    ensures i in KeptPositions(OmissionOrder(ss), k, |ss|)
  {
    OmissionPositions(ss);
    KeptPositionsShape(OmissionOrder(ss), k, |ss|);
  }

  lemma {:induction false} OmissionRemovesOne(ss: seq<Section>, k: nat)
    requires k < |OmissionOrder(ss)|
    ensures |KeptPositions(OmissionOrder(ss), k + 1, |ss|)| + 1 == |KeptPositions(OmissionOrder(ss), k, |ss|)|
  {
    var at := NextStillKept(ss, k);
    KeptAfterOmission(OmissionOrder(ss), k, |ss|, at);
  }

  lemma {:induction false} KeptCount(ss: seq<Section>, k: nat)
    requires k <= |OmissionOrder(ss)|
    ensures |KeptPositions(OmissionOrder(ss), k, |ss|)| + k == |ss|
  {
    if k == 0 {
      KeptAllAtFirst(OmissionOrder(ss), |ss|);
    } else {
      KeptCount(ss, k - 1);
      OmissionRemovesOne(ss, k - 1);
    }
  }

  /** Every input position is either kept or omitted, never both, and none is counted twice. */
  lemma {:induction false} KeptAndOmittedPartition(ss: seq<Section>, k: nat)
    requires k <= |OmissionOrder(ss)|
    ensures forall i: nat :: i < |ss| ==>
              (i in KeptPositions(OmissionOrder(ss), k, |ss|) <==> !Dropped(OmissionOrder(ss), k, i))
    ensures |KeptPositions(OmissionOrder(ss), k, |ss|)| + k == |ss|
  {
    KeptPositionsShape(OmissionOrder(ss), k, |ss|);
    KeptCount(ss, k);
  }

  lemma {:induction false} FirstWithinMonotone(totals: seq<nat>, small: int, large: int)
    requires small <= large && totals != []
    ensures FirstWithin(totals, large, 0) <= FirstWithin(totals, small, 0)
  {
    FirstWithinIsLeast(totals, small, 0);
    FirstWithinIsLeast(totals, large, 0);
  }

  lemma {:induction false} KeptByFewerOmissions(order: seq<Candidate>, fewer: nat, more: nat, n: nat, i: nat)
    requires fewer <= more <= |order| && i in KeptPositions(order, more, n)
    ensures i in KeptPositions(order, fewer, n)
  {
    KeptPositionsShape(order, more, n);
    KeptPositionsShape(order, fewer, n);
  }

  /** A larger budget omits no more, as long as both are budgets. */
  lemma {:induction false} FewerOmissions(ss: seq<Section>, small: int, large: int, i: nat)
    requires small <= large
    requires i in KeptPositions(OmissionOrder(ss), OmissionCount(ss, small), |ss|)
    ensures OmissionCount(ss, large) <= OmissionCount(ss, small)
    ensures i in KeptPositions(OmissionOrder(ss), OmissionCount(ss, large), |ss|)
  {
    FirstWithinMonotone(KeptTotals(ss), small, large);
    KeptByFewerOmissions(OmissionOrder(ss), OmissionCount(ss, large), OmissionCount(ss, small), |ss|, i);
  }

  lemma {:induction false} RequiredAtMostTotal(ss: seq<Section>)
    ensures RequiredTokens(ss) <= TotalTokens(ss)
  {
    if ss != [] {
      RequiredAtMostTotal(ss[..|ss| - 1]);
    }
  }

  /** The section at that position survives selectSections under that budget. */
  predicate Survives(ss: seq<Section>, max: int, i: nat) {
    Chosen(ss, max).Some? && i in Chosen(ss, max).value
  }

  lemma {:induction false} NoBudgetKeepsAll(ss: seq<Section>, max: int, i: nat)
    requires max <= 0
    ensures Survives(ss, max, i) <==> i < |ss|
  {
    KeptPositionsShape(OmissionOrder(ss), 0, |ss|);
  }

  /** A positive budget keeps everything exactly when everything fits. */
  lemma {:induction false} KeepsAllIffFits(ss: seq<Section>, max: int)
    requires max > 0
    ensures (forall i: nat :: i < |ss| ==> Survives(ss, max, i)) <==> TotalTokens(ss) <= max
  {
    KeptNothingOmitted(ss);
    RequiredAtMostTotal(ss);
    assert KeptTotals(ss)[0] == TotalTokens(ss);
    if TotalTokens(ss) <= max {
      assert OmissionCount(ss, max) == 0;
      KeptPositionsShape(OmissionOrder(ss), 0, |ss|);
    } else if RequiredTokens(ss) > max {
      assert !Survives(ss, max, 0);
    } else {
      SomethingOptional(ss, max);
      FirstOmittedIsGone(ss, max);
    }
  }

  lemma {:induction false} SomethingOptional(ss: seq<Section>, max: int)
    requires RequiredTokens(ss) <= max < TotalTokens(ss)
    ensures |OmissionOrder(ss)| > 0
  {
    if Candidates(ss) == [] {
      NoCandidates(ss);
      AllRequiredTokens(ss);
    } else {
      LowestCandidate(ss);
    }
  }

  lemma {:induction false} FirstOmittedIsGone(ss: seq<Section>, max: int)
    requires max > 0 && |OmissionOrder(ss)| > 0 && RequiredTokens(ss) <= max && KeptTotals(ss)[0] > max
    ensures OmissionOrder(ss)[0].1 < |ss| && !Survives(ss, max, OmissionOrder(ss)[0].1)
  {
    OmissionPosition(ss, 0);
    var k := OmissionCount(ss, max);
    assert k > 0;
    KeptPositionsShape(OmissionOrder(ss), k, |ss|);
    assert Dropped(OmissionOrder(ss), k, OmissionOrder(ss)[0].1);
  }

  /** A larger budget keeps a superset, except when a budget is set where there was none and not
      everything fits it. */
  lemma {:induction false} LargerBudgetKeepsMoreIff(ss: seq<Section>, small: int, large: int)
    requires small <= large
    ensures (forall i: nat :: Survives(ss, small, i) ==> Survives(ss, large, i)) <==>
              small > 0 || large <= 0 || TotalTokens(ss) <= large
  {
    if small > 0 {
      forall i: nat | Survives(ss, small, i) ensures Survives(ss, large, i) {
        FewerOmissions(ss, small, large, i);
      }
    } else if large > 0 {
      forall i: nat ensures Survives(ss, small, i) <==> i < |ss| {
        NoBudgetKeepsAll(ss, small, i);
      }
      KeepsAllIffFits(ss, large);
      forall i: nat | Survives(ss, large, i) ensures i < |ss| {
        KeptPositionsShape(OmissionOrder(ss), OmissionCount(ss, large), |ss|);
      }
    }
  }

  /** The exception is real: no budget keeps a two-word section that a budget of one gives up. */
  lemma {:induction false} NoBudgetKeepsMoreThanOne() returns (ss: seq<Section>)
    ensures Survives(ss, 0, 0) && !Survives(ss, 1, 0)
  {
    ss := TwoWordSection();
    NoBudgetKeepsAll(ss, 0, 0);
    KeepsAllIffFits(ss, 1);
    OnlySection(ss, 1);
  }

  lemma {:induction false} OnlySection(ss: seq<Section>, max: int)
    requires |ss| == 1
    ensures (forall i: nat :: i < |ss| ==> Survives(ss, max, i)) <==> Survives(ss, max, 0)
  {
  }

  lemma {:induction false} TwoWordSection() returns (ss: seq<Section>)
    ensures |ss| == 1 && TotalTokens(ss) == 2
  {
    ss := [Section("s", "", "a b", false, 0)];
    TwoWords();
    assert ss[..0] == [];
  }

  lemma {:induction false} TwoWords()
    ensures |Fields("a b")| == 2
  {
    FieldsAppend("a", " b");
    assert "a" + " b" == "a b";
    FieldsSkipSpace(" ", "b");
    assert " " + "b" == " b";
  }

  /** What is given up ranks below what is kept: a lower priority or, on a tie, an earlier position. */
  lemma {:induction false} OmittedRankBelowKept(ss: seq<Section>, max: int, i: nat, j: nat)
    requires Chosen(ss, max).Some? && i < |ss| && j < |ss| && !ss[j].required
    requires !Survives(ss, max, i) && Survives(ss, max, j)
    ensures !ss[i].required
    ensures ss[i].priority < ss[j].priority || (ss[i].priority == ss[j].priority && i < j)
  {
    var order, k := OmissionOrder(ss), if max <= 0 then 0 else OmissionCount(ss, max);
    KeptPositionsShape(order, k, |ss|);
    OmissionOrderShape(ss);
    OmissionPositions(ss);
    var a :| 0 <= a < k && order[a].1 == i;
    assert (ss[j].priority, j) in order;
    var b :| 0 <= b < |order| && order[b] == (ss[j].priority, j);
    assert b >= k;
    assert order[a] in order && Sooner(order[a], order[b]);
  }

  /** The metadata of a section is that section's own. */
  lemma {:induction false} MetadataDescribes(s: Section)
    ensures MetadataFor(s).name == s.name && MetadataFor(s).source == s.source && MetadataFor(s).tokens == |Fields(s.content)|
    ensures MetadataFor(s).required == s.required && MetadataFor(s).priority == s.priority
  {
  }

  predicate HasText(s: Section) {
    TrimSpace(s.content) != ""
  }

  /** The sections that contribute text are those with something besides spaces, in their order. */
  lemma {:induction false} NonBlankIsFilter(ss: seq<Section>)
    ensures NonBlank(ss) == Filter(HasText, ss)
  {
    if ss != [] {
      var n := |ss| - 1;
      NonBlankIsFilter(ss[..n]);
      FilterAppend(HasText, ss[..n], [ss[n]]);
      FilterCons(HasText, ss[n], []);
      assert ss == ss[..n] + [ss[n]];
    }
  }

  /** The parts of the prompt are the trimmed texts of these sections. */
  lemma {:induction false} PartsAreTrimmed(ss: seq<Section>)
    ensures |PartsOf(ss)| == |NonBlank(ss)|
    ensures forall i :: 0 <= i < |PartsOf(ss)| ==> PartsOf(ss)[i] == TrimSpace(NonBlank(ss)[i].content)
  {
    if ss != [] {
      PartsAreTrimmed(ss[..|ss| - 1]);
    }
  }
}
