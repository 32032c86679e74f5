/** Evenly spaced picks, and the three task classes that share one per-repository budget. */
module TaskSelection {
  import opened Sequences
  import opened Apportionment

  const N_GRAPH: nat := 60
  const N_FUZZY_MAX: nat := 30
  const N_RESEARCH: nat := 25
  const REPO_CAP: nat := 16

  // ------------------------------------------------------ evenly spaced

  function Index(n: nat, k: nat, i: nat): nat
    requires 0 < k
  {
    i * n / k
  }

  lemma IndexInRange(n: nat, k: nat, i: nat)
    requires i < k <= n
    ensures Index(n, k, i) < n
  {
    assert k * Index(n, k, i) <= i * n;
    assert (k - i) * n > 0;
    assert k * (n - Index(n, k, i)) > 0;
  }

  /** Neighbouring picks are floor(n/k) or ceil(n/k) apart, so they are strictly increasing. */
  lemma IndexGap(n: nat, k: nat, i: nat)
    requires 0 < k <= n
    ensures n / k >= 1
    ensures n / k <= Index(n, k, i + 1) - Index(n, k, i) <= (n + k - 1) / k
  {
    var a, b := i * n, n;
    assert (i + 1) * n == a + b;
    QuotientStep(a, b, k);
  }

  lemma QuotientStep(a: nat, b: nat, k: nat)
    requires 0 < k <= b
    ensures b / k >= 1
    ensures b / k <= (a + b) / k - a / k <= (b + k - 1) / k
  {
    QuotientStepAt(a, b, k, a / k, a % k, b / k, b % k);
  }

  lemma QuotientStepAt(a: nat, b: nat, k: nat, qa: nat, ra: nat, qb: nat, rb: nat)
    requires 0 < k <= b && ra < k && rb < k
    requires a == k * qa + ra && b == k * qb + rb
    ensures a / k == qa && b / k == qb >= 1
    ensures qb <= (a + b) / k - qa <= (b + k - 1) / k
  {
    QuotientUnique(a, k, qa, ra);
    QuotientUnique(b, k, qb, rb);
    var carry := ra + rb >= k;
    SumQuotient(a + b, k, qa, qb, ra + rb, carry);
    SumQuotient(b + k - 1, k, qb, 0, rb + k - 1, rb > 0);
  }

  lemma SumQuotient(x: nat, k: nat, q: nat, q': nat, rest: nat, carry: bool)
    requires 0 < k && x == k * q + k * q' + rest
    requires if carry then k <= rest < 2 * k else rest < k
    ensures x / k == q + q' + if carry then 1 else 0
  {
    QuotientUnique(x, k, q + q' + if carry then 1 else 0, if carry then rest - k else rest);
  }

  lemma {:induction false} IndexIncreasing(n: nat, k: nat, i: nat, j: nat)
    requires 0 < k <= n && i < j
    ensures Index(n, k, i) < Index(n, k, j)
  {
    IndexGap(n, k, j - 1);
    if i < j - 1 {
      IndexIncreasing(n, k, i, j - 1);
    }
  }

  function EvenlySpaced<T>(items: seq<T>, k: nat): (picks: seq<T>)
    ensures |picks| == Min(k, |items|)
    ensures forall x :: x in picks ==> x in items
  {
    if k >= |items| then items
    else
      seq(k, i requires 0 <= i < k => IndexInRange(|items|, k, i); items[Index(|items|, k, i)])
  }

  /** Picking from distinct items picks distinct items. */
  lemma PicksDistinct<T>(items: seq<T>, k: nat)
    requires Distinct(items)
    ensures Distinct(EvenlySpaced(items, k))
  {
    if k < |items| {
      forall i, j | 0 <= i < j < k ensures EvenlySpaced(items, k)[i] != EvenlySpaced(items, k)[j] {
        IndexInRange(|items|, k, i);
        IndexInRange(|items|, k, j);
        IndexIncreasing(|items|, k, i, j);
      }
    }
  }

  // ------------------------------------------------- the shared budget

  /** A CALLS target of a repository with its measured impact. */
  datatype Target = Target(symbol: string, hasMembers: bool, found: bool, gatePass: bool)

  /** Per repository: the CALLS targets in symbol order (one per symbol), every symbol of the
      authored bank, and those authored symbols that passed the vocabulary firewall. */
  datatype Repo = Repo(calls: seq<Target>, authored: set<string>, survivors: seq<string>)

  ghost predicate RepoValid(r: Repo)
  {
    && (forall s :: s in r.survivors ==> s in r.authored)
    && (forall i, j :: 0 <= i < j < |r.calls| ==> r.calls[i].symbol != r.calls[j].symbol)
  }

  function Symbols(targets: seq<Target>, keep: Target -> bool): (symbols: seq<string>)
  {
    if targets == [] then []
    else
      var last := targets[|targets| - 1];
      Symbols(targets[..|targets| - 1], keep) + if keep(last) then [last.symbol] else []
  }

  lemma {:induction false} SymbolsKept(targets: seq<Target>, keep: Target -> bool)
    ensures forall s :: s in Symbols(targets, keep) ==>
              exists t :: t in targets && t.symbol == s && keep(t)
  {
    if targets != [] {
      var n := |targets| - 1;
      SymbolsKept(targets[..n], keep);
      assert targets == targets[..n] + [targets[n]];
      forall s | s in Symbols(targets, keep) ensures exists t :: t in targets && t.symbol == s && keep(t) {
        if s in Symbols(targets[..n], keep) {
          var t :| t in targets[..n] && t.symbol == s && keep(t);
          assert t in targets;
        } else {
          assert targets[n] in targets;
        }
      }
    }
  }

  lemma {:induction false} SymbolsDistinct(targets: seq<Target>, keep: Target -> bool)
    requires forall i, j :: 0 <= i < j < |targets| ==> targets[i].symbol != targets[j].symbol
    ensures Distinct(Symbols(targets, keep))
  {
    if targets != [] {
      var n := |targets| - 1;
      SymbolsDistinct(targets[..n], keep);
      SymbolsKept(targets[..n], keep);
      var front := Symbols(targets[..n], keep);
      if keep(targets[n]) {
        assert targets[n].symbol !in front;
        DistinctConcat(front, [targets[n].symbol]);
      }
    }
  }

  function GraphPool(r: Repo): seq<string>
  {
    Symbols(r.calls, (t: Target) => t.symbol !in r.authored && t.hasMembers)
  }

  function ResearchPool(r: Repo, used: seq<string>): seq<string>
  {
    Symbols(r.calls, (t: Target) =>
      t.found && t.gatePass && t.symbol !in used && t.symbol !in r.authored && t.hasMembers)
  }

  /** What is picked from one repository. */
  datatype Picks = Picks(fuzzy: seq<string>, graph: seq<string>, research: seq<string>)

  ghost predicate WithinBudget(p: Picks)
  {
    |p.fuzzy| + |p.graph| + |p.research| <= REPO_CAP
  }

  /** No symbol serves two classes. */
  ghost predicate ClassesDisjoint(p: Picks)
  {
    forall s :: !(s in p.fuzzy && s in p.graph) && !(s in p.fuzzy && s in p.research)
             && !(s in p.graph && s in p.research)
  }

  lemma PoolsDisjoint(r: Repo, used: seq<string>)
    requires RepoValid(r)
    ensures forall s :: s in GraphPool(r) ==> s !in r.authored
    ensures forall s :: s in ResearchPool(r, used) ==> s !in r.authored && s !in used
  {
    SymbolsKept(r.calls, (t: Target) => t.symbol !in r.authored && t.hasMembers);
    SymbolsKept(r.calls, (t: Target) =>
      t.found && t.gatePass && t.symbol !in used && t.symbol !in r.authored && t.hasMembers);
  }

  function Lengths(pools: seq<seq<string>>): seq<nat>
  {
    seq(|pools|, r requires 0 <= r < |pools| => |pools[r]|)
  }

  function Capped(pools: seq<seq<string>>, caps: seq<nat>): (sizes: seq<nat>)
    requires |pools| == |caps|
  {
    seq(|pools|, r requires 0 <= r < |pools| => if |pools[r]| <= caps[r] then |pools[r]| else caps[r])
  }

  /** The caps that remain once `picks` were taken. */
  function Spend(caps: seq<nat>, picks: seq<seq<string>>): seq<nat>
    requires |caps| == |picks|
  {
    seq(|caps|, r requires 0 <= r < |caps| => if |picks[r]| <= caps[r] then caps[r] - |picks[r]| else 0)
  }

  /** Picks each repository's quota and lowers its cap by it. */
  method PickQuotas(pools: seq<seq<string>>, caps: seq<nat>, quotas: seq<nat>)
    returns (picks: seq<seq<string>>, left: seq<nat>)
    requires |pools| == |caps| && Within(quotas, Capped(pools, caps))
    ensures |picks| == |left| == |pools| && Lengths(picks) == quotas
    ensures forall r :: 0 <= r < |pools| ==>
      picks[r] == EvenlySpaced(pools[r], quotas[r]) && quotas[r] + left[r] == caps[r]
  {
    picks, left := [], [];
    for r := 0 to |pools|
      invariant |picks| == |left| == r
      invariant forall q :: 0 <= q < r ==>
        && picks[q] == EvenlySpaced(pools[q], quotas[q]) && |picks[q]| == quotas[q]
        && quotas[q] + left[q] == caps[q]
    {
      assert quotas[r] <= Capped(pools, caps)[r];
      picks := picks + [EvenlySpaced(pools[r], quotas[r])];
      left := left + [caps[r] - quotas[r]];
    }
  }

  /** Apportions one class under the caps that are left and picks its tasks. */
  method SelectClass(total: nat, pools: seq<seq<string>>, caps: seq<nat>)
    returns (picks: seq<seq<string>>, left: seq<nat>)
    requires |pools| == |caps|
    ensures |picks| == |pools| && Apportions(Lengths(picks), total, Capped(pools, caps))
    ensures forall r :: 0 <= r < |pools| ==>
      |picks[r]| <= caps[r] && picks[r] == EvenlySpaced(pools[r], |picks[r]|)
    ensures left == Spend(caps, picks)
  {
    var quotas := LargestRemainder(total, Capped(pools, caps));
    picks, left := PickQuotas(pools, caps, quotas);
    forall r | 0 <= r < |pools| ensures |picks[r]| == quotas[r] {
      assert Lengths(picks)[r] == quotas[r];
    }
  }

  function Survivors(repos: seq<Repo>): seq<seq<string>>
  {
    seq(|repos|, r requires 0 <= r < |repos| => repos[r].survivors)
  }

  function GraphPools(repos: seq<Repo>): seq<seq<string>>
  {
    seq(|repos|, r requires 0 <= r < |repos| => GraphPool(repos[r]))
  }

  function ResearchPools(repos: seq<Repo>, graph: seq<seq<string>>): seq<seq<string>>
    requires |graph| == |repos|
  {
    seq(|repos|, r requires 0 <= r < |repos| => ResearchPool(repos[r], graph[r]))
  }

  /** Picks of one repository drawn from its pools in the order fuzzy, graph, research. */
  ghost predicate DrawnFrom(p: Picks, r: Repo)
  {
    && p.fuzzy == EvenlySpaced(r.survivors, |p.fuzzy|)
    && p.graph == EvenlySpaced(GraphPool(r), |p.graph|)
    && p.research == EvenlySpaced(ResearchPool(r, p.graph), |p.research|)
  }

  lemma DrawnIsDisjoint(p: Picks, r: Repo)
    requires RepoValid(r) && DrawnFrom(p, r)
    ensures ClassesDisjoint(p)
    ensures Distinct(p.graph) && Distinct(p.research)
  {
    PoolsDisjoint(r, p.graph);
    SymbolsDistinct(r.calls, (t: Target) => t.symbol !in r.authored && t.hasMembers);
    PicksDistinct(GraphPool(r), |p.graph|);
    SymbolsDistinct(r.calls, (t: Target) =>
      t.found && t.gatePass && t.symbol !in p.graph && t.symbol !in r.authored && t.hasMembers);
    PicksDistinct(ResearchPool(r, p.graph), |p.research|);
  }

  function FullBudget(n: nat): seq<nat>
  {
    seq(n, _ => REPO_CAP)
  }

  function FuzzyTotal(repos: seq<Repo>): nat
  {
    Min(N_FUZZY_MAX, Total(Lengths(Survivors(repos))))
  }

  /** The three classes, one after the other, under one budget per repository. */
  method BuildClasses(repos: seq<Repo>)
    returns (fuzzy: seq<seq<string>>, graph: seq<seq<string>>, research: seq<seq<string>>)
    requires forall r :: 0 <= r < |repos| ==> RepoValid(repos[r])
    ensures |fuzzy| == |graph| == |research| == |repos|
    ensures forall r :: 0 <= r < |repos| ==>
      var p := Picks(fuzzy[r], graph[r], research[r]);
      && WithinBudget(p) && ClassesDisjoint(p) && DrawnFrom(p, repos[r])
      && Distinct(p.graph) && Distinct(p.research)
    ensures var caps := FullBudget(|repos|);
      && Apportions(Lengths(fuzzy), FuzzyTotal(repos), Capped(Survivors(repos), caps))
      && Apportions(Lengths(graph), N_GRAPH, Capped(GraphPools(repos), Spend(caps, fuzzy)))
      && Apportions(Lengths(research), N_RESEARCH,
                    Capped(ResearchPools(repos, graph), Spend(Spend(caps, fuzzy), graph)))
  {
    var n := |repos|;
    var caps := FullBudget(n);
    var afterFuzzy, afterGraph, rest;
    fuzzy, afterFuzzy := SelectClass(FuzzyTotal(repos), Survivors(repos), caps);
    graph, afterGraph := SelectClass(N_GRAPH, GraphPools(repos), afterFuzzy);
    research, rest := SelectClass(N_RESEARCH, ResearchPools(repos, graph), afterGraph);
    forall r | 0 <= r < n
      ensures var p := Picks(fuzzy[r], graph[r], research[r]);
              && WithinBudget(p) && ClassesDisjoint(p) && DrawnFrom(p, repos[r])
              && Distinct(p.graph) && Distinct(p.research)
    {
      var p := Picks(fuzzy[r], graph[r], research[r]);
      assert |p.fuzzy| + afterFuzzy[r] == REPO_CAP && |p.graph| + afterGraph[r] == afterFuzzy[r];
      DrawnIsDisjoint(p, repos[r]);
    }
  }
}
