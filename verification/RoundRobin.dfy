/** Which provider the next synthetic challenge goes to. */
module RoundRobin {
  import opened Ordering
  import P = Privacy

  datatype NodeView = NodeView(providerID: string, healthy: bool, inCooldown: bool, active: int, maxConcurrent: int,
                               models: set<string>, privacyTiers: seq<string>)

  predicate Challengeable(n: NodeView, model: string, tier: string) {
    && n.providerID != "" && n.healthy && !n.inCooldown && n.active < n.maxConcurrent
    && model in n.models
    && P.NormalizeTier(tier).Ok? && P.Default(tier) in n.privacyTiers
  }

  function Providers(nodes: seq<NodeView>, model: string, tier: string): set<string> {
    set n | n in nodes && Challengeable(n, model, tier) :: n.providerID
  }

  /** challengeProviderCandidates: each provider with a usable node once, in order. */
  method Candidates(nodes: seq<NodeView>, model: string, tier: string) returns (out: seq<string>)
    ensures Lists(out, Providers(nodes, model, tier))
  {
    var seen: set<string> := {};
    for i := 0 to |nodes|
      invariant seen == Providers(nodes[..i], model, tier)
    {
      var n := nodes[i];
      assert nodes[..i + 1] == nodes[..i] + [n];
      if n.providerID == "" || !n.healthy || n.inCooldown || n.active >= n.maxConcurrent { continue; }
      var accepted := P.Accepts(n.privacyTiers, tier);
      if model !in n.models || !accepted { continue; }
      seen := seen + {n.providerID};
    }
    assert nodes[..|nodes|] == nodes;
    out := SortedKeys(seen);
  }

  /** The position a pick uses: the cursor, or the start when the list has become too short for it. */
  function Position(next: nat, n: nat): nat {
    if next >= n then 0 else next
  }

  function Advance(next: nat, n: nat): nat
    requires 0 < n
  {
    (Position(next, n) + 1) % n
  }

  class Rotation {
    var next: nat

    constructor ()
      ensures next == 0
    {
      next := 0;
    }

    method Pick(candidates: seq<string>) returns (providerID: string)
      modifies this
      ensures candidates == [] ==> providerID == "" && next == old(next)
      ensures candidates != [] ==>
                providerID == candidates[Position(old(next), |candidates|)] && next == Advance(old(next), |candidates|)
    {
      if |candidates| == 0 { return ""; }
      if next >= |candidates| { next := 0; }
      providerID := candidates[next];
      next := (next + 1) % |candidates|;
    }
  }

  /** The position of the k-th pick from now while the list stays the same. */
  function PickAt(next: nat, n: nat, k: nat): nat
    requires 0 < n
    decreases k
  {
    if k == 0 then Position(next, n) else PickAt(Advance(next, n), n, k - 1)
  }

  lemma {:induction false} PickAtWraps(next: nat, n: nat, k: nat)
    requires k < n
    ensures var i := Position(next, n) + k; PickAt(next, n, k) == if i < n then i else i - n
    decreases k
  {
    if k > 0 {
      AdvanceWraps(next, n);
      PickAtWraps(Advance(next, n), n, k - 1);
    }
  }

  lemma AdvanceWraps(next: nat, n: nat)
    requires 0 < n
    ensures Advance(next, n) == if Position(next, n) + 1 < n then Position(next, n) + 1 else 0
  {
  }

  /** From any cursor, as many picks as there are candidates visit every candidate exactly once. */
  lemma EveryProviderOnce(next: nat, candidates: seq<string>, all: set<string>, p: string)
    returns (k: nat)
    requires Lists(candidates, all) && p in all
    ensures k < |candidates|
    ensures forall j: nat :: j < |candidates| ==> PickAt(next, |candidates|, j) < |candidates|
    ensures forall j: nat :: j < |candidates| ==>
              (candidates[PickAt(next, |candidates|, j)] == p <==> j == k)
  {
    var n := |candidates|;
    assert p in candidates;
    var at :| 0 <= at < n && candidates[at] == p;
    var i := Position(next, n);
    k := if at >= i then at - i else at - i + n;
    forall j: nat | j < n
      ensures PickAt(next, n, j) < n && (candidates[PickAt(next, n, j)] == p <==> j == k)
    {
      PickAtWraps(next, n, j);
      var q := PickAt(next, n, j);
      LessIsTotal(p, p);
      assert q != at ==> candidates[q] != p by {
        if q < at { assert Less(candidates[q], candidates[at]); }
        if at < q { assert Less(candidates[at], candidates[q]); }
      }
    }
  }
}
