/** The challenge ledger: hash-chained benchmark results and the provider summaries folded from them. */
module Challenge {
  import opened Results
  import opened Sums
  import opened HashChain
  import opened Ordering
  import RunningAverage

  datatype Body = Body(recordedAt: int, providerID: string, nodeID: string, challenge: string,
                       passed: bool, latencyMs: int, score: int, notes: string)

  type Event = Entry<Body>

  datatype Input = Input(providerID: string, nodeID: string, challenge: string, passed: bool,
                         latencyMs: int, score: int, notes: string)

  datatype Summary = Summary(providerID: string, challenges: int, passed: int, failed: int, passRateBPS: int,
                             averageScore: int, averageLatencyMs: int, lastChallengeAt: int)

  function ClampScore(score: int): int {
    if score < 0 then 0 else if score > 100 then 100 else score
  }

  function MakeBody(input: Input, now: int): Body {
    Body(now, input.providerID, input.nodeID, input.challenge, input.passed, input.latencyMs,
         ClampScore(input.score), input.notes)
  }

  // ---- Summaries ----------------------------------------------------------------------------

  function ProviderOf(b: Body): string {
    if b.providerID == "" then "unknown" else b.providerID
  }

  /** The results of one provider, in order. */
  function ResultsOf(es: seq<Event>, provider: string): seq<Body> {
    if es == [] then []
    else
      var rest := ResultsOf(es[..|es| - 1], provider);
      var last := es[|es| - 1].body;
      if ProviderOf(last) == provider then rest + [last] else rest
  }

  function ScoresOf(bs: seq<Body>): seq<int> {
    seq(|bs|, i requires 0 <= i < |bs| => bs[i].score)
  }

  function LatenciesOf(bs: seq<Body>): seq<int> {
    seq(|bs|, i requires 0 <= i < |bs| => bs[i].latencyMs)
  }

  function Passes(): Body -> int {
    (b: Body) => if b.passed then 1 else 0
  }

  /** The latest of the record times, which are never before the zero time. */
  function Latest(bs: seq<Body>): int {
    if bs == [] then 0
    else
      var before := Latest(bs[..|bs| - 1]);
      if bs[|bs| - 1].recordedAt > before then bs[|bs| - 1].recordedAt else before
  }

  /** All of a summary but its pass rate, which is filled in last. */
  ghost predicate Summarizes(bs: seq<Body>, s: Summary) {
    && s.challenges == |bs|
    && s.passed == SumBy(bs, Passes())
    && s.failed == |bs| - SumBy(bs, Passes())
    && s.averageScore == RunningAverage.Average(ScoresOf(bs))
    && s.averageLatencyMs == RunningAverage.Average(LatenciesOf(bs))
    && s.lastChallengeAt == Latest(bs)
  }

  function Blank(provider: string): Summary {
    Summary(provider, 0, 0, 0, 0, 0, 0, 0)
  }

  function Add(s: Summary, b: Body): Summary
    requires 0 <= s.challenges
  {
    var n := s.challenges + 1;
    s.(challenges := n,
       passed := s.passed + (if b.passed then 1 else 0),
       failed := s.failed + (if b.passed then 0 else 1),
       averageScore := RunningAverage.Next(s.averageScore, n, b.score),
       averageLatencyMs := RunningAverage.Next(s.averageLatencyMs, n, b.latencyMs),
       lastChallengeAt := if b.recordedAt > s.lastChallengeAt then b.recordedAt else s.lastChallengeAt)
  }

  lemma AddSummarizes(bs: seq<Body>, s: Summary, b: Body)
    requires Summarizes(bs, s)
    ensures Summarizes(bs + [b], Add(s, b))
  {
    SumAppend(bs, b, Passes());
    assert ScoresOf(bs + [b]) == ScoresOf(bs) + [b.score];
    assert LatenciesOf(bs + [b]) == LatenciesOf(bs) + [b.latencyMs];
    RunningAverage.DriftStep(ScoresOf(bs), b.score);
    RunningAverage.DriftStep(LatenciesOf(bs), b.latencyMs);
    assert (bs + [b])[..|bs|] == bs;
  }

  lemma ResultsAppend(es: seq<Event>, e: Event, provider: string)
    ensures ResultsOf(es + [e], provider)
         == ResultsOf(es, provider) + if ProviderOf(e.body) == provider then [e.body] else []
  {
    assert (es + [e])[..|es|] == es;
  }

  function Providers(es: seq<Event>): set<string> {
    set e | e in es :: ProviderOf(e.body)
  }

  ghost predicate Collected(es: seq<Event>, items: map<string, Summary>) {
    && items.Keys == Providers(es)
    && forall p :: p in items ==> items[p].providerID == p && Summarizes(ResultsOf(es, p), items[p])
  }

  lemma {:induction false} NoResults(es: seq<Event>, provider: string)
    requires provider !in Providers(es)
    ensures ResultsOf(es, provider) == []
  {
    if es != [] {
      var rest, last := es[..|es| - 1], es[|es| - 1];
      assert last in es && forall x :: x in rest ==> x in es;
      NoResults(rest, provider);
    }
  }

  lemma CollectedAfter(es: seq<Event>, e: Event, items: map<string, Summary>, prior: Summary)
    requires Collected(es, items)
    requires prior.providerID == ProviderOf(e.body) && Summarizes(ResultsOf(es, ProviderOf(e.body)), prior)
    ensures Collected(es + [e], items[ProviderOf(e.body) := Add(prior, e.body)])
  {
    var p := ProviderOf(e.body);
    assert Providers(es + [e]) == Providers(es) + {p} by {
      assert forall x :: x in es + [e] <==> x in es || x == e;
    }
    ResultsAppend(es, e, p);
    AddSummarizes(ResultsOf(es, p), prior, e.body);
    OthersUntouched(es, e, items);
  }

  lemma OthersUntouched(es: seq<Event>, e: Event, items: map<string, Summary>)
    requires Collected(es, items)
    ensures forall q :: q in items && q != ProviderOf(e.body) ==> Summarizes(ResultsOf(es + [e], q), items[q])
  {
    forall q | q in items && q != ProviderOf(e.body)
      ensures Summarizes(ResultsOf(es + [e], q), items[q])
    {
      ResultsAppend(es, e, q);
      assert ResultsOf(es, q) + [] == ResultsOf(es, q);
    }
  }

  function PassRate(s: Summary): int {
    if s.challenges > 0 then Quo(s.passed * 10000, s.challenges) else 0
  }

  function ProvidersOf(out: seq<Summary>): seq<string> {
    seq(|out|, i requires 0 <= i < |out| => out[i].providerID)
  }

  /** A sorted report that has, for each provider with results, its finished summary. */
  ghost predicate Reports(es: seq<Event>, out: seq<Summary>) {
    && Lists(ProvidersOf(out), Providers(es))
    && forall i :: 0 <= i < |out| ==>
         Summarizes(ResultsOf(es, out[i].providerID), out[i]) && out[i].passRateBPS == PassRate(out[i])
  }

  /** The body of the accumulation loop. */
  method AddResult(items: map<string, Summary>, e: Event, ghost es: seq<Event>) returns (out: map<string, Summary>)
    requires Collected(es, items)
    ensures Collected(es + [e], out)
  {
    var p := ProviderOf(e.body);
    var item := Blank(p);
    if p in items {
      item := items[p];
    } else {
      NoResults(es, p);
      BlankSummarizes(p);
    }
    CollectedAfter(es, e, items, item);
    out := items[p := Add(item, e.body)];
  }

  method Collect(es: seq<Event>) returns (items: map<string, Summary>)
    ensures Collected(es, items)
  {
    items := map[];
    for i := 0 to |es|
      invariant Collected(es[..i], items)
    {
      assert es[..i] + [es[i]] == es[..i + 1];
      items := AddResult(items, es[i], es[..i]);
    }
    assert es[..|es|] == es;
  }

  lemma BlankSummarizes(p: string)
    ensures Summarizes([], Blank(p))
  {
    assert ScoresOf([]) == [] && LatenciesOf([]) == [];
  }

  method Summaries(es: seq<Event>) returns (out: seq<Summary>)
    ensures Reports(es, out)
  {
    var items := Collect(es);
    var keys := SortedKeys(items.Keys);
    out := [];
    for i := 0 to |keys|
      invariant |out| == i
      invariant forall j :: 0 <= j < i ==>
                  && out[j].providerID == keys[j] && Summarizes(ResultsOf(es, keys[j]), out[j])
                  && out[j].passRateBPS == PassRate(out[j])
    {
      assert keys[i] in items;
      var item := items[keys[i]];
      out := out + [item.(passRateBPS := PassRate(item))];
    }
    assert ProvidersOf(out) == keys;
  }

  /** Every event a ledger ever records has a score in range. */
  ghost predicate Graded(es: seq<Event>) {
    forall i :: 0 <= i < |es| ==> 0 <= es[i].body.score <= 100
  }

  lemma {:induction false} ResultsGraded(es: seq<Event>, provider: string)
    requires Graded(es)
    ensures forall i :: 0 <= i < |ResultsOf(es, provider)| ==> 0 <= ResultsOf(es, provider)[i].score <= 100
  {
    if es != [] {
      ResultsGraded(es[..|es| - 1], provider);
    }
  }

  lemma {:induction false} PassesWithin(bs: seq<Body>)
    ensures 0 <= SumBy(bs, Passes()) <= |bs|
  {
    if bs != [] {
      PassesWithin(bs[..|bs| - 1]);
    }
  }

  /** Truncation in the running average never takes a provider's figures out of their scales. */
  lemma SummaryInScale(es: seq<Event>, provider: string, s: Summary)
    requires Graded(es) && s.challenges > 0 && Summarizes(ResultsOf(es, provider), s)
    ensures 0 <= s.averageScore <= 100
    ensures s.passed + s.failed == s.challenges && 0 <= PassRate(s) <= 10000
  {
    var bs := ResultsOf(es, provider);
    ResultsGraded(es, provider);
    RunningAverage.AverageBetween(ScoresOf(bs), 0, 100);
    PassesWithin(bs);
    QuoBetween(s.passed * 10000, s.challenges, 0, 10000);
  }

  lemma {:induction false} AllPassed(bs: seq<Body>)
    ensures SumBy(bs, Passes()) == |bs| <==> forall b :: b in bs ==> b.passed
    ensures SumBy(bs, Passes()) == 0 <==> forall b :: b in bs ==> !b.passed
  {
    if bs != [] {
      var n := |bs| - 1;
      AllPassed(bs[..n]);
      PassesWithin(bs[..n]);
      assert forall b :: b in bs <==> b in bs[..n] || b == bs[n];
      assert SumBy(bs, Passes()) == SumBy(bs[..n], Passes()) + if bs[n].passed then 1 else 0;
    }
  }

  /** The pass rate is the share of passes, per ten thousand, rounded down: full if all passed, nothing if none did. */
  lemma PassRateIsShareOfPasses(es: seq<Event>, provider: string, s: Summary)
    requires s.challenges > 0 && Summarizes(ResultsOf(es, provider), s)
    ensures PassRate(s) * s.challenges <= 10000 * s.passed < (PassRate(s) + 1) * s.challenges
    ensures PassRate(s) == 10000 <==> forall b :: b in ResultsOf(es, provider) ==> b.passed
    ensures (forall b :: b in ResultsOf(es, provider) ==> !b.passed) ==> PassRate(s) == 0
  {
    var bs := ResultsOf(es, provider);
    AllPassed(bs);
    PassesWithin(bs);
    QuoRemainder(s.passed * 10000, s.challenges);
    QuoBetween(s.passed * 10000, s.challenges, 0, 10000);
    NextMultiple(PassRate(s), s.challenges);
    if s.passed < s.challenges { Scale(10000, PassRate(s), s.challenges); }
    if s.passed == s.challenges { QuoBetween(s.passed * 10000, s.challenges, 10000, 10000); }
    if s.passed == 0 { QuoBetween(0, s.challenges, 0, 0); }
  }

  /** Whose result an event is: its provider's, or the provider called "unknown" if it names none. */
  lemma {:induction false} ResultsAreTheProviders(es: seq<Event>, provider: string)
    requires provider != "" && provider != "unknown"
    ensures forall b :: b in ResultsOf(es, provider) <==> b.providerID == provider && exists e :: e in es && e.body == b
  {
    if es != [] {
      var n := |es| - 1;
      ResultsAreTheProviders(es[..n], provider);
      assert es == es[..n] + [es[n]];
    }
  }

  /** The reported score is at most (n-1)/2 points below the true mean score. */
  lemma ScoreDrift(es: seq<Event>, provider: string, s: Summary)
    requires Graded(es) && Summarizes(ResultsOf(es, provider), s)
    ensures 0 <= RunningAverage.Total(ScoresOf(ResultsOf(es, provider))) - s.challenges * s.averageScore
              <= RunningAverage.Triangle(s.challenges)
  {
    ResultsGraded(es, provider);
    RunningAverage.DriftOneSided(ScoresOf(ResultsOf(es, provider)));
  }

  // ---- The ledger object --------------------------------------------------------------------

  class Ledger {
    const enabled: bool
    const digest: Digest<Body>
    /** Whether a JSONL path is configured. */
    const stored: bool
    var store: seq<Event>
    var events: seq<Event>
    var lastHash: string

    ghost predicate Consistent()
      reads this
    {
      lastHash == LastHash(events) && Valid(digest, events) && (stored ==> store == events)
    }

    constructor (enabled: bool, digest: Digest<Body>, stored: bool, store: seq<Event>)
      requires Valid(digest, store)
      ensures Consistent() && this.enabled == enabled && this.stored == stored && this.digest == digest
      ensures events == if stored then store else []
    {
      this.enabled := enabled;
      this.digest := digest;
      this.stored := stored;
      this.store := store;
      this.events := if stored then store else [];
      this.lastHash := if stored then LastHash(store) else GENESIS;
    }

    /** Unlike settlement, a disabled challenge ledger refuses. */
    method Record(input: Input, now: int, storeOk: bool) returns (r: Result<Event, string>)
      requires Consistent()
      modifies this
      ensures Consistent()
      ensures r.Ok? <==> enabled && (stored ==> storeOk)
      ensures r.Err? ==> events == old(events) && store == old(store)
      ensures r.Ok? ==> events == Extend(digest, old(events), MakeBody(input, now)) && r.value == events[|events| - 1]
      ensures Graded(old(events)) ==> Graded(events)
    {
      if !enabled { return Err("challenge ledger disabled"); }
      var score := input.score;
      if score < 0 { score := 0; }
      if score > 100 { score := 100; }
      var body := Body(now, input.providerID, input.nodeID, input.challenge, input.passed, input.latencyMs,
                       score, input.notes);
      var event := Entry(|events| + 1, body, lastHash, "");
      event := event.(hash := HashEvent(digest, event));
      ExtendKeepsValid(digest, events, body);
      if stored {
        if !storeOk { return Err("store"); }
        store := store + [event];
      }
      events := events + [event];
      lastHash := event.hash;
      r := Ok(event);
    }
  }
}
