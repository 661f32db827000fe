/** The settlement ledger: priced, hash-chained events and the balances folded from them. */
module Settlement {
  import opened Results
  import opened Sums
  import opened Metering
  import opened HashChain
  import opened Ordering
  import RunningAverage

  /** The ledger's tariff, as the constructor clamps it. */
  datatype Tariff = Tariff(price: int, shareBPS: int, targetLatencyMs: int, penaltyBPS: int)

  datatype Body = Body(recordedAt: int, requestID: string, consumerID: string, providerID: string,
                       nodeID: string, model: string, privacyTier: string, promptTokens: int,
                       completionTokens: int, totalTokens: int, latencyMs: int, dispatchAttempts: int,
                       priceMicros: int, rewardMicros: int, penaltyMicros: int)

  type Event = Entry<Body>

  datatype Input = Input(requestID: string, consumerID: string, providerID: string, nodeID: string,
                         model: string, privacyTier: string, done: Done, latencyMs: int, attempts: int)

  function Within(x: int, lo: int, hi: int): int {
    if x < lo then lo else if x > hi then hi else x
  }

  function ClampTariff(t: Tariff): Tariff {
    t.(price := if t.price < 0 then 0 else t.price,
       shareBPS := Within(t.shareBPS, 0, 10000),
       penaltyBPS := Within(t.penaltyBPS, 0, 10000))
  }

  predicate Clamped(t: Tariff) {
    0 <= t.price && 0 <= t.shareBPS <= 10000 && 0 <= t.penaltyBPS <= 10000
  }

  function PriceFor(t: Tariff, tokens: int): int {
    if tokens <= 0 || t.price <= 0 then 0 else tokens * t.price / 1000
  }

  function PenaltyFor(t: Tariff, reward: int, latencyMs: int): int {
    if reward <= 0 || t.targetLatencyMs <= 0 || t.penaltyBPS <= 0 then 0
    else if latencyMs <= t.targetLatencyMs then 0
    else reward * t.penaltyBPS / 10000
  }

  function MakeBody(t: Tariff, input: Input, now: int): Body {
    var tokens := input.done.promptTokens + input.done.outputTokens;
    var price := PriceFor(t, tokens);
    var reward := Quo(price * t.shareBPS, 10000);
    var penalty := PenaltyFor(t, reward, input.latencyMs);
    Body(now, input.requestID, input.consumerID, input.providerID, input.nodeID, input.model,
         input.privacyTier, input.done.promptTokens, input.done.outputTokens, tokens, input.latencyMs,
         input.attempts, price, reward - penalty, penalty)
  }

  // ---- Money of one event -------------------------------------------------------------------

  lemma FractionOf(x: int, bps: int)
    requires 0 <= x && 0 <= bps <= 10000
    ensures 0 <= x * bps / 10000 <= x
  {
    Scale(0, x, bps);
    Scale(bps, 10000, x);
    QuoBetween(x * bps, 10000, 0, x);
  }

  /** What a provider earns or forfeits comes out of the price. */
  ghost predicate Split(b: Body) {
    0 <= b.rewardMicros && 0 <= b.penaltyMicros && b.rewardMicros + b.penaltyMicros <= b.priceMicros
  }

  /** Who is late: only a positive target can be missed, and meeting it to the millisecond is not missing it. */
  predicate Late(t: Tariff, latencyMs: int) {
    0 < t.targetLatencyMs < latencyMs
  }

  /** A punctual node keeps its whole share; a late one forfeits exactly the tariff's part of it and keeps the rest. */
  ghost predicate Fair(t: Tariff, b: Body) {
    var share := b.priceMicros * t.shareBPS / 10000;
    && b.penaltyMicros == (if Late(t, b.latencyMs) then share * t.penaltyBPS / 10000 else 0)
    && b.rewardMicros == share - b.penaltyMicros
  }

  /** Reward and penalty split the provider's share of the price, which is the rounded-down tariff. */
  ghost predicate Priced(t: Tariff, b: Body) {
    && Split(b) && Fair(t, b)
    && b.rewardMicros + b.penaltyMicros == b.priceMicros * t.shareBPS / 10000
    && (b.totalTokens >= 0 ==> b.priceMicros == b.totalTokens * t.price / 1000)
  }

  lemma EventIsPriced(t: Tariff, input: Input, now: int)
    requires Clamped(t)
    ensures Priced(t, MakeBody(t, input, now))
  {
    var b := MakeBody(t, input, now);
    if b.totalTokens > 0 && t.price > 0 {
      Scale(0, b.totalTokens, t.price);
    }
    if b.totalTokens >= 0 && (b.totalTokens == 0 || t.price == 0) {
      assert b.totalTokens * t.price == 0;
    }
    assert 0 <= b.priceMicros;
    Scale(0, b.priceMicros, t.shareBPS);
    FractionOf(b.priceMicros, t.shareBPS);
    var reward := b.priceMicros * t.shareBPS / 10000;
    FractionOf(reward, t.penaltyBPS);
    if reward == 0 || t.penaltyBPS == 0 { assert reward * t.penaltyBPS == 0; }
  }

  /** A configured tariff is taken as the nearest that makes sense: no negative price, no part below nothing or above the whole. */
  lemma TariffIsNearest(t: Tariff)
    ensures Clamped(ClampTariff(t)) && ClampTariff(t).targetLatencyMs == t.targetLatencyMs
    ensures Clamped(t) ==> ClampTariff(t) == t
    ensures t.price <= ClampTariff(t).price && (ClampTariff(t).price == t.price || ClampTariff(t).price == 0)
    ensures forall x :: 0 <= x <= 10000 ==> Distance(ClampTariff(t).shareBPS, t.shareBPS) <= Distance(x, t.shareBPS)
    ensures forall x :: 0 <= x <= 10000 ==> Distance(ClampTariff(t).penaltyBPS, t.penaltyBPS) <= Distance(x, t.penaltyBPS)
  {
  }

  function Distance(a: int, b: int): int {
    if a < b then b - a else a - b
  }

  // ---- Balances -----------------------------------------------------------------------------

  datatype Side = Consumers | Providers

  datatype Balance = Balance(accountID: string, events: int, totalTokens: int, averageLatencyMs: int,
                             debitMicros: int, rewardMicros: int, penaltyMicros: int)

  function PartyOf(side: Side, b: Body): string {
    match side
    case Consumers => b.consumerID
    case Providers => b.providerID
  }

  /** The running totals of a balance. */
  datatype Column = Events | Tokens | Debit | Reward | Penalty

  function Amount(side: Side, c: Column, b: Body): int {
    match c
    case Events => 1
    case Tokens => b.totalTokens
    case Debit => if side == Consumers then b.priceMicros else 0
    case Reward => if side == Providers then b.rewardMicros else 0
    case Penalty => if side == Providers then b.penaltyMicros else 0
  }

  function Posted(side: Side, id: string, c: Column): Event -> int {
    (e: Event) => if PartyOf(side, e.body) == id then Amount(side, c, e.body) else 0
  }

  /** One figure of one account, summed over the whole history. */
  function Figure(side: Side, es: seq<Event>, id: string, c: Column): int {
    SumBy(es, Posted(side, id, c))
  }

  function LatenciesOf(side: Side, es: seq<Event>, id: string): seq<int> {
    if es == [] then []
    else
      var rest := LatenciesOf(side, es[..|es| - 1], id);
      var last := es[|es| - 1].body;
      if PartyOf(side, last) == id then rest + [last.latencyMs] else rest
  }

  /** The balance an account should have, read off the events one column at a time. */
  ghost predicate IsBalanceOf(side: Side, es: seq<Event>, id: string, b: Balance) {
    && b.accountID == id
    && b.events == Figure(side, es, id, Events) == |LatenciesOf(side, es, id)|
    && b.totalTokens == Figure(side, es, id, Tokens)
    && b.averageLatencyMs == RunningAverage.Average(LatenciesOf(side, es, id))
    && b.debitMicros == Figure(side, es, id, Debit)
    && b.rewardMicros == Figure(side, es, id, Reward)
    && b.penaltyMicros == Figure(side, es, id, Penalty)
  }

  function Parties(side: Side, es: seq<Event>): set<string> {
    set e | e in es && PartyOf(side, e.body) != "" :: PartyOf(side, e.body)
  }

  ghost predicate Tallies(side: Side, es: seq<Event>, m: map<string, Balance>) {
    m.Keys == Parties(side, es) && forall id :: id in m ==> IsBalanceOf(side, es, id, m[id])
  }

  function Post(side: Side, prior: Balance, b: Body): Balance
    requires 0 <= prior.events
  {
    var n := prior.events + 1;
    Balance(prior.accountID, n, prior.totalTokens + b.totalTokens,
            RunningAverage.Next(prior.averageLatencyMs, n, b.latencyMs),
            prior.debitMicros + Amount(side, Debit, b),
            prior.rewardMicros + Amount(side, Reward, b),
            prior.penaltyMicros + Amount(side, Penalty, b))
  }

  lemma FigureAppend(side: Side, es: seq<Event>, e: Event, id: string, c: Column)
    ensures Figure(side, es + [e], id, c)
         == Figure(side, es, id, c) + if PartyOf(side, e.body) == id then Amount(side, c, e.body) else 0
  {
    SumAppend(es, e, Posted(side, id, c));
  }

  lemma LatenciesAppend(side: Side, es: seq<Event>, e: Event, id: string)
    ensures LatenciesOf(side, es + [e], id)
         == LatenciesOf(side, es, id) + if PartyOf(side, e.body) == id then [e.body.latencyMs] else []
  {
    assert (es + [e])[..|es|] == es;
  }

  lemma PostIsBalance(side: Side, es: seq<Event>, e: Event, id: string, b: Balance)
    requires IsBalanceOf(side, es, id, b)
    ensures IsBalanceOf(side, es + [e], id, if PartyOf(side, e.body) == id then Post(side, b, e.body) else b)
  {
    forall c ensures Figure(side, es + [e], id, c)
                  == Figure(side, es, id, c) + if PartyOf(side, e.body) == id then Amount(side, c, e.body) else 0
    {
      FigureAppend(side, es, e, id, c);
    }
    LatenciesAppend(side, es, e, id);
    RunningAverage.DriftStep(LatenciesOf(side, es, id), e.body.latencyMs);
    assert LatenciesOf(side, es, id) + [] == LatenciesOf(side, es, id);
  }

  lemma {:induction false} NothingPosted(side: Side, es: seq<Event>, id: string)
    requires id != "" && id !in Parties(side, es)
    ensures IsBalanceOf(side, es, id, Balance(id, 0, 0, 0, 0, 0, 0))
  {
    if es != [] {
      var rest, last := es[..|es| - 1], es[|es| - 1];
      assert last in es && rest + [last] == es;
      assert forall x :: x in rest ==> x in es;
      assert PartyOf(side, last.body) != id && id !in Parties(side, rest);
      NothingPosted(side, rest, id);
      PostIsBalance(side, rest, last, id, Balance(id, 0, 0, 0, 0, 0, 0));
    }
  }

  /** Posting the newest event to the one account it names keeps every other balance right. */
  lemma TallyAfter(side: Side, es: seq<Event>, e: Event, m: map<string, Balance>, prior: Balance)
    requires Tallies(side, es, m) && PartyOf(side, e.body) != ""
    requires IsBalanceOf(side, es, PartyOf(side, e.body), prior)
    ensures Tallies(side, es + [e], m[PartyOf(side, e.body) := Post(side, prior, e.body)])
  {
    PartiesAppend(side, es, e);
    PostIsBalance(side, es, e, PartyOf(side, e.body), prior);
    OthersUntouched(side, es, e, m);
  }

  lemma OthersUntouched(side: Side, es: seq<Event>, e: Event, m: map<string, Balance>)
    requires Tallies(side, es, m)
    ensures forall id :: id in m && id != PartyOf(side, e.body) ==> IsBalanceOf(side, es + [e], id, m[id])
  {
    forall id | id in m && id != PartyOf(side, e.body)
      ensures IsBalanceOf(side, es + [e], id, m[id])
    {
      PostIsBalance(side, es, e, id, m[id]);
    }
  }

  /** The body of the accumulation loop, for one side. */
  method PostTo(side: Side, m: map<string, Balance>, e: Event, ghost es: seq<Event>)
    returns (out: map<string, Balance>)
    requires Tallies(side, es, m)
    ensures Tallies(side, es + [e], out)
  {
    var id := PartyOf(side, e.body);
    if id == "" {
      PartiesAppend(side, es, e);
      OthersUntouched(side, es, e, m);
      return m;
    }
    var balance := Balance(id, 0, 0, 0, 0, 0, 0);
    if id in m {
      balance := m[id];
    } else {
      NothingPosted(side, es, id);
    }
    TallyAfter(side, es, e, m, balance);
    out := m[id := Post(side, balance, e.body)];
  }

  lemma PartiesAppend(side: Side, es: seq<Event>, e: Event)
    ensures Parties(side, es + [e])
         == Parties(side, es) + if PartyOf(side, e.body) == "" then {} else {PartyOf(side, e.body)}
  {
    assert forall x :: x in es + [e] <==> x in es || x == e;
  }

  /** The accumulation loop behind every snapshot. */
  method Balances(es: seq<Event>) returns (consumers: map<string, Balance>, providers: map<string, Balance>)
    ensures Tallies(Consumers, es, consumers) && Tallies(Providers, es, providers)
  {
    consumers, providers := map[], map[];
    for i := 0 to |es|
      invariant Tallies(Consumers, es[..i], consumers) && Tallies(Providers, es[..i], providers)
    {
      assert es[..i] + [es[i]] == es[..i + 1];
      consumers := PostTo(Consumers, consumers, es[i], es[..i]);
      providers := PostTo(Providers, providers, es[i], es[..i]);
    }
    assert es[..|es|] == es;
  }

  function AccountsOf(bs: seq<Balance>): seq<string> {
    seq(|bs|, i requires 0 <= i < |bs| => bs[i].accountID)
  }

  /** A sorted report of one side: every named party's balance. */
  ghost predicate Listed(side: Side, es: seq<Event>, out: seq<Balance>) {
    && Lists(AccountsOf(out), Parties(side, es))
    && forall i :: 0 <= i < |out| ==> IsBalanceOf(side, es, out[i].accountID, out[i])
  }

  /** Balances are reported sorted by account, whatever order the map was walked in. */
  method BalanceValues(m: map<string, Balance>, ghost side: Side, ghost es: seq<Event>) returns (out: seq<Balance>)
    requires Tallies(side, es, m)
    ensures Listed(side, es, out)
  {
    var keys := SortedKeys(m.Keys);
    out := [];
    for i := 0 to |keys|
      invariant |out| == i
      invariant forall j :: 0 <= j < i ==> keys[j] in m && out[j] == m[keys[j]]
    {
      assert keys[i] in m.Keys;
      out := out + [m[keys[i]]];
    }
    ValuesAreListed(side, es, m, keys, out);
  }

  lemma ValuesAreListed(side: Side, es: seq<Event>, m: map<string, Balance>, keys: seq<string>, out: seq<Balance>)
    requires Tallies(side, es, m) && Lists(keys, m.Keys) && |out| == |keys|
    requires forall j :: 0 <= j < |keys| ==> keys[j] in m && out[j] == m[keys[j]]
    ensures Listed(side, es, out)
  {
    forall j | 0 <= j < |keys| ensures IsBalanceOf(side, es, keys[j], out[j]) && out[j].accountID == keys[j] {
      assert keys[j] in m;
    }
    assert AccountsOf(out) == keys;
  }

  /** Every reported average latency is at most (n-1)/2 below the true mean, and never above it. */
  lemma ReportedLatencyDrift(side: Side, es: seq<Event>, id: string, b: Balance)
    requires IsBalanceOf(side, es, id, b)
    requires forall i :: 0 <= i < |es| ==> 0 <= es[i].body.latencyMs
    ensures 0 <= RunningAverage.Total(LatenciesOf(side, es, id)) - b.events * b.averageLatencyMs
              <= RunningAverage.Triangle(b.events)
  {
    LatenciesNonNegative(side, es, id);
    RunningAverage.DriftOneSided(LatenciesOf(side, es, id));
  }

  lemma {:induction false} LatenciesNonNegative(side: Side, es: seq<Event>, id: string)
    requires forall i :: 0 <= i < |es| ==> 0 <= es[i].body.latencyMs
    ensures forall i :: 0 <= i < |LatenciesOf(side, es, id)| ==> 0 <= LatenciesOf(side, es, id)[i]
  {
    if es != [] {
      LatenciesNonNegative(side, es[..|es| - 1], id);
    }
  }

  // ---- Conservation over a whole history ----------------------------------------------------

  function PriceOf(): Event -> int {
    (e: Event) => e.body.priceMicros
  }

  function ShareOf(): Event -> int {
    (e: Event) => if e.body.providerID == "" then 0 else e.body.rewardMicros + e.body.penaltyMicros
  }

  function DebitIn(es: seq<Event>): string -> int {
    (id: string) => Figure(Consumers, es, id, Debit)
  }

  function EarnedIn(es: seq<Event>): string -> int {
    (id: string) => Figure(Providers, es, id, Reward) + Figure(Providers, es, id, Penalty)
  }

  predicate Distinct(ids: seq<string>) {
    ids == [] || (ids[|ids| - 1] !in ids[..|ids| - 1] && Distinct(ids[..|ids| - 1]))
  }

  /** Two tallies that differ at one account only, summed over a list of distinct accounts. */
  lemma {:induction false} PointChange(ids: seq<string>, f: string -> int, g: string -> int, at: string)
    requires Distinct(ids)
    requires forall id :: id != at ==> f(id) == g(id)
    ensures SumBy(ids, g) - SumBy(ids, f) == if at in ids then g(at) - f(at) else 0
  {
    if ids != [] {
      var n := |ids| - 1;
      PointChange(ids[..n], f, g, at);
      assert ids == ids[..n] + [ids[n]];
    }
  }

  lemma {:induction false} DebitsArePrices(es: seq<Event>, ids: seq<string>)
    requires Distinct(ids) && forall i :: 0 <= i < |es| ==> es[i].body.consumerID in ids
    ensures SumBy(ids, DebitIn(es)) == SumBy(es, PriceOf())
  {
    if es == [] {
      SumZero(ids, DebitIn(es));
    } else {
      var n := |es| - 1;
      DebitsArePrices(es[..n], ids);
      PointChange(ids, DebitIn(es[..n]), DebitIn(es), es[n].body.consumerID);
    }
  }

  lemma {:induction false} EarningsAreShares(es: seq<Event>, ids: seq<string>)
    requires Distinct(ids) && "" !in ids
    requires forall i :: 0 <= i < |es| ==> Split(es[i].body)
    ensures SumBy(ids, EarnedIn(es)) <= SumBy(es, ShareOf())
  {
    if es == [] {
      SumZero(ids, EarnedIn(es));
    } else {
      var n := |es| - 1;
      EarningsAreShares(es[..n], ids);
      PointChange(ids, EarnedIn(es[..n]), EarnedIn(es), es[n].body.providerID);
    }
  }

  /** Over any accounts that include every consumer, what providers earned or forfeited was debited from some consumer. */
  lemma MoneyIsConservedOver(es: seq<Event>, consumers: seq<string>, providers: seq<string>)
    requires forall i :: 0 <= i < |es| ==> Split(es[i].body)
    requires Distinct(consumers) && forall i :: 0 <= i < |es| ==> es[i].body.consumerID in consumers
    requires Distinct(providers) && "" !in providers
    ensures SumBy(providers, EarnedIn(es)) <= SumBy(consumers, DebitIn(es))
  {
    DebitsArePrices(es, consumers);
    EarningsAreShares(es, providers);
    SumMonotone(es, es, ShareOf(), PriceOf());
  }

  // ---- Conservation in what is reported -----------------------------------------------------

  function Debited(): Balance -> int {
    (b: Balance) => b.debitMicros
  }

  function EarnedOrForfeited(): Balance -> int {
    (b: Balance) => b.rewardMicros + b.penaltyMicros
  }

  lemma {:induction false} SortedIsDistinct(ids: seq<string>)
    requires Sorted(ids)
    ensures Distinct(ids)
  {
    if ids != [] {
      var n := |ids| - 1;
      SortedIsDistinct(ids[..n]);
      if ids[n] in ids[..n] {
        var i :| 0 <= i < n && ids[..n][i] == ids[n];
        LessIsTotal(ids[i], ids[n]);
      }
    }
  }

  /**
   In the balances the ledger reports, consumers were debited exactly the prices of all events, and
   providers never have more than that.
   */
  lemma MoneyIsConserved(es: seq<Event>, consumers: seq<Balance>, providers: seq<Balance>)
    requires Listed(Consumers, es, consumers) && Listed(Providers, es, providers)
    requires forall i :: 0 <= i < |es| ==> Split(es[i].body) && es[i].body.consumerID != ""
    ensures SumBy(consumers, Debited()) == SumBy(es, PriceOf())
    ensures SumBy(providers, EarnedOrForfeited()) <= SumBy(consumers, Debited())
  {
    var payers, earners := AccountsOf(consumers), AccountsOf(providers);
    SortedIsDistinct(payers);
    SortedIsDistinct(earners);
    forall i | 0 <= i < |es| ensures es[i].body.consumerID in payers {
      assert es[i] in es && PartyOf(Consumers, es[i].body) in Parties(Consumers, es);
    }
    assert "" !in Parties(Providers, es);
    SumPointwise(consumers, payers, Debited(), DebitIn(es));
    SumPointwise(providers, earners, EarnedOrForfeited(), EarnedIn(es));
    DebitsArePrices(es, payers);
    MoneyIsConservedOver(es, payers, earners);
  }

  // ---- Every reported column ----------------------------------------------------------------

  function FigureIn(side: Side, es: seq<Event>, c: Column): string -> int {
    (id: string) => Figure(side, es, id, c)
  }

  /** A column's amounts of all events that name a party on this side. */
  function Named(side: Side, c: Column): Event -> int {
    (e: Event) => if PartyOf(side, e.body) == "" then 0 else Amount(side, c, e.body)
  }

  lemma {:induction false} ColumnTotals(side: Side, es: seq<Event>, ids: seq<string>, c: Column)
    requires Distinct(ids) && "" !in ids
    requires forall i :: 0 <= i < |es| ==> PartyOf(side, es[i].body) == "" || PartyOf(side, es[i].body) in ids
    ensures SumBy(ids, FigureIn(side, es, c)) == SumBy(es, Named(side, c))
  {
    if es == [] {
      SumZero(ids, FigureIn(side, es, c));
    } else {
      var n := |es| - 1;
      ColumnTotals(side, es[..n], ids, c);
      PointChange(ids, FigureIn(side, es[..n], c), FigureIn(side, es, c), PartyOf(side, es[n].body));
    }
  }

  function RewardOf(): Balance -> int {
    (b: Balance) => b.rewardMicros
  }

  function PenaltyOf(): Balance -> int {
    (b: Balance) => b.penaltyMicros
  }

  function RewardIn(): Event -> int {
    (e: Event) => if e.body.providerID == "" then 0 else e.body.rewardMicros
  }

  function PenaltyIn(): Event -> int {
    (e: Event) => if e.body.providerID == "" then 0 else e.body.penaltyMicros
  }

  lemma ListedParties(side: Side, es: seq<Event>, out: seq<Balance>)
    requires Listed(side, es, out)
    ensures Distinct(AccountsOf(out)) && "" !in AccountsOf(out)
    ensures forall i :: 0 <= i < |es| ==> PartyOf(side, es[i].body) == "" || PartyOf(side, es[i].body) in AccountsOf(out)
  {
    SortedIsDistinct(AccountsOf(out));
    forall i | 0 <= i < |es| && PartyOf(side, es[i].body) != "" ensures PartyOf(side, es[i].body) in AccountsOf(out) {
      assert es[i] in es && PartyOf(side, es[i].body) in Parties(side, es);
    }
    assert "" !in Parties(side, es);
  }

  /** Rewards reported are the rewards recorded, and penalties the penalties. */
  lemma RewardsAndPenaltiesAddUp(es: seq<Event>, providers: seq<Balance>)
    requires Listed(Providers, es, providers)
    ensures SumBy(providers, RewardOf()) == SumBy(es, RewardIn())
    ensures SumBy(providers, PenaltyOf()) == SumBy(es, PenaltyIn())
  {
    RewardsAddUp(es, providers);
    PenaltiesAddUp(es, providers);
  }

  lemma RewardsAddUp(es: seq<Event>, providers: seq<Balance>)
    requires Listed(Providers, es, providers)
    ensures SumBy(providers, RewardOf()) == SumBy(es, RewardIn())
  {
    var ids := AccountsOf(providers);
    ListedParties(Providers, es, providers);
    ColumnTotals(Providers, es, ids, Reward);
    SumPointwise(providers, ids, RewardOf(), FigureIn(Providers, es, Reward));
    SumPointwise(es, es, Named(Providers, Reward), RewardIn());
  }

  lemma PenaltiesAddUp(es: seq<Event>, providers: seq<Balance>)
    requires Listed(Providers, es, providers)
    ensures SumBy(providers, PenaltyOf()) == SumBy(es, PenaltyIn())
  {
    var ids := AccountsOf(providers);
    ListedParties(Providers, es, providers);
    ColumnTotals(Providers, es, ids, Penalty);
    SumPointwise(providers, ids, PenaltyOf(), FigureIn(Providers, es, Penalty));
    SumPointwise(es, es, Named(Providers, Penalty), PenaltyIn());
  }

  ghost predicate AllPriced(t: Tariff, es: seq<Event>) {
    forall i :: 0 <= i < |es| ==> Priced(t, es[i].body) && 0 <= es[i].body.totalTokens
  }

  ghost predicate AtTariff(t: Tariff, b: Body) {
    0 <= b.totalTokens && b.priceMicros == b.totalTokens * t.price / 1000
  }

  lemma {:induction false} DebitWindow(t: Tariff, es: seq<Event>, id: string)
    requires forall i :: 0 <= i < |es| ==> AtTariff(t, es[i].body)
    ensures 0 <= Figure(Consumers, es, id, Tokens) * t.price - 1000 * Figure(Consumers, es, id, Debit)
              <= 999 * Figure(Consumers, es, id, Events)
  {
    if es != [] {
      var n := |es| - 1;
      DebitWindow(t, es[..n], id);
      var before, last := Figure(Consumers, es[..n], id, Tokens), es[n].body.totalTokens;
      assert AtTariff(t, es[n].body);
      assert (before + last) * t.price == before * t.price + last * t.price;
      DivMod(last * t.price, 1000);
    }
  }

  /** Rounding each event down costs an account's debit less than one micro per further event. */
  lemma DebitRounding(t: Tariff, es: seq<Event>, id: string, b: Balance)
    requires AllPriced(t, es) && IsBalanceOf(Consumers, es, id, b) && b.events >= 1
    ensures b.totalTokens * t.price / 1000 - (b.events - 1) <= b.debitMicros <= b.totalTokens * t.price / 1000
  {
    DebitWindow(t, es, id);
  }

  // ---- The ledger object --------------------------------------------------------------------

  class Ledger {
    const enabled: bool
    const tariff: Tariff
    const digest: Digest<Body>
    /** Whether a SQLite or JSONL store is configured. */
    const stored: bool
    var store: seq<Event>
    var events: seq<Event>
    var lastHash: string

    ghost predicate Consistent()
      reads this
    {
      && Clamped(tariff)
      && lastHash == LastHash(events)
      && Valid(digest, events)
      && (stored ==> store == events)
    }

    constructor (enabled: bool, requested: Tariff, digest: Digest<Body>, stored: bool, store: seq<Event>)
      requires Valid(digest, store)
      ensures Consistent() && this.enabled == enabled && this.stored == stored && this.digest == digest
      ensures tariff == ClampTariff(requested)
      ensures events == if stored then store else []
    {
      this.enabled := enabled;
      this.tariff := ClampTariff(requested);
      this.digest := digest;
      this.stored := stored;
      this.store := store;
      this.events := if stored then store else [];
      this.lastHash := if stored then LastHash(store) else GENESIS;
    }

    /** Store first, memory second; a refused write leaves both as they were. */
    method Record(input: Input, now: int, storeOk: bool) returns (r: Result<Option<Event>, string>)
      requires Consistent()
      modifies this
      ensures Consistent()
      ensures !enabled ==> r == Ok(None) && events == old(events) && store == old(store)
      ensures enabled && stored && !storeOk ==> r.Err? && events == old(events) && store == old(store)
      ensures enabled && !(stored && !storeOk) ==>
                && events == Extend(digest, old(events), MakeBody(tariff, input, now))
                && r == Ok(Some(events[|events| - 1]))
      ensures AllPriced(tariff, old(events)) && 0 <= input.done.promptTokens + input.done.outputTokens ==>
                AllPriced(tariff, events)
    {
      if !enabled { return Ok(None); }
      var totalTokens := input.done.promptTokens + input.done.outputTokens;
      var priceMicros := PriceFor(tariff, totalTokens);
      var rewardMicros := Quo(priceMicros * tariff.shareBPS, 10000);
      var penaltyMicros := PenaltyFor(tariff, rewardMicros, input.latencyMs);
      var body := Body(now, input.requestID, input.consumerID, input.providerID, input.nodeID, input.model,
                       input.privacyTier, input.done.promptTokens, input.done.outputTokens, totalTokens,
                       input.latencyMs, input.attempts, priceMicros, rewardMicros - penaltyMicros, penaltyMicros);
      var event := Entry(|events| + 1, body, lastHash, "");
      event := event.(hash := HashEvent(digest, event));
      ExtendKeepsValid(digest, events, body);
      EventIsPriced(tariff, input, now);
      if stored {
        if !storeOk { return Err("store"); }
        store := store + [event];
      }
      events := events + [event];
      lastHash := event.hash;
      r := Ok(Some(event));
    }

    method Verify() returns (v: Verification)
      requires Consistent()
      ensures v == Verification(true, |events|, lastHash)
    {
      ghost var trusted;
      v, trusted := HashChain.Verify(digest, events);
      assert events[..|events|] == events;
    }
  }

  /** Opening a ledger on a store succeeds exactly on the valid chains. */
  method Open(enabled: bool, requested: Tariff, digest: Digest<Body>, stored: bool, store: seq<Event>)
    returns (r: Result<Ledger, string>)
    ensures r.Ok? <==> !stored || Valid(digest, store)
    ensures r.Ok? ==> fresh(r.value) && r.value.Consistent() && r.value.tariff == ClampTariff(requested)
    ensures r.Ok? ==> r.value.events == if stored then store else []
  {
    if stored {
      var v, _ := HashChain.Verify(digest, store);
      if !v.valid { return Err("invalid settlement chain"); }
    }
    var ledger := new Ledger(enabled, requested, digest, stored, if stored then store else []);
    r := Ok(ledger);
  }
}
