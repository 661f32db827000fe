/** Provider reputation: the report's accumulation, the score, the ranking, and its effect on routing. */
module Reputation {
  import opened Results
  import opened Sums
  import opened Ordering
  import Scheduler

  datatype Account = Account(id: string, disabled: bool)

  datatype Balance = Balance(accountID: string, events: int, totalTokens: int, rewardMicros: int, penaltyMicros: int)

  datatype Summary = Summary(providerID: string, challenges: int, passRate: int, averageScore: int)

  datatype NodeView = NodeView(id: string, providerID: string, active: int, errorStreak: int, healthy: bool, inCooldown: bool)

  datatype Item = Item(
    providerID: string, disabled: bool,
    totalNodes: int, healthyNodes: int, cooldownNodes: int, activeRequests: int, errorStreak: int,
    events: int, tokens: int, reward: int, penalty: int,
    challenges: int, passRate: int, challengeScore: int)

  datatype Rated = Rated(item: Item, score: int, grade: string)

  function Blank(id: string): Item {
    Item(id, false, 0, 0, 0, 0, 0, 0, 0, 0, 0, 0, 0, 0)
  }

  // ---- The score ----------------------------------------------------------------------------

  function Least(a: int, b: int): int {
    if a < b then a else b
  }

  function NodesPart(i: Item): int {
    if i.totalNodes <= 0 then 0 else Quo(30 * i.healthyNodes, i.totalNodes) - (if i.cooldownNodes > 0 then 10 * i.cooldownNodes else 0)
  }

  function WorkPart(i: Item): int {
    (if i.events > 0 then Least(15, i.events) else 0) + Least(10, Quo(i.tokens, 1000))
  }

  function FaultPart(i: Item): int {
    (if i.errorStreak > 0 then Least(25, i.errorStreak * 5) else 0)
    + (if i.penalty > 0 then Least(20, Quo(i.penalty, 100)) else 0)
  }

  function ChallengePart(i: Item): int {
    if i.challenges <= 0 then 0
    else Least(10, Quo(i.challengeScore, 10)) - (if i.passRate < 8000 then Least(25, Quo(8000 - i.passRate, 400)) else 0)
  }

  function Score(i: Item): int {
    if i.disabled then 0
    else Scheduler.ClampScore(40 + NodesPart(i) + WorkPart(i) - FaultPart(i) + ChallengePart(i))
  }

  method ScoreItem(i: Item) returns (value: int)
    requires 0 <= i.totalNodes
    ensures value == Score(i)
  {
    if i.disabled { return 0; }
    value := 40;
    if i.totalNodes != 0 {
      value := value + Quo(30 * i.healthyNodes, i.totalNodes);
      if i.cooldownNodes > 0 { value := value - 10 * i.cooldownNodes; }
    }
    assert value == 40 + NodesPart(i);
    if i.events > 0 { value := value + Least(15, i.events); }
    value := value + Least(10, Quo(i.tokens, 1000));
    assert value == 40 + NodesPart(i) + WorkPart(i);
    if i.errorStreak > 0 { value := value - Least(25, i.errorStreak * 5); }
    if i.penalty > 0 { value := value - Least(20, Quo(i.penalty, 100)); }
    assert value == 40 + NodesPart(i) + WorkPart(i) - FaultPart(i);
    if i.challenges > 0 {
      value := value + Least(10, Quo(i.challengeScore, 10));
      if i.passRate < 8000 { value := value - Least(25, Quo(8000 - i.passRate, 400)); }
    }
    assert value == 40 + NodesPart(i) + WorkPart(i) - FaultPart(i) + ChallengePart(i);
    if value < 0 { value := 0; }
    if value > 100 { value := 100; }
  }

  function Grade(score: int): string {
    if score >= 90 then "A" else if score >= 75 then "B" else if score >= 60 then "C" else if score >= 40 then "D" else "F"
  }

  /** A provider that one more or less of anything does not take to either end of the scale. */
  ghost predicate Typical(i: Item) {
    && !i.disabled && Score(i) <= 60
    && 0 < i.totalNodes && 0 <= i.healthyNodes <= i.totalNodes && i.cooldownNodes == 0
    && 0 < i.events < 15 && 1000 <= i.tokens < 9000 && i.errorStreak == 0 && i.penalty == 0
    && 0 < i.challenges && 8000 <= i.passRate && 10 <= i.challengeScore < 90
  }

  /** Forty to begin with, nothing for the disabled, and for nodes: thirty if all are healthy, ten off for each that rests. */
  lemma NodesWeigh(i: Item)
    requires Typical(i)
    ensures Score(Blank(i.providerID)) == 40 && Score(i.(disabled := true)) == 0
    ensures NodesPart(i.(healthyNodes := i.totalNodes)) == 30 && NodesPart(i.(healthyNodes := 0)) == 0
    ensures Score(i.(cooldownNodes := 1)) == Score(i) - 10
  {
    QuoBetween(30 * i.healthyNodes, i.totalNodes, 0, 30);
    QuoBetween(30 * i.totalNodes, i.totalNodes, 30, 30);
    QuoBetween(0, i.totalNodes, 0, 0);
  }

  /** One for each settled event up to fifteen, and one for each thousand tokens up to ten. */
  lemma WorkWeighs(i: Item)
    requires Typical(i)
    ensures Score(i.(events := i.events + 1)) == Score(i) + 1
    ensures WorkPart(i.(events := 15)) == WorkPart(i.(events := 1000))
    ensures Score(i.(tokens := i.tokens + 1000)) == Score(i) + 1
    ensures WorkPart(i.(tokens := 10000)) == WorkPart(i.(tokens := 99999))
  {
    QuoBetween(30 * i.healthyNodes, i.totalNodes, 0, 30);
  }

  /** Five off for each error in a row up to twenty-five, one off for each hundred forfeited up to twenty. */
  lemma FaultsWeigh(i: Item)
    requires Typical(i)
    ensures Score(i.(errorStreak := 1)) == Score(i) - 5
    ensures Score(i.(errorStreak := 5)) == Score(i.(errorStreak := 9)) == Score(i) - 25
    ensures Score(i.(penalty := 100)) == Score(i) - 1
    ensures Score(i.(penalty := 2000)) == Score(i.(penalty := 9000)) == Score(i) - 20
  {
    QuoBetween(30 * i.healthyNodes, i.totalNodes, 0, 30);
  }

  /** One for each ten points of challenge score up to ten, and one off for each four per cent short of four fifths passed. */
  lemma ChallengesWeigh(i: Item)
    requires Typical(i)
    ensures Score(i.(challengeScore := i.challengeScore + 10)) == Score(i) + 1
    ensures ChallengePart(i.(challengeScore := 100)) == ChallengePart(i.(challengeScore := 500))
    ensures Score(i.(passRate := 7600)) == Score(i) - 1 && Score(i.(passRate := 0)) == Score(i) - 20
  {
    QuoBetween(30 * i.healthyNodes, i.totalNodes, 0, 30);
  }

  /** Grades follow scores: A from 90, B from 75, C from 60, D from 40, F below. */
  lemma GradesFollowScores(score: int)
    ensures (Grade(score) == "A" <==> 90 <= score) && (Grade(score) == "B" <==> 75 <= score < 90)
    ensures (Grade(score) == "C" <==> 60 <= score < 75) && (Grade(score) == "D" <==> 40 <= score < 60)
    ensures Grade(score) == "F" <==> score < 40
  {
  }

  /** `b` is at least as good as `a` in everything the score looks at, over the same number of nodes. */
  ghost predicate AtLeastAsGood(a: Item, b: Item) {
    && (b.disabled ==> a.disabled)
    && a.totalNodes == b.totalNodes && a.healthyNodes <= b.healthyNodes && a.cooldownNodes >= b.cooldownNodes
    && a.errorStreak >= b.errorStreak && a.penalty >= b.penalty
    && a.events <= b.events && a.tokens <= b.tokens
    && (a.challenges > 0 <==> b.challenges > 0) && a.passRate <= b.passRate && a.challengeScore <= b.challengeScore
  }

  lemma NodesPartMonotone(a: Item, b: Item)
    requires AtLeastAsGood(a, b)
    ensures NodesPart(a) <= NodesPart(b)
  {
    if a.totalNodes > 0 {
      QuoMonotone(30 * a.healthyNodes, 30 * b.healthyNodes, a.totalNodes);
    }
  }

  lemma ChallengePartMonotone(a: Item, b: Item)
    requires AtLeastAsGood(a, b)
    ensures ChallengePart(a) <= ChallengePart(b)
  {
    QuoMonotone(a.challengeScore, b.challengeScore, 10);
    QuoMonotone(8000 - b.passRate, 8000 - a.passRate, 400);
    if a.passRate < 8000 { QuoMonotone(0, 8000 - a.passRate, 400); }
  }

  lemma WorkPartMonotone(a: Item, b: Item)
    requires AtLeastAsGood(a, b)
    ensures WorkPart(a) <= WorkPart(b)
  {
    QuoMonotone(a.tokens, b.tokens, 1000);
  }

  lemma FaultPartMonotone(a: Item, b: Item)
    requires AtLeastAsGood(a, b)
    ensures FaultPart(b) <= FaultPart(a)
  {
    QuoMonotone(b.penalty, a.penalty, 100);
    if a.penalty > 0 { QuoMonotone(0, a.penalty, 100); }
  }

  /** The score is within 0..100 and never prefers the worse of two providers. */
  lemma ScoreIsMonotone(a: Item, b: Item)
    requires AtLeastAsGood(a, b)
    ensures 0 <= Score(a) <= Score(b) <= 100
  {
    NodesPartMonotone(a, b);
    ChallengePartMonotone(a, b);
    WorkPartMonotone(a, b);
    FaultPartMonotone(a, b);
  }

  /** Reputation reaches routing the right way round: the better provider's node is never the dearer one. */
  lemma BetterProviderIsNeverDearer(n: Scheduler.NodeState, scores: map<string, int>, a: Item, b: Item)
    requires AtLeastAsGood(a, b) && a.providerID != "" && b.providerID != ""
    requires a.providerID in scores && scores[a.providerID] == Score(a)
    requires b.providerID in scores && scores[b.providerID] == Score(b)
    ensures Scheduler.Cost(n, Scheduler.ScoreOf(scores, b.providerID)) <= Scheduler.Cost(n, Scheduler.ScoreOf(scores, a.providerID))
  {
    ScoreIsMonotone(a, b);
    Scheduler.CostOrder(n, Scheduler.ScoreOf(scores, a.providerID), Scheduler.ScoreOf(scores, b.providerID));
  }

  // ---- Accumulation -------------------------------------------------------------------------

  type Items = map<string, Item>

  /** Every entry sits under its provider's id. */
  ghost predicate UnderOwnIds(items: Items) {
    forall id :: id in items ==> items[id].providerID == id && 0 <= items[id].totalNodes
  }

  function Key(id: string): string {
    if id == "" then "unknown" else id
  }

  /** providerItem: the entry of an id, a blank one if there is none. */
  function Entry(items: Items, id: string): Item {
    if Key(id) in items then items[Key(id)] else Blank(Key(id))
  }

  function AddAccount(items: Items, a: Account): Items {
    items[a.id := Blank(a.id).(disabled := a.disabled)]
  }

  function AddBalance(items: Items, b: Balance): Items {
    items[Key(b.accountID) := Entry(items, b.accountID).(events := b.events, tokens := b.totalTokens,
                                                        reward := b.rewardMicros, penalty := b.penaltyMicros)]
  }

  function AddSummary(items: Items, s: Summary): Items {
    items[Key(s.providerID) := Entry(items, s.providerID).(challenges := s.challenges, passRate := s.passRate,
                                                           challengeScore := s.averageScore)]
  }

  function Owner(n: NodeView): string {
    Key(if n.providerID == "" then n.id else n.providerID)
  }

  function B(b: bool): int {
    if b then 1 else 0
  }

  function WithNode(i: Item, n: NodeView): Item {
    i.(totalNodes := i.totalNodes + 1, activeRequests := i.activeRequests + n.active,
       errorStreak := i.errorStreak + n.errorStreak, healthyNodes := i.healthyNodes + B(n.healthy),
       cooldownNodes := i.cooldownNodes + B(n.inCooldown))
  }

  function AddNode(items: Items, n: NodeView): Items {
    items[Owner(n) := WithNode(Entry(items, Owner(n)), n)]
  }

  function AfterAccounts(items: Items, s: seq<Account>): (after: Items)
    ensures UnderOwnIds(items) ==> UnderOwnIds(after)
  {
    if s == [] then items else AddAccount(AfterAccounts(items, s[..|s| - 1]), s[|s| - 1])
  }

  function AfterBalances(items: Items, s: seq<Balance>): (after: Items)
    ensures UnderOwnIds(items) ==> UnderOwnIds(after)
  {
    if s == [] then items else AddBalance(AfterBalances(items, s[..|s| - 1]), s[|s| - 1])
  }

  function AfterSummaries(items: Items, s: seq<Summary>): (after: Items)
    ensures UnderOwnIds(items) ==> UnderOwnIds(after)
  {
    if s == [] then items else AddSummary(AfterSummaries(items, s[..|s| - 1]), s[|s| - 1])
  }

  function AfterNodes(items: Items, s: seq<NodeView>): (after: Items)
    ensures UnderOwnIds(items) ==> UnderOwnIds(after)
  {
    if s == [] then items else AddNode(AfterNodes(items, s[..|s| - 1]), s[|s| - 1])
  }

  function Collected(accounts: seq<Account>, balances: seq<Balance>, summaries: seq<Summary>, nodes: seq<NodeView>): Items {
    AfterNodes(AfterSummaries(AfterBalances(AfterAccounts(map[], accounts), balances), summaries), nodes)
  }

  function Owned(id: string): NodeView -> int {
    (n: NodeView) => B(Owner(n) == id)
  }

  function OwnedActive(id: string): NodeView -> int {
    (n: NodeView) => if Owner(n) == id then n.active else 0
  }

  function OwnedErrors(id: string): NodeView -> int {
    (n: NodeView) => if Owner(n) == id then n.errorStreak else 0
  }

  function OwnedHealthy(id: string): NodeView -> int {
    (n: NodeView) => B(Owner(n) == id && n.healthy)
  }

  function OwnedCooling(id: string): NodeView -> int {
    (n: NodeView) => B(Owner(n) == id && n.inCooldown)
  }

  function WithNodes(i: Item, nodes: seq<NodeView>, id: string): Item {
    i.(totalNodes := i.totalNodes + SumBy(nodes, Owned(id)),
       activeRequests := i.activeRequests + SumBy(nodes, OwnedActive(id)),
       errorStreak := i.errorStreak + SumBy(nodes, OwnedErrors(id)),
       healthyNodes := i.healthyNodes + SumBy(nodes, OwnedHealthy(id)),
       cooldownNodes := i.cooldownNodes + SumBy(nodes, OwnedCooling(id)))
  }

  lemma OneMoreNode(i: Item, nodes: seq<NodeView>, n: NodeView, id: string)
    ensures WithNodes(i, nodes + [n], id) == if Owner(n) == id then WithNode(WithNodes(i, nodes, id), n) else WithNodes(i, nodes, id)
  {
    SumAppend(nodes, n, Owned(id));
    SumAppend(nodes, n, OwnedActive(id));
    SumAppend(nodes, n, OwnedErrors(id));
    SumAppend(nodes, n, OwnedHealthy(id));
    SumAppend(nodes, n, OwnedCooling(id));
  }

  /** A provider's node figures are sums over its own nodes; everything else it had is kept. */
  lemma {:induction false} NodesAreCounted(items: Items, nodes: seq<NodeView>, id: string)
    requires id != ""
    ensures id in AfterNodes(items, nodes) <==> id in items || exists n :: n in nodes && Owner(n) == id
    ensures id in AfterNodes(items, nodes) ==> AfterNodes(items, nodes)[id] == WithNodes(Entry(items, id), nodes, id)
    ensures id !in AfterNodes(items, nodes) ==> WithNodes(Blank(id), nodes, id) == Blank(id)
  {
    if nodes != [] {
      var rest, n := nodes[..|nodes| - 1], nodes[|nodes| - 1];
      NodesAreCounted(items, rest, id);
      assert nodes == rest + [n];
      OneMoreNode(Entry(items, id), rest, n, id);
      OneMoreNode(Blank(id), rest, n, id);
    }
  }

  /** The last settlement balance or challenge summary of a provider. */
  function LastBalance(s: seq<Balance>, id: string): Option<Balance> {
    if s == [] then None
    else if Key(s[|s| - 1].accountID) == id then Some(s[|s| - 1]) else LastBalance(s[..|s| - 1], id)
  }

  function LastSummary(s: seq<Summary>, id: string): Option<Summary> {
    if s == [] then None
    else if Key(s[|s| - 1].providerID) == id then Some(s[|s| - 1]) else LastSummary(s[..|s| - 1], id)
  }

  lemma {:induction false} BalancesAreCopied(items: Items, s: seq<Balance>, id: string)
    requires id != ""
    ensures id in AfterBalances(items, s) <==> id in items || LastBalance(s, id).Some?
    ensures id in AfterBalances(items, s) ==>
              AfterBalances(items, s)[id] ==
              if LastBalance(s, id).None? then items[id]
              else
                var b := LastBalance(s, id).value;
                Entry(items, id).(events := b.events, tokens := b.totalTokens, reward := b.rewardMicros, penalty := b.penaltyMicros)
  {
    if s != [] {
      BalancesAreCopied(items, s[..|s| - 1], id);
    }
  }

  lemma {:induction false} SummariesAreCopied(items: Items, s: seq<Summary>, id: string)
    requires id != ""
    ensures id in AfterSummaries(items, s) <==> id in items || LastSummary(s, id).Some?
    ensures id in AfterSummaries(items, s) ==>
              AfterSummaries(items, s)[id] ==
              if LastSummary(s, id).None? then items[id]
              else
                var c := LastSummary(s, id).value;
                Entry(items, id).(challenges := c.challenges, passRate := c.passRate, challengeScore := c.averageScore)
  {
    if s != [] {
      SummariesAreCopied(items, s[..|s| - 1], id);
    }
  }

  function LastAccount(s: seq<Account>, id: string): Option<Account> {
    if s == [] then None
    else if s[|s| - 1].id == id then Some(s[|s| - 1]) else LastAccount(s[..|s| - 1], id)
  }

  lemma {:induction false} AccountsAreCopied(s: seq<Account>, id: string)
    ensures id in AfterAccounts(map[], s) <==> LastAccount(s, id).Some?
    ensures id in AfterAccounts(map[], s) ==>
              AfterAccounts(map[], s)[id] == Blank(id).(disabled := LastAccount(s, id).value.disabled)
  {
    if s != [] {
      AccountsAreCopied(s[..|s| - 1], id);
    }
  }

  /** Every figure of a provider traces back to its own account, balance, summary and nodes, and to no one else's. */
  lemma ItemIsItsSources(accounts: seq<Account>, balances: seq<Balance>, summaries: seq<Summary>, nodes: seq<NodeView>, id: string)
    requires id != ""
    ensures var items := Collected(accounts, balances, summaries, nodes);
            var (a, b, c) := (LastAccount(accounts, id), LastBalance(balances, id), LastSummary(summaries, id));
            && (id in items <==> a.Some? || b.Some? || c.Some? || exists n :: n in nodes && Owner(n) == id)
            && (id in items ==>
                  items[id] == Item(id, a.Some? && a.value.disabled,
                                    SumBy(nodes, Owned(id)), SumBy(nodes, OwnedHealthy(id)), SumBy(nodes, OwnedCooling(id)),
                                    SumBy(nodes, OwnedActive(id)), SumBy(nodes, OwnedErrors(id)),
                                    if b.Some? then b.value.events else 0, if b.Some? then b.value.totalTokens else 0,
                                    if b.Some? then b.value.rewardMicros else 0, if b.Some? then b.value.penaltyMicros else 0,
                                    if c.Some? then c.value.challenges else 0, if c.Some? then c.value.passRate else 0,
                                    if c.Some? then c.value.averageScore else 0))
  {
    var first := AfterAccounts(map[], accounts);
    var second := AfterBalances(first, balances);
    AccountsAreCopied(accounts, id);
    BalancesAreCopied(first, balances, id);
    SummariesAreCopied(second, summaries, id);
    NodesAreCounted(AfterSummaries(second, summaries), nodes, id);
  }

  // ---- The report ---------------------------------------------------------------------------

  type Ratings = map<string, Rated>

  function Rate(i: Item): Rated {
    Rated(i, Score(i), Grade(Score(i)))
  }

  function RateAll(items: Items): Ratings {
    map id | id in items :: Rate(items[id])
  }

  ghost predicate WellRated(ratings: Ratings) {
    forall id :: id in ratings ==> ratings[id].item.providerID == id && 0 <= ratings[id].score <= 100
  }

  /** The order of the report: higher scores first, ids in order within a score. */
  predicate Outranks(a: Rated, b: Rated) {
    a.score > b.score || (a.score == b.score && Less(a.item.providerID, b.item.providerID))
  }

  ghost predicate InOrder(s: seq<Rated>) {
    forall i, j :: 0 <= i < j < |s| ==> Outranks(s[i], s[j])
  }

  /** Every provider's rating, once, in order. */
  ghost predicate Ranked(out: seq<Rated>, ratings: Ratings) {
    && InOrder(out)
    && (forall r :: r in out ==> Genuine(r, ratings))
    && (forall id :: id in ratings ==> ratings[id] in out)
  }

  ghost predicate Genuine(r: Rated, ratings: Ratings) {
    r.item.providerID in ratings && r == ratings[r.item.providerID]
  }

  /** Best first: scores fall along the report, and within a score the ids rise. */
  lemma BestComesFirst(out: seq<Rated>, ratings: Ratings, i: nat, j: nat)
    requires Ranked(out, ratings) && i < j < |out|
    ensures out[i].score >= out[j].score
    ensures out[i].score == out[j].score ==> Less(out[i].item.providerID, out[j].item.providerID)
  {
    assert Outranks(out[i], out[j]);
  }

  /** A node counts for its provider, for itself if it names none, and for "unknown" if it has no id either. */
  lemma OwnerIsNamed(n: NodeView)
    ensures n.providerID != "" ==> Owner(n) == n.providerID
    ensures n.providerID == "" && n.id != "" ==> Owner(n) == n.id
    ensures n.providerID == "" && n.id == "" ==> Owner(n) == "unknown"
  {
  }

  /** A string that sorts as the report does. */
  function RankKey(r: Rated): string
    requires 0 <= r.score <= 100
  {
    [(100 - r.score) as char] + r.item.providerID
  }

  lemma RankKeyOrder(a: Rated, b: Rated)
    requires 0 <= a.score <= 100 && 0 <= b.score <= 100
    ensures Less(RankKey(a), RankKey(b)) <==> Outranks(a, b)
    ensures RankKey(a) == RankKey(b) ==> a.score == b.score && a.item.providerID == b.item.providerID
  {
    assert RankKey(a)[1..] == a.item.providerID && RankKey(b)[1..] == b.item.providerID;
  }

  ghost function RankKeys(ratings: Ratings): set<string>
    requires WellRated(ratings)
  {
    set id | id in ratings :: RankKey(ratings[id])
  }

  ghost function KeysOf(out: seq<Rated>): seq<string>
    requires forall r :: r in out ==> 0 <= r.score <= 100
  {
    seq(|out|, i requires 0 <= i < |out| => RankKey(out[i]))
  }

  lemma RankedLists(out: seq<Rated>, ratings: Ratings)
    requires WellRated(ratings) && Ranked(out, ratings)
    ensures Lists(KeysOf(out), RankKeys(ratings))
  {
    var keys := KeysOf(out);
    forall i, j | 0 <= i < j < |keys| ensures Less(keys[i], keys[j]) {
      RankKeyOrder(out[i], out[j]);
    }
    forall k ensures k in keys <==> k in RankKeys(ratings) {
      if k in keys {
        var i :| 0 <= i < |keys| && keys[i] == k;
        assert out[i] in out;
      }
      if k in RankKeys(ratings) {
        var id :| id in ratings && k == RankKey(ratings[id]);
        var i :| 0 <= i < |out| && out[i] == ratings[id];
        assert keys[i] == k;
      }
    }
  }

  /** The report is the same whatever order the providers were visited in. */
  lemma RankingIsUnique(a: seq<Rated>, b: seq<Rated>, ratings: Ratings)
    requires WellRated(ratings) && Ranked(a, ratings) && Ranked(b, ratings)
    ensures a == b
  {
    RankedLists(a, ratings);
    RankedLists(b, ratings);
    ListingIsUnique(KeysOf(a), KeysOf(b), RankKeys(ratings));
    assert |KeysOf(a)| == |KeysOf(b)|;
    forall i | 0 <= i < |a| ensures a[i] == b[i] {
      assert a[i] in a && b[i] in b && KeysOf(a)[i] == KeysOf(b)[i];
      RankKeyOrder(a[i], b[i]);
    }
  }

  method AddBalances(start: Items, balances: seq<Balance>) returns (items: Items)
    ensures items == AfterBalances(start, balances)
  {
    items := start;
    for i := 0 to |balances|
      invariant items == AfterBalances(start, balances[..i])
    {
      assert balances[..i + 1][..i] == balances[..i];
      items := AddBalance(items, balances[i]);
    }
    assert balances[..|balances|] == balances;
  }

  method AddSummaries(start: Items, summaries: seq<Summary>) returns (items: Items)
    ensures items == AfterSummaries(start, summaries)
  {
    items := start;
    for i := 0 to |summaries|
      invariant items == AfterSummaries(start, summaries[..i])
    {
      assert summaries[..i + 1][..i] == summaries[..i];
      items := AddSummary(items, summaries[i]);
    }
    assert summaries[..|summaries|] == summaries;
  }

  /** Four passes fill the map; then every provider is scored, graded and ranked. */
  method Build(accounts: seq<Account>, balances: seq<Balance>, summaries: seq<Summary>, nodes: seq<NodeView>) returns (out: seq<Rated>)
    ensures Ranked(out, RateAll(Collected(accounts, balances, summaries, nodes)))
  {
    var items: Items := map[];
    for i := 0 to |accounts|
      invariant items == AfterAccounts(map[], accounts[..i])
    {
      assert accounts[..i + 1][..i] == accounts[..i];
      items := AddAccount(items, accounts[i]);
    }
    assert accounts[..|accounts|] == accounts;
    items := AddBalances(items, balances);
    items := AddSummaries(items, summaries);
    for i := 0 to |nodes|
      invariant items == AfterNodes(AfterSummaries(AfterBalances(AfterAccounts(map[], accounts), balances), summaries), nodes[..i])
    {
      assert nodes[..i + 1][..i] == nodes[..i];
      items := AddNode(items, nodes[i]);
    }
    assert nodes[..|nodes|] == nodes;
    var ratings := ScoreAll(items);
    out := Rank(ratings);
  }

  method ScoreAll(items: Items) returns (ratings: Ratings)
    requires UnderOwnIds(items)
    ensures ratings == RateAll(items) && WellRated(ratings)
  {
    ratings := map[];
    var rest := items.Keys;
    while rest != {}
      invariant rest <= items.Keys
      invariant forall id :: id in ratings <==> id in items && id !in rest
      invariant forall id :: id in ratings ==> ratings[id] == Rate(items[id])
      decreases rest
    {
      var id :| id in rest;
      rest := rest - {id};
      var score := ScoreItem(items[id]);
      ratings := ratings[id := Rated(items[id], score, Grade(score))];
    }
  }

  /** Sorting by score, then id. */
  method Rank(ratings: Ratings) returns (out: seq<Rated>)
    requires WellRated(ratings)
    ensures Ranked(out, ratings)
  {
    out := [];
    var rest := ratings.Keys;
    while rest != {}
      invariant rest <= ratings.Keys
      invariant Ranked(out, ratings - rest)
      decreases rest
    {
      var id :| id in rest;
      out := Place(out, ratings[id], ratings - rest);
      assert (ratings - rest)[id := ratings[id]] == ratings - (rest - {id});
      rest := rest - {id};
    }
    assert ratings - rest == ratings;
  }

  method Place(s: seq<Rated>, x: Rated, ghost placed: Ratings) returns (out: seq<Rated>)
    requires Ranked(s, placed) && x.item.providerID !in placed
    ensures Ranked(out, placed[x.item.providerID := x])
  {
    var i := 0;
    while i < |s| && Outranks(s[i], x)
      invariant 0 <= i <= |s|
      invariant forall j :: 0 <= j < i ==> Outranks(s[j], x)
    {
      i := i + 1;
    }
    out := s[..i] + [x] + s[i..];
    RanksBelow(s, i, x, placed);
    PlacedInOrder(s, i, x);
    PlacedHasAll(s, i, x);
    PlacedIsGenuine(s, i, x, placed);
  }

  lemma PlacedInOrder(s: seq<Rated>, i: nat, x: Rated)
    requires InOrder(s) && i <= |s|
    requires (forall j :: 0 <= j < i ==> Outranks(s[j], x)) && (forall j :: i <= j < |s| ==> Outranks(x, s[j]))
    ensures InOrder(s[..i] + [x] + s[i..])
  {
  }

  lemma PlacedHasAll(s: seq<Rated>, i: nat, x: Rated)
    requires i <= |s|
    ensures forall r :: r in s[..i] + [x] + s[i..] <==> r == x || r in s
  {
    assert s == s[..i] + s[i..];
  }

  lemma PlacedIsGenuine(s: seq<Rated>, i: nat, x: Rated, placed: Ratings)
    requires i <= |s| && x.item.providerID !in placed && forall r :: r in s ==> Genuine(r, placed)
    ensures forall r :: r in s[..i] + [x] + s[i..] ==> Genuine(r, placed[x.item.providerID := x])
  {
    PlacedHasAll(s, i, x);
  }

  /** The first entry that does not outrank `x` is outranked by it, and so is all that follows. */
  lemma RanksBelow(s: seq<Rated>, i: nat, x: Rated, placed: Ratings)
    requires Ranked(s, placed) && x.item.providerID !in placed
    requires i <= |s| && (i < |s| ==> !Outranks(s[i], x))
    ensures forall j :: i <= j < |s| ==> Outranks(x, s[j])
  {
    forall j | i <= j < |s| ensures Outranks(x, s[j]) {
      assert Genuine(s[i], placed);
      OutranksIsStrict(s[i], x, x);
      if i < j { OutranksIsStrict(x, s[i], s[j]); }
    }
  }

  lemma OutranksIsStrict(a: Rated, b: Rated, c: Rated)
    ensures Outranks(a, b) || Outranks(b, a) || (a.score == b.score && a.item.providerID == b.item.providerID)
    ensures Outranks(a, b) && Outranks(b, c) ==> Outranks(a, c)
  {
    LessIsTotal(a.item.providerID, b.item.providerID);
    if Less(a.item.providerID, b.item.providerID) && Less(b.item.providerID, c.item.providerID) {
      LessIsTransitive(a.item.providerID, b.item.providerID, c.item.providerID);
    }
  }
}
