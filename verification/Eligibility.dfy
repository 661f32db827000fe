/** From what a node says of itself to the requests it gets: capacity, hardware, freshness, rest and cost. */
module Eligibility {
  import opened Results
  import opened Sums
  import opened Scheduler
  import P = Privacy

  /** How many requests a registration message allows at once. */
  function Slots(msg: Registration): int {
    if msg.maxConcurrent >= 1 then msg.maxConcurrent else 1
  }

  /** A registration's record says what the message said. */
  lemma RecordIsTheMessage(r: RegistryState, msg: Registration, now: int)
    ensures msg.nodeID in Apply(r, Register(msg, now)).view
    ensures var n := Apply(r, Register(msg, now)).view[msg.nodeID];
            && n.profile.maxConcurrent == Slots(msg) && n.active == 0
            && n.profile.providerID == msg.providerID
            && n.profile.backend == msg.backend && n.profile.deviceKind == msg.deviceKind && n.profile.soc == msg.soc
            && (forall x :: x in n.profile.accelerators <==> x in msg.accelerators && x != "")
            && (forall m :: m in n.models <==> m in msg.models)
            && n.lastSeen == now && n.cooldownUntil == 0 && n.errorStreak == 0
            && n.completed == n.failed == n.preToken == n.postToken == n.queueDepth == 0
    ensures forall other :: other != msg.nodeID ==>
              && (other in Apply(r, Register(msg, now)).view <==> other in r.view)
              && (other in r.view ==> Apply(r, Register(msg, now)).view[other] == r.view[other])
  {
  }

  /** Whether hardware asked for is hardware the message names; nothing asked for is always there. */
  ghost predicate Offers(fold: Fold, msg: Registration, req: Request) {
    && (req.backend == "" || fold(msg.backend) == fold(req.backend))
    && (req.deviceKind == "" || fold(msg.deviceKind) == fold(req.deviceKind))
    && (req.soc == "" || fold(msg.soc) == fold(req.soc))
    && forall x :: x in req.accelerators && x != "" ==> exists y :: y in msg.accelerators && y != "" && fold(y) == fold(x)
  }

  /**
   Exactly when a node that has just registered is eligible, read off its message: its provider is
   the targeted one, it was heard of less than 20 seconds ago, it lists the model, takes the tier and
   has the hardware. Capacity cannot stand in the way.
   */
  lemma NewNodeIsEligible(fold: Fold, msg: Registration, now: int, req: Request, providerID: string, t: int)
    ensures Eligible(fold, NewNode(msg, now), req, providerID, t) <==>
              && (providerID == "" || msg.providerID == providerID)
              && t < now + 20_000_000_000
              && req.model in msg.models
              && AcceptsPrivacy(ProfileOf(msg), req.privacyTier)
              && Offers(fold, msg, req)
  {
    var n := NewNode(msg, now);
    assert forall y :: y in n.profile.accelerators <==> y in msg.accelerators && y != "";
    if Offers(fold, msg, req) {
      forall x | x in req.accelerators && x != "" ensures exists y :: y in n.profile.accelerators && fold(y) == fold(x) {
        var y :| y in msg.accelerators && y != "" && fold(y) == fold(x);
        assert y in n.profile.accelerators;
      }
    }
    if Matches(fold, n.profile, req) {
      forall x | x in req.accelerators && x != "" ensures exists y :: y in msg.accelerators && y != "" && fold(y) == fold(x) {
        var y :| y in n.profile.accelerators && fold(y) == fold(x);
      }
    }
  }

  /** A record takes exactly the tiers it lists, and only private requests if it lists none; no tier means private. */
  lemma TiersDecide(p: Profile, tier: string)
    ensures var t := if tier == "" then "private" else tier;
            AcceptsPrivacy(p, tier) <==> P.IsTier(t) && (t in p.privacyTiers || (p.privacyTiers == {} && t == "private"))
  {
  }

  /** A heartbeat decides model, load and freshness from then on: a node serves what it last listed, while it has a slot. */
  lemma HeartbeatDecides(fold: Fold, r: RegistryState, id: string, models: seq<string>, active: int, queueDepth: int, load: real,
                         now: int, req: Request, providerID: string, t: int)
    requires id in r.view
    ensures var n := Apply(r, Heartbeat(id, models, active, queueDepth, load, now)).view[id];
            Eligible(fold, n, req, providerID, t) ==>
              req.model in models && active < r.view[id].profile.maxConcurrent && t < now + 20_000_000_000
  {
  }

  /** A node is left alone for ten seconds per early failure in a row, at most a minute, and is back after a success. */
  lemma FailedNodeRests(fold: Fold, r: RegistryState, id: string, now: int, later: int, req: Request, providerID: string, t: int)
    requires id in r.view && 0 <= r.view[id].errorStreak && 0 <= now
    ensures var n := Apply(r, RecordPreToken(id, now, later)).view[id];
            var rest := (r.view[id].errorStreak + 1) * 10_000_000_000;
            && (InCooldown(n, t) <==> t < now + rest && t < now + 60_000_000_000)
            && (Eligible(fold, n, req, providerID, t) ==> now + rest <= t || now + 60_000_000_000 <= t)
    ensures forall o: Observation :: !InCooldown(Apply(r, RecordSuccess(id, o)).view[id], t)
  {
  }

  // ---- Cost ---------------------------------------------------------------------------------

  /** Everything the cost looks at is at least as bad in `b`. */
  ghost predicate AtLeastAsBad(a: NodeState, b: NodeState) {
    && 0 < a.profile.maxConcurrent == b.profile.maxConcurrent
    && a.active <= b.active && a.queueDepth <= b.queueDepth && a.loadAverage <= b.loadAverage
    && a.errorStreak <= b.errorStreak && 0 <= a.failed <= b.failed && 0 <= b.completed <= a.completed
    && a.latencyMs <= b.latencyMs && a.ttftMs <= b.ttftMs
    && (a.tokensPerSecond == b.tokensPerSecond || 0.0 < b.tokensPerSecond <= a.tokensPerSecond)
  }

  lemma RateFalls(completed: nat, fewer: nat, failed: nat)
    requires fewer <= completed
    ensures FailureShare(completed, failed) <= FailureShare(fewer, failed)
  {
    if 0 < fewer + failed {
      var q := Quo(failed * 10000, completed + failed);
      QuoBetween(failed * 10000, completed + failed, 0, 10000);
      QuoRemainder(failed * 10000, completed + failed);
      Scale(fewer + failed, completed + failed, q);
      QuoBetween(failed * 10000, fewer + failed, q, 10000);
    } else if 0 < completed {
      QuoBetween(0, completed, 0, 0);
    }
  }

  function FailureShare(completed: nat, failed: nat): int {
    if completed + failed == 0 then 0 else Quo(failed * 10000, completed + failed)
  }

  /** A node that is busier, slower or less reliable is never cheaper. */
  lemma WorseNodeIsNeverCheaper(a: NodeState, b: NodeState, score: int, worse: int)
    requires AtLeastAsBad(a, b) && worse <= score
    ensures Cost(a, score) <= Cost(b, worse)
  {
    RateRises(a.completed, a.failed, b.failed);
    RateFalls(a.completed, b.completed, b.failed);
    assert FailureRate(a) == FailureShare(a.completed, a.failed) && FailureRate(b) == FailureShare(b.completed, b.failed);
    UseRises(a.active, b.active, a.profile.maxConcurrent);
  }

  lemma UseRises(active: int, more: int, slots: int)
    requires active <= more && 0 < slots
    ensures active as real / slots as real <= more as real / slots as real
  {
  }

  /** What each figure weighs, one more of it at a time: the load. */
  lemma LoadWeighs(n: NodeState, score: int, load: real)
    requires 0 < n.profile.maxConcurrent
    ensures Cost(n.(active := n.active + 1), score) == Cost(n, score) + 20.0 / n.profile.maxConcurrent as real
    ensures Cost(n.(queueDepth := n.queueDepth + 1), score) == Cost(n, score) + 5.0
    ensures Cost(n.(loadAverage := n.loadAverage + load), score) == Cost(n, score) + load
  {
    UseGrows(n.active, n.profile.maxConcurrent);
  }

  lemma UseGrows(active: int, slots: int)
    requires 0 < slots
    ensures (active + 1) as real / slots as real * 20.0 == active as real / slots as real * 20.0 + 20.0 / slots as real
  {
  }

  /** The record of outcomes and the provider's score. */
  lemma RecordWeighs(n: NodeState, score: int)
    ensures Cost(n.(errorStreak := n.errorStreak + 1), score) == Cost(n, score) + 8.0
    ensures Cost(n, score - 5) == Cost(n, score) + 1.0
    ensures n.completed == 0 && n.failed == 0 ==> Cost(n, score) == Cost(n.(completed := 1), score) + 8.0
    ensures n.completed == 1 && n.failed == 0 ==> Cost(n.(failed := 1), score) == Cost(n, score) + 10.0
  {
    RateExamples(n);
  }

  lemma RateExamples(n: NodeState)
    ensures n.completed == 0 && n.failed == 0 ==> FailureRate(n) == 0 && FailureRate(n.(completed := 1)) == 0
    ensures n.completed == 1 && n.failed == 0 ==> FailureRate(n) == 0 && FailureRate(n.(failed := 1)) == 5000
  {
  }

  /** The observed speed: a second of latency, half a second to the first token, a token per second less, each up to its cap. */
  lemma SpeedWeighs(n: NodeState, score: int)
    ensures n.latencyMs <= 19000.0 ==> Cost(n.(latencyMs := n.latencyMs + 1000.0), score) == Cost(n, score) + 1.0
    ensures n.latencyMs >= 20000.0 ==> Cost(n.(latencyMs := n.latencyMs + 1000.0), score) == Cost(n, score)
    ensures n.ttftMs <= 4500.0 ==> Cost(n.(ttftMs := n.ttftMs + 500.0), score) == Cost(n, score) + 1.0
    ensures n.ttftMs >= 5000.0 ==> Cost(n.(ttftMs := n.ttftMs + 500.0), score) == Cost(n, score)
    ensures 1.0 < n.tokensPerSecond <= 10.0 ==> Cost(n.(tokensPerSecond := n.tokensPerSecond - 1.0), score) == Cost(n, score) + 1.0
  {
  }

  /** A provider nobody has rated counts as seventy; a rating counts as the nearest value from nothing to a hundred. */
  lemma ScoresAreNearest(r: RegistryState, scores: map<string, int>, providerID: string)
    ensures var known := Apply(r, SetScores(scores)).scores;
            ScoreOf(known, providerID) ==
            if providerID == "" || providerID !in scores then 70
            else if scores[providerID] < 0 then 0 else if scores[providerID] > 100 then 100 else scores[providerID]
  {
  }

  /** A new sample moves a metric a fifth of the way towards itself; the first one sets it. */
  lemma SampleMovesAFifth(current: real, sample: real)
    ensures sample <= 0.0 ==> Ewma(current, sample) == current
    ensures sample > 0.0 && current <= 0.0 ==> Ewma(current, sample) == sample
    ensures sample > 0.0 && current > 0.0 ==> 5.0 * (Ewma(current, sample) - current) == sample - current
  {
  }

  /** Durations are recorded in whole milliseconds. */
  lemma MillisRoundDown(duration: nat)
    ensures Millis(duration) * 1000000.0 <= duration as real < (Millis(duration) + 1.0) * 1000000.0
  {
  }
}
