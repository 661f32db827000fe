/** The scheduler's node records as values: what each registry call does, who is eligible and at what cost. */
module Scheduler {
  import opened Results
  import opened Sums
  import P = Privacy

  const SECOND := 1_000_000_000
  const MILLISECOND := 1_000_000
  const BASE_ERROR_COOLDOWN := 10 * SECOND
  const MAX_ERROR_COOLDOWN := 60 * SECOND
  const HEARTBEAT_GRACE := 20 * SECOND
  const UNKNOWN_SCORE := 70

  /** What a node says of itself when it connects. */
  datatype Registration = Registration(nodeID: string, providerID: string, privacyMode: string, privacyTiers: seq<string>,
                                       backend: string, deviceKind: string, soc: string, accelerators: seq<string>,
                                       models: seq<string>, maxConcurrent: int)

  /** The fields registration fixes. */
  datatype Profile = Profile(providerID: string, privacyTiers: set<string>, backend: string, deviceKind: string,
                             soc: string, accelerators: set<string>, maxConcurrent: int)

  /** The fields heartbeats and dispatches change. Time zero is Go's zero time. */
  datatype NodeState = NodeState(
    profile: Profile,
    models: set<string>, active: int, queueDepth: int, loadAverage: real, lastSeen: int,
    errorStreak: int, cooldownUntil: int,
    completed: int, failed: int, preToken: int, postToken: int,
    latencyMs: real, ttftMs: real, tokensPerSecond: real,
    lastFailureAt: int)

  type View = map<string, NodeState>

  datatype RegistryState = RegistryState(view: View, scores: map<string, int>)

  datatype Request = Request(model: string, privacyTier: string, backend: string, deviceKind: string, soc: string,
                             accelerators: seq<string>)

  datatype Observation = Observation(latency: int, ttft: int, tokensPerSecond: real)

  /** One call under the registry's lock. */
  datatype Call =
    | Register(msg: Registration, now: int)
    | Heartbeat(id: string, models: seq<string>, active: int, queueDepth: int, loadAverage: real, now: int)
    | Remove(id: string)
    | RemoveProvider(providerID: string)
    | SetScores(scores: map<string, int>)
    | Reserve(id: string)
    | Release(id: string)
    | RecordSuccess(id: string, observation: Observation)
    | RecordPreToken(id: string, now: int, later: int)
    | RecordPostToken(id: string, now: int)
    | RecordTerminal(id: string, now: int)

  function AtLeastOne(n: int): int {
    if n < 1 then 1 else n
  }

  function ProfileOf(msg: Registration): Profile {
    Profile(msg.providerID, P.Stored(msg.privacyMode, msg.privacyTiers), msg.backend, msg.deviceKind, msg.soc,
            (set a | a in msg.accelerators && a != ""), AtLeastOne(msg.maxConcurrent))
  }

  function NewNode(msg: Registration, now: int): NodeState {
    NodeState(ProfileOf(msg), (set m | m in msg.models), 0, 0, 0.0, now, 0, 0, 0, 0, 0, 0, 0.0, 0.0, 0.0, 0)
  }

  function Ewma(current: real, sample: real): real {
    if sample <= 0.0 then current
    else if current <= 0.0 then sample
    else current * 0.8 + sample * 0.2
  }

  function Millis(duration: int): real {
    (duration / MILLISECOND) as real
  }

  function Observe(n: NodeState, o: Observation): NodeState {
    n.(latencyMs := if o.latency > 0 then Ewma(n.latencyMs, Millis(o.latency)) else n.latencyMs,
       ttftMs := if o.ttft > 0 then Ewma(n.ttftMs, Millis(o.ttft)) else n.ttftMs,
       tokensPerSecond := if o.tokensPerSecond > 0.0 then Ewma(n.tokensPerSecond, o.tokensPerSecond) else n.tokensPerSecond)
  }

  function Cooldown(streak: int): int {
    if BASE_ERROR_COOLDOWN * streak > MAX_ERROR_COOLDOWN then MAX_ERROR_COOLDOWN else BASE_ERROR_COOLDOWN * streak
  }

  function Succeeded(n: NodeState, o: Observation): NodeState {
    Observe(n.(errorStreak := 0, cooldownUntil := 0, completed := n.completed + 1), o)
  }

  function FailedEarly(n: NodeState, now: int, later: int): NodeState {
    n.(errorStreak := n.errorStreak + 1, failed := n.failed + 1, preToken := n.preToken + 1,
       cooldownUntil := now + Cooldown(n.errorStreak + 1), lastFailureAt := later)
  }

  function FailedLate(n: NodeState, now: int): NodeState {
    n.(failed := n.failed + 1, postToken := n.postToken + 1, lastFailureAt := now)
  }

  function FailedForGood(n: NodeState, now: int): NodeState {
    n.(failed := n.failed + 1, preToken := n.preToken + 1, lastFailureAt := now)
  }

  function ClampScore(score: int): int {
    if score < 0 then 0 else if score > 100 then 100 else score
  }

  function ApplyTo(v: View, call: Call): View {
    match call
    case Register(msg, now) => v[msg.nodeID := NewNode(msg, now)]
    case Heartbeat(id, models, active, queueDepth, loadAverage, now) =>
      if id !in v then v
      else v[id := v[id].(models := (set m | m in models), active := active, queueDepth := queueDepth,
                          loadAverage := loadAverage, lastSeen := now)]
    case Remove(id) => v - {id}
    case RemoveProvider(p) => map id | id in v && v[id].profile.providerID != p :: v[id]
    case SetScores(_) => v
    case Reserve(id) => if id in v then v[id := v[id].(active := v[id].active + 1)] else v
    case Release(id) => if id in v && v[id].active > 0 then v[id := v[id].(active := v[id].active - 1)] else v
    case RecordSuccess(id, o) => if id in v then v[id := Succeeded(v[id], o)] else v
    case RecordPreToken(id, now, later) => if id in v then v[id := FailedEarly(v[id], now, later)] else v
    case RecordPostToken(id, now) => if id in v then v[id := FailedLate(v[id], now)] else v
    case RecordTerminal(id, now) => if id in v then v[id := FailedForGood(v[id], now)] else v
  }

  function Apply(r: RegistryState, call: Call): RegistryState {
    RegistryState(ApplyTo(r.view, call), if call.SetScores? then map p | p in call.scores :: ClampScore(call.scores[p]) else r.scores)
  }

  function ApplyAll(r: RegistryState, calls: seq<Call>): RegistryState {
    if calls == [] then r else Apply(ApplyAll(r, calls[..|calls| - 1]), calls[|calls| - 1])
  }

  // ---- Who may serve, and at what cost ------------------------------------------------------

  function AcceptsPrivacy(p: Profile, tier: string): bool {
    && P.NormalizeTier(tier).Ok?
    && if p.privacyTiers == {} then P.Default(tier) == P.PRIVATE else P.Default(tier) in p.privacyTiers
  }

  /** Case-insensitive equality, with Unicode folding left as a function. */
  type Fold = string -> string

  predicate Matches(fold: Fold, p: Profile, req: Request) {
    && (req.backend == "" || fold(p.backend) == fold(req.backend))
    && (req.deviceKind == "" || fold(p.deviceKind) == fold(req.deviceKind))
    && (req.soc == "" || fold(p.soc) == fold(req.soc))
    && forall a :: a in req.accelerators ==> a == "" || exists b :: b in p.accelerators && fold(b) == fold(a)
  }

  predicate InCooldown(n: NodeState, now: int) {
    n.cooldownUntil != 0 && now < n.cooldownUntil
  }

  /** The filter of reserveFiltered, `attempted` aside. */
  predicate Eligible(fold: Fold, n: NodeState, req: Request, providerID: string, now: int) {
    && (providerID == "" || n.profile.providerID == providerID)
    && now - n.lastSeen < HEARTBEAT_GRACE
    && !InCooldown(n, now)
    && req.model in n.models
    && AcceptsPrivacy(n.profile, req.privacyTier)
    && Matches(fold, n.profile, req)
    && n.active < n.profile.maxConcurrent
  }

  function ScoreOf(scores: map<string, int>, providerID: string): int {
    if providerID == "" || providerID !in scores then UNKNOWN_SCORE else ClampScore(scores[providerID])
  }

  function FailureRate(n: NodeState): int {
    var total := n.completed + n.failed;
    if total <= 0 then 0 else Quo(n.failed * 10000, total)
  }

  function Min(a: real, b: real): real {
    if a < b then a else b
  }

  function Max(a: real, b: real): real {
    if a > b then a else b
  }

  function Utilization(n: NodeState): real {
    if n.profile.maxConcurrent > 0 then n.active as real / n.profile.maxConcurrent as real else 0.0
  }

  /** The part of a node's cost that its own record decides. */
  function OwnCost(n: NodeState): real {
    Utilization(n) * 20.0
    + n.queueDepth as real * 5.0
    + n.loadAverage
    + n.errorStreak as real * 8.0
    + (if n.completed == 0 then 8.0 else 0.0)
    + Min(n.latencyMs / 1000.0, 20.0)
    + Min(n.ttftMs / 500.0, 10.0)
    + (if n.tokensPerSecond > 0.0 then Max(0.0, 10.0 - Min(n.tokensPerSecond, 10.0)) else 0.0)
    + FailureRate(n) as real / 10000.0 * 20.0
  }

  function Cost(n: NodeState, score: int): real {
    OwnCost(n) + (100 - score) as real / 5.0
  }

  function CostIn(r: RegistryState, id: string): real
    requires id in r.view
  {
    Cost(r.view[id], ScoreOf(r.scores, r.view[id].profile.providerID))
  }

  /** A better reputation never makes a node dearer. */
  lemma CostOrder(n: NodeState, score: int, better: int)
    requires score <= better
    ensures Cost(n, better) <= Cost(n, score)
    ensures 0 <= n.completed && 0 <= n.failed ==> 0 <= FailureRate(n) <= 10000
  {
    if 0 <= n.completed && 0 <= n.failed && n.completed + n.failed > 0 {
      QuoBetween(n.failed * 10000, n.completed + n.failed, 0, 10000);
    }
  }

  /** A worse failure record never makes a node cheaper. */
  lemma FailuresNeverCheapen(n: NodeState, failed: int, streak: int, score: int)
    requires 0 <= n.completed && 0 <= n.failed <= failed && n.errorStreak <= streak
    ensures FailureRate(n) <= FailureRate(n.(failed := failed, errorStreak := streak))
    ensures Cost(n, score) <= Cost(n.(failed := failed, errorStreak := streak), score)
  {
    RateRises(n.completed, n.failed, failed);
  }

  /** Failures among outcomes, per ten thousand, only rise with the failures. */
  lemma RateRises(completed: nat, failed: nat, more: nat)
    requires failed <= more
    ensures 0 < completed + more ==> 0 <= Quo(more * 10000, completed + more)
    ensures 0 < completed + failed ==> Quo(failed * 10000, completed + failed) <= Quo(more * 10000, completed + more)
  {
    if 0 < completed + more {
      QuoBetween(more * 10000, completed + more, 0, 10000);
    }
    if 0 < completed + failed {
      var q := Quo(failed * 10000, completed + failed);
      QuoBetween(failed * 10000, completed + failed, 0, 10000);
      QuoRemainder(failed * 10000, completed + failed);
      StillBelow(q, completed + failed, failed, more - failed);
      QuoBetween(more * 10000, completed + more, q, 10000);
    }
  }

  /** A rate of at most one is not lowered by cases that all count. */
  lemma StillBelow(q: int, outcomes: nat, failed: nat, extra: nat)
    requires q <= 10000 && q * outcomes <= failed * 10000
    ensures q * (outcomes + extra) <= (failed + extra) * 10000
  {
    Scale(q, 10000, extra);
  }

  // ---- The coupled invariant of a node's failure record -------------------------------------

  ghost predicate NodeOk(n: NodeState, now: int) {
    && 0 <= n.errorStreak <= n.preToken
    && (n.errorStreak == 0 <==> n.cooldownUntil == 0)
    && 0 <= n.preToken && 0 <= n.postToken && 0 <= n.completed
    && n.preToken + n.postToken == n.failed
    && n.cooldownUntil <= n.lastFailureAt + MAX_ERROR_COOLDOWN
    && 0 <= n.lastFailureAt <= now
    && 0.0 <= n.latencyMs && 0.0 <= n.ttftMs && 0.0 <= n.tokensPerSecond
    && 1 <= n.profile.maxConcurrent
  }

  ghost predicate ViewOk(v: View, now: int) {
    forall id :: id in v ==> NodeOk(v[id], now)
  }

  /** The clock readings inside a call are at or after the calls before it, and after time zero. */
  function Clock(call: Call, before: int): int {
    match call
    case Register(_, now) => now
    case Heartbeat(_, _, _, _, _, now) => now
    case RecordPreToken(_, _, later) => later
    case RecordPostToken(_, now) => now
    case RecordTerminal(_, now) => now
    case _ => before
  }

  ghost predicate Timely(call: Call, before: int) {
    && 0 < before <= Clock(call, before)
    && (call.RecordPreToken? ==> before <= call.now <= call.later)
  }

  lemma CallKeepsViewOk(r: RegistryState, call: Call, before: int)
    requires ViewOk(r.view, before) && Timely(call, before)
    ensures ViewOk(Apply(r, call).view, Clock(call, before))
  {
    var v := Apply(r, call).view;
    forall id | id in v ensures NodeOk(v[id], Clock(call, before)) {
      NodeKept(r, call, before, id);
    }
  }

  lemma OutcomeKeepsOk(n: NodeState, before: int, now: int, later: int, o: Observation)
    requires NodeOk(n, before) && 0 < before <= now <= later
    ensures NodeOk(Succeeded(n, o), before) && NodeOk(FailedEarly(n, now, later), later)
    ensures NodeOk(FailedLate(n, now), now) && NodeOk(FailedForGood(n, now), now)
  {
    ObservedNonNegative(n.(errorStreak := 0, cooldownUntil := 0, completed := n.completed + 1), o);
  }

  lemma LaterIsOk(n: NodeState, before: int, now: int)
    requires NodeOk(n, before) && before <= now
    ensures NodeOk(n, now)
  {
  }

  /** What one call makes of the record at one id. */
  lemma NodeKept(r: RegistryState, call: Call, before: int, id: string)
    requires ViewOk(r.view, before) && Timely(call, before) && id in Apply(r, call).view
    ensures NodeOk(Apply(r, call).view[id], Clock(call, before))
  {
    if id in r.view {
      var n := r.view[id];
      LaterIsOk(n, before, Clock(call, before));
      OutcomesKept(n, call, before);
    }
  }

  /** The failure counters, streak and cooldown survive every kind of outcome. */
  lemma OutcomesKept(n: NodeState, call: Call, before: int)
    requires NodeOk(n, before) && Timely(call, before)
    ensures call.RecordSuccess? ==> NodeOk(Succeeded(n, call.observation), before)
    ensures call.RecordPreToken? ==> NodeOk(FailedEarly(n, call.now, call.later), call.later)
    ensures call.RecordPostToken? ==> NodeOk(FailedLate(n, call.now), call.now)
    ensures call.RecordTerminal? ==> NodeOk(FailedForGood(n, call.now), call.now)
  {
    var any := Observation(0, 0, 0.0);
    match call
    case RecordSuccess(_, o) => OutcomeKeepsOk(n, before, before, before, o);
    case RecordPreToken(_, now, later) => OutcomeKeepsOk(n, before, now, later, any);
    case RecordPostToken(_, now) => OutcomeKeepsOk(n, before, now, now, any);
    case RecordTerminal(_, now) => OutcomeKeepsOk(n, before, now, now, any);
    case _ =>
  }

  lemma ObservedNonNegative(n: NodeState, o: Observation)
    requires 0.0 <= n.latencyMs && 0.0 <= n.ttftMs && 0.0 <= n.tokensPerSecond
    ensures var m := Observe(n, o); 0.0 <= m.latencyMs && 0.0 <= m.ttftMs && 0.0 <= m.tokensPerSecond
  {
  }

  ghost predicate TimelyAll(calls: seq<Call>, before: int) {
    calls == [] ||
    (TimelyAll(calls[..|calls| - 1], before) && Timely(calls[|calls| - 1], ClockAll(calls[..|calls| - 1], before)))
  }

  function ClockAll(calls: seq<Call>, before: int): int {
    if calls == [] then before else Clock(calls[|calls| - 1], ClockAll(calls[..|calls| - 1], before))
  }

  /** On every reachable registry the failure counters, the streak and the cooldown agree. */
  lemma {:induction false} ReachableNodesOk(calls: seq<Call>, start: int)
    requires TimelyAll(calls, start)
    ensures ViewOk(ApplyAll(RegistryState(map[], map[]), calls).view, ClockAll(calls, start))
  {
    if calls != [] {
      var n := |calls| - 1;
      ReachableNodesOk(calls[..n], start);
      CallKeepsViewOk(ApplyAll(RegistryState(map[], map[]), calls[..n]), calls[n], ClockAll(calls[..n], start));
    }
  }

  // ---- Smoothed metrics ---------------------------------------------------------------------

  function Smoothed(samples: seq<real>): real {
    if samples == [] then 0.0 else Ewma(Smoothed(samples[..|samples| - 1]), samples[|samples| - 1])
  }

  /** The smoothed value is zero before the first positive sample and inside their range ever after. */
  lemma {:induction false} SmoothedBetween(samples: seq<real>, lo: real, hi: real)
    requires 0.0 < lo
    requires forall i :: 0 <= i < |samples| && samples[i] > 0.0 ==> lo <= samples[i] <= hi
    ensures if forall i :: 0 <= i < |samples| ==> samples[i] <= 0.0 then Smoothed(samples) == 0.0
            else lo <= Smoothed(samples) <= hi
  {
    if samples != [] {
      var n := |samples| - 1;
      SmoothedBetween(samples[..n], lo, hi);
      assert samples == samples[..n] + [samples[n]];
    }
  }

  /** The three metrics a node's record smooths. */
  datatype Metric = Latency | FirstToken | Throughput

  function Reading(n: NodeState, m: Metric): real {
    match m
    case Latency => n.latencyMs
    case FirstToken => n.ttftMs
    case Throughput => n.tokensPerSecond
  }

  /** What one success contributes to a metric, if anything. */
  function Sample(o: Observation, m: Metric): Option<real> {
    match m
    case Latency => if o.latency > 0 then Some(Millis(o.latency)) else None
    case FirstToken => if o.ttft > 0 then Some(Millis(o.ttft)) else None
    case Throughput => if o.tokensPerSecond > 0.0 then Some(o.tokensPerSecond) else None
  }

  function SampleIn(call: Call, id: string, m: Metric): Option<real> {
    if call.RecordSuccess? && call.id == id then Sample(call.observation, m) else None
  }

  /** The samples that one registration of a node has produced. */
  function Samples(calls: seq<Call>, id: string, m: Metric): seq<real> {
    if calls == [] then []
    else
      var n := |calls| - 1;
      var last := SampleIn(calls[n], id, m);
      Samples(calls[..n], id, m) + if last.Some? then [last.value] else []
  }

  /** A call that neither replaces nor removes the node. */
  predicate Leaves(call: Call, id: string, owner: string) {
    match call
    case Register(msg, _) => msg.nodeID != id
    case Remove(other) => other != id
    case RemoveProvider(p) => p != owner
    case _ => true
  }

  lemma ReadingAfter(r: RegistryState, id: string, owner: string, call: Call, m: Metric)
    requires id in r.view && r.view[id].profile.providerID == owner && Leaves(call, id, owner)
    ensures id in Apply(r, call).view && Apply(r, call).view[id].profile == r.view[id].profile
    ensures var sample := SampleIn(call, id, m);
            Reading(Apply(r, call).view[id], m) ==
            if sample.Some? then Ewma(Reading(r.view[id], m), sample.value) else Reading(r.view[id], m)
  {
  }

  /** Every metric is smoothed over the node's successes alone: failures, heartbeats and other nodes leave it be. */
  lemma {:induction false} MetricIsSmoothed(r: RegistryState, id: string, owner: string, calls: seq<Call>, m: Metric)
    requires id in r.view && r.view[id].profile.providerID == owner && Reading(r.view[id], m) == 0.0
    requires forall i :: 0 <= i < |calls| ==> Leaves(calls[i], id, owner)
    ensures id in ApplyAll(r, calls).view && ApplyAll(r, calls).view[id].profile.providerID == owner
    ensures Reading(ApplyAll(r, calls).view[id], m) == Smoothed(Samples(calls, id, m))
  {
    if calls != [] {
      var n := |calls| - 1;
      MetricIsSmoothed(r, id, owner, calls[..n], m);
      var samples := Samples(calls[..n], id, m);
      ReadingAfter(ApplyAll(r, calls[..n]), id, owner, calls[n], m);
      assert Samples(calls, id, m) == samples || Samples(calls, id, m)[..|samples|] == samples;
    }
  }

  /** Over any run a metric is zero until the node's first positive sample, and within the range of those samples from then on. */
  lemma MetricStaysInRange(r: RegistryState, id: string, owner: string, calls: seq<Call>, m: Metric, lo: real, hi: real)
    requires id in r.view && r.view[id].profile.providerID == owner && Reading(r.view[id], m) == 0.0
    requires forall i :: 0 <= i < |calls| ==> Leaves(calls[i], id, owner)
    requires 0.0 < lo && forall x :: x in Samples(calls, id, m) && x > 0.0 ==> lo <= x <= hi
    ensures id in ApplyAll(r, calls).view
    ensures if forall x :: x in Samples(calls, id, m) ==> x <= 0.0 then Reading(ApplyAll(r, calls).view[id], m) == 0.0
            else lo <= Reading(ApplyAll(r, calls).view[id], m) <= hi
  {
    MetricIsSmoothed(r, id, owner, calls, m);
    var samples := Samples(calls, id, m);
    forall i | 0 <= i < |samples| && samples[i] > 0.0 ensures lo <= samples[i] <= hi {
      assert samples[i] in samples;
    }
    SmoothedBetween(samples, lo, hi);
    if forall x :: x in samples ==> x <= 0.0 {
      forall i | 0 <= i < |samples| ensures samples[i] <= 0.0 {
        assert samples[i] in samples;
      }
    }
  }
}
