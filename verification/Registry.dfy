/** The registry object: node records shared by reference, updated in place under its lock. */
module NodeRegistry {
  import opened Results
  import opened Metering
  import opened Scheduler
  import opened Dispatch
  import P = Privacy

  class Node {
    const id: string
    const profile: Profile
    var models: set<string>
    var active: int
    var queueDepth: int
    var loadAverage: real
    var lastSeen: int
    var errorStreak: int
    var cooldownUntil: int
    var completed: int
    var failed: int
    var preToken: int
    var postToken: int
    var latencyMs: real
    var ttftMs: real
    var tokensPerSecond: real
    var lastFailureAt: int

    constructor (id: string, profile: Profile, models: set<string>, now: int)
      ensures this.id == id
      ensures State() == NodeState(profile, models, 0, 0, 0.0, now, 0, 0, 0, 0, 0, 0, 0.0, 0.0, 0.0, 0)
    {
      this.id, this.profile, this.models := id, profile, models;
      active, queueDepth, loadAverage, lastSeen := 0, 0, 0.0, now;
      errorStreak, cooldownUntil, completed, failed, preToken, postToken := 0, 0, 0, 0, 0, 0;
      latencyMs, ttftMs, tokensPerSecond, lastFailureAt := 0.0, 0.0, 0.0, 0;
    }

    function State(): NodeState
      reads this
    {
      NodeState(profile, models, active, queueDepth, loadAverage, lastSeen, errorStreak, cooldownUntil,
                completed, failed, preToken, postToken, latencyMs, ttftMs, tokensPerSecond, lastFailureAt)
    }

    method Beat(models: set<string>, active: int, queueDepth: int, loadAverage: real, now: int)
      modifies this
      ensures State() == old(State()).(models := models, active := active, queueDepth := queueDepth,
                                       loadAverage := loadAverage, lastSeen := now)
    {
      this.models, this.active, this.queueDepth, this.loadAverage, lastSeen := models, active, queueDepth, loadAverage, now;
    }

    method RecordObservation(o: Observation)
      modifies this
      ensures State() == Observe(old(State()), o)
    {
      if o.latency > 0 { latencyMs := Ewma(latencyMs, Millis(o.latency)); }
      if o.ttft > 0 { ttftMs := Ewma(ttftMs, Millis(o.ttft)); }
      if o.tokensPerSecond > 0.0 { tokensPerSecond := Ewma(tokensPerSecond, o.tokensPerSecond); }
    }

    method Succeed(o: Observation)
      modifies this
      ensures State() == Succeeded(old(State()), o)
    {
      errorStreak, cooldownUntil := 0, 0;
      completed := completed + 1;
      RecordObservation(o);
    }

    method FailEarly(now: int, later: int)
      modifies this
      ensures State() == FailedEarly(old(State()), now, later)
    {
      errorStreak := errorStreak + 1;
      failed := failed + 1;
      preToken := preToken + 1;
      var cooldown := BASE_ERROR_COOLDOWN * errorStreak;
      if cooldown > MAX_ERROR_COOLDOWN {
        cooldown := MAX_ERROR_COOLDOWN;
      }
      cooldownUntil := now + cooldown;
      lastFailureAt := later;
    }

    method FailLate(now: int)
      modifies this
      ensures State() == FailedLate(old(State()), now)
    {
      failed := failed + 1;
      postToken := postToken + 1;
      lastFailureAt := now;
    }

    method FailForGood(now: int)
      modifies this
      ensures State() == FailedForGood(old(State()), now)
    {
      failed := failed + 1;
      preToken := preToken + 1;
      lastFailureAt := now;
    }
  }

  method SetOf(items: seq<string>) returns (s: set<string>)
    ensures s == set x | x in items
  {
    s := {};
    for i := 0 to |items|
      invariant s == set x | x in items[..i]
    {
      assert items[..i + 1] == items[..i] + [items[i]];
      s := s + {items[i]};
    }
    assert items[..|items|] == items;
  }

  /** The tier rules of Register: a claim that does not normalize counts as the private mode's. */
  method ReadProfile(msg: Registration) returns (profile: Profile)
    ensures profile == ProfileOf(msg)
  {
    var tiers: Result<seq<string>, P.Error>;
    if |msg.privacyTiers| > 0 {
      tiers := P.NormalizeTiers(msg.privacyTiers);
    } else {
      tiers := P.TiersForMode(msg.privacyMode);
    }
    if tiers.Err? {
      tiers := P.TiersForMode(P.PRIVATE);
    }
    var accepted := SetOf(tiers.value);
    var accelerators := SetOf(msg.accelerators);
    profile := Profile(msg.providerID, accepted, msg.backend, msg.deviceKind, msg.soc, accelerators - {""},
                       AtLeastOne(msg.maxConcurrent));
  }

  class Registry {
    const fold: Fold
    var nodes: map<string, Node>
    var providerScores: map<string, int>
    /** Every record the registry has ever held. */
    ghost var Repr: set<Node>

    constructor (fold: Fold)
      ensures Valid() && Repr == {} && this.fold == fold && State() == RegistryState(map[], map[])
    {
      this.fold := fold;
      nodes, providerScores, Repr := map[], map[], {};
    }

    /** Records sit under their own ids, so no two keys share one. */
    ghost predicate Valid()
      reads this
    {
      forall id :: id in nodes ==> nodes[id].id == id && nodes[id] in Repr
    }

    ghost function State(): RegistryState
      reads this, Repr
      requires Valid()
    {
      RegistryState(map id | id in nodes :: nodes[id].State(), providerScores)
    }

    /** Changing one record in place changes its entry of the abstract state and no other. */
    twostate lemma OneChanged(id: string)
      requires old(Valid()) && Valid() && unchanged(this) && id in nodes
      requires forall n :: n in Repr && n != nodes[id] ==> unchanged(n)
      ensures State() == old(State()).(view := old(State()).view[id := nodes[id].State()])
    {
      forall other | other in nodes && other != id ensures nodes[other].State() == old(nodes[other].State()) {
        assert nodes[other] in Repr && nodes[other] != nodes[id];
      }
    }

    twostate lemma OneAdded(id: string)
      requires old(Valid()) && Valid() && id in nodes && providerScores == old(providerScores)
      requires nodes == old(nodes)[id := nodes[id]]
      requires forall n :: n in old(Repr) ==> unchanged(n)
      ensures State() == old(State()).(view := old(State()).view[id := nodes[id].State()])
    {
      forall other | other in nodes && other != id ensures nodes[other].State() == old(nodes[other].State()) {
        assert nodes[other] == old(nodes)[other] && nodes[other] in old(Repr);
      }
    }

    twostate lemma ProviderGone(providerID: string)
      requires old(Valid()) && Valid() && providerScores == old(providerScores)
      requires forall id :: id in nodes <==> id in old(nodes) && old(nodes)[id].profile.providerID != providerID
      requires forall id :: id in nodes ==> nodes[id] == old(nodes)[id] && unchanged(nodes[id])
      ensures State() == Apply(old(State()), Call.RemoveProvider(providerID))
    {
      forall id | id in old(nodes) ensures old(nodes[id].State()).profile == old(nodes)[id].profile {
      }
      assert State().view == ApplyTo(old(State()).view, Call.RemoveProvider(providerID));
    }

    method SetProviderScores(scores: map<string, int>)
      requires Valid()
      modifies this
      ensures Valid() && nodes == old(nodes) && Repr == old(Repr)
      ensures State() == Apply(old(State()), SetScores(scores))
    {
      providerScores := map[];
      var rest := scores.Keys;
      while rest != {}
        invariant rest <= scores.Keys && nodes == old(nodes) && Repr == old(Repr)
        invariant providerScores == map p | p in scores && p !in rest :: ClampScore(scores[p])
        decreases rest
      {
        var p :| p in rest;
        providerScores := providerScores[p := ClampScore(scores[p])];
        rest := rest - {p};
      }
    }

    method Register(msg: Registration, now: int)
      requires Valid()
      modifies this
      ensures Valid() && fresh(Repr - old(Repr))
      ensures State() == Apply(old(State()), Call.Register(msg, now))
    {
      var models := SetOf(msg.models);
      var profile := ReadProfile(msg);
      var node := new Node(msg.nodeID, profile, models, now);
      Repr := Repr + {node};
      nodes := nodes[msg.nodeID := node];
      OneAdded(msg.nodeID);
    }

    method Heartbeat(id: string, models: seq<string>, active: int, queueDepth: int, loadAverage: real, now: int)
      requires Valid()
      modifies Repr
      ensures State() == Apply(old(State()), Call.Heartbeat(id, models, active, queueDepth, loadAverage, now))
    {
      if id !in nodes { return; }
      var names := SetOf(models);
      nodes[id].Beat(names, active, queueDepth, loadAverage, now);
      OneChanged(id);
    }

    method Remove(id: string)
      requires Valid()
      modifies this
      ensures Valid() && Repr == old(Repr)
      ensures State() == Apply(old(State()), Call.Remove(id))
    {
      nodes := nodes - {id};
    }

    method RemoveProvider(providerID: string) returns (removed: int)
      requires Valid()
      modifies this
      ensures Valid() && Repr == old(Repr)
      ensures State() == Apply(old(State()), Call.RemoveProvider(providerID))
      ensures removed == |old(nodes.Keys)| - |nodes.Keys|
    {
      removed := 0;
      var rest := nodes.Keys;
      while rest != {}
        invariant rest <= nodes.Keys
        invariant forall id :: id in nodes <==> id in old(nodes) && (id in rest || old(nodes)[id].profile.providerID != providerID)
        invariant forall id :: id in nodes ==> nodes[id] == old(nodes)[id]
        invariant removed == |old(nodes.Keys)| - |nodes.Keys| && providerScores == old(providerScores)
        invariant Valid() && Repr == old(Repr)
        decreases rest
      {
        var id :| id in rest;
        rest := rest - {id};
        if nodes[id].profile.providerID == providerID {
          assert (nodes - {id}).Keys == nodes.Keys - {id};
          nodes := nodes - {id};
          removed := removed + 1;
        }
      }
      ProviderGone(providerID);
    }

    function NodeCost(node: Node): real
      reads this, node
    {
      Cost(node.State(), ScoreOf(providerScores, node.profile.providerID))
    }

    /** Collect who may serve, then reserve one of the cheapest. */
    method ReserveFiltered(req: Request, exclude: set<string>, providerID: string, now: int) returns (selected: Option<Node>)
      requires Valid()
      modifies Repr
      ensures selected.None? ==> Exhausted(fold, old(State()), exclude, req, providerID, now) && State() == old(State())
      ensures selected.Some? ==>
                && selected.value.id in nodes && nodes[selected.value.id] == selected.value
                && Chosen(fold, old(State()), selected.value.id, exclude, req, providerID, now)
                && State() == Apply(old(State()), Reserve(selected.value.id))
    {
      selected := Select(req, exclude, providerID, now);
      if selected.Some? {
        var node := selected.value;
        node.active := node.active + 1;
        OneChanged(node.id);
      }
    }

    method Select(req: Request, exclude: set<string>, providerID: string, now: int) returns (best: Option<Node>)
      requires Valid()
      ensures best.None? ==> Exhausted(fold, State(), exclude, req, providerID, now)
      ensures best.Some? ==>
                && best.value.id in nodes && nodes[best.value.id] == best.value
                && Chosen(fold, State(), best.value.id, exclude, req, providerID, now)
    {
      var candidates := Candidates(req, exclude, providerID, now);
      if |candidates| == 0 { return None; }
      var node := Cheapest(candidates);
      best := Some(node);
    }

    method Cheapest(candidates: seq<Node>) returns (best: Node)
      requires |candidates| > 0
      ensures best in candidates
      ensures forall n :: n in candidates ==> NodeCost(best) <= NodeCost(n)
    {
      best := candidates[0];
      for i := 1 to |candidates|
        invariant best in candidates
        invariant forall j :: 0 <= j < i ==> NodeCost(best) <= NodeCost(candidates[j])
      {
        if NodeCost(candidates[i]) < NodeCost(best) { best := candidates[i]; }
      }
    }

    method Candidates(req: Request, exclude: set<string>, providerID: string, now: int) returns (candidates: seq<Node>)
      requires Valid()
      ensures forall n :: n in candidates ==>
                n.id in nodes && nodes[n.id] == n && n.id !in exclude && Eligible(fold, n.State(), req, providerID, now)
      ensures forall id :: id in nodes && id !in exclude && Eligible(fold, nodes[id].State(), req, providerID, now) ==>
                nodes[id] in candidates
    {
      candidates := [];
      var rest := nodes.Keys;
      while rest != {}
        invariant rest <= nodes.Keys
        invariant forall n :: n in candidates ==>
                    n.id in nodes && nodes[n.id] == n && n.id !in exclude && Eligible(fold, n.State(), req, providerID, now)
        invariant forall id :: id in nodes && id !in rest && id !in exclude && Eligible(fold, nodes[id].State(), req, providerID, now) ==>
                    nodes[id] in candidates
        decreases rest
      {
        var id :| id in rest;
        rest := rest - {id};
        var node := nodes[id];
        if node.id in exclude { continue; }
        if Eligible(fold, node.State(), req, providerID, now) {
          candidates := candidates + [node];
        }
      }
    }

    method Release(id: string)
      requires Valid()
      modifies Repr
      ensures State() == Apply(old(State()), Call.Release(id))
    {
      if id in nodes && nodes[id].active > 0 {
        nodes[id].active := nodes[id].active - 1;
        OneChanged(id);
      }
    }

    method RecordSuccess(id: string, observation: Observation)
      requires Valid()
      modifies Repr
      ensures State() == Apply(old(State()), Call.RecordSuccess(id, observation))
    {
      if id in nodes {
        nodes[id].Succeed(observation);
        OneChanged(id);
      }
    }

    method RecordPreTokenFailure(id: string, now: int, later: int)
      requires Valid()
      modifies Repr
      ensures State() == Apply(old(State()), Call.RecordPreToken(id, now, later))
    {
      if id !in nodes { return; }
      nodes[id].FailEarly(now, later);
      OneChanged(id);
    }

    method RecordPostTokenFailure(id: string, now: int)
      requires Valid()
      modifies Repr
      ensures State() == Apply(old(State()), Call.RecordPostToken(id, now))
    {
      if id !in nodes { return; }
      nodes[id].FailLate(now);
      OneChanged(id);
    }

    method RecordPreTokenTerminalFailure(id: string, now: int)
      requires Valid()
      modifies Repr
      ensures State() == Apply(old(State()), Call.RecordTerminal(id, now))
    {
      if id !in nodes { return; }
      nodes[id].FailForGood(now);
      OneChanged(id);
    }

    // ---- Calls of other threads ---------------------------------------------------------------

    /** One call of another thread. Its reservation is any increment of any node. */
    method Do(call: Call)
      requires Valid()
      modifies this, Repr
      ensures Valid() && fresh(Repr - old(Repr))
      ensures State() == Apply(old(State()), call)
    {
      match call
      case Register(msg, now) => Register(msg, now);
      case Heartbeat(id, models, active, queueDepth, loadAverage, now) =>
        Heartbeat(id, models, active, queueDepth, loadAverage, now);
      case Remove(id) => Remove(id);
      case RemoveProvider(p) => var _ := RemoveProvider(p);
      case SetScores(scores) => SetProviderScores(scores);
      case Reserve(id) =>
        if id in nodes {
          nodes[id].active := nodes[id].active + 1;
          OneChanged(id);
        }
      case Release(id) => Release(id);
      case RecordSuccess(id, o) => RecordSuccess(id, o);
      case RecordPreToken(id, now, later) => RecordPreTokenFailure(id, now, later);
      case RecordPostToken(id, now) => RecordPostTokenFailure(id, now);
      case RecordTerminal(id, now) => RecordPreTokenTerminalFailure(id, now);
    }

    method DoAll(calls: seq<Call>)
      requires Valid()
      modifies this, Repr
      ensures Valid() && fresh(Repr - old(Repr))
      ensures State() == ApplyAll(old(State()), calls)
    {
      for i := 0 to |calls|
        invariant Valid() && fresh(Repr - old(Repr))
        invariant State() == ApplyAll(old(State()), calls[..i])
      {
        assert calls[..i + 1][..i] == calls[..i];
        Do(calls[i]);
      }
      assert calls[..|calls|] == calls;
    }

    // ---- Dispatch -----------------------------------------------------------------------------

    /** One turn of the failover loop: reserve, send, release, record. */
    method TryOnce(a: Attempt, req: Request, attempted: set<string>, providerID: string, sink: Sink)
      returns (selected: Option<Node>, sent: Sent)
      requires Valid()
      modifies this, Repr, sink
      ensures Valid() && fresh(Repr - old(Repr))
      ensures selected.None? ==>
                && State() == ApplyAll(old(State()), a.before) && sink.received == old(sink.received)
                && Exhausted(fold, State(), attempted, req, providerID, a.reservedAt)
      ensures selected.Some? ==>
                && Chosen(fold, ApplyAll(old(State()), a.before), selected.value.id, attempted, req, providerID, a.reservedAt)
                && ApplyAll(old(State()), a.before).view[selected.value.id].profile == selected.value.profile
                && State() == Recorded(old(State()), a, selected.value.id)
                && sent == OutcomeOf(a) && sink.received == old(sink.received) + Emitted(a)
    {
      sent := Failed(Cancelled);
      DoAll(a.before);
      label facing:
      selected := ReserveFiltered(req, attempted, providerID, a.reservedAt);
      if selected.None? { return; }
      assert old@facing(State()).view[selected.value.id].profile == selected.value.profile;
      sent := Work(a, selected.value.id, sink);
    }

    /** What follows a reservation, with other threads' calls where the lock is free. */
    method Work(a: Attempt, id: string, sink: Sink) returns (sent: Sent)
      requires Valid()
      modifies this, Repr, sink
      ensures Valid() && fresh(Repr - old(Repr))
      ensures State() == Settled(old(State()), a, id)
      ensures sent == OutcomeOf(a) && sink.received == old(sink.received) + Emitted(a)
    {
      var tracker := new FirstChunkTracker(sink);
      sent := SendInference(a, tracker);
      DoAll(a.during);
      Release(id);
      Afterwards(a, id, sent, tracker);
    }

    method Afterwards(a: Attempt, id: string, sent: Sent, tracker: FirstChunkTracker)
      requires Valid()
      requires sent == OutcomeOf(a) && tracker.outputChars == Chars(Emitted(a)) && (tracker.sent <==> Emitted(a) != [])
      modifies this, Repr
      ensures Valid() && fresh(Repr - old(Repr))
      ensures State() == Apply(ApplyAll(old(State()), a.unrecorded), Recording(a, id))
    {
      DoAll(a.unrecorded);
      Conclude(id, a, sent, tracker);
    }

    /** The outcome's branch: success, broken stream, final refusal, or a failure that may be retried. */
    method Conclude(id: string, a: Attempt, sent: Sent, tracker: FirstChunkTracker)
      requires Valid()
      requires sent == OutcomeOf(a) && tracker.outputChars == Chars(Emitted(a)) && (tracker.sent <==> Emitted(a) != [])
      modifies Repr
      ensures State() == Apply(old(State()), Recording(a, id))
    {
      if sent.Answered? {
        RecordSuccess(id, Observation(a.latency, if tracker.sent then a.firstChunkAfter else 0,
                                      TokenRate(EstimateTokens(tracker.outputChars), a.latency)));
      } else if tracker.sent {
        RecordPostTokenFailure(id, a.recordedAt);
      } else if !CanRetry(a.cancelled, sent.error) {
        RecordPreTokenTerminalFailure(id, a.recordedAt);
      } else {
        RecordPreTokenFailure(id, a.recordedAt, a.recordedLater);
      }
    }

    /** One turn of the loop on its trace: it runs on with one more failure, or stops with a result. */
    method Turn(env: Script, req: Request, attempted: set<string>, attempts: nat, providerID: string, sink: Sink,
                ghost t: Trace, ghost start: RegistryState, ghost universe: set<string>, ghost given: seq<string>)
      returns (stopped: Option<DispatchResult>, id: string, ghost u: Trace)
      requires Valid() && Within(env, universe) && attempts == |t.ids| && attempted == P.Elements(t.ids)
      requires Running(fold, t, env, req, providerID, start, State(), universe)
      requires sink.received == given + Output(t, env)
      modifies this, Repr, sink
      ensures Valid() && fresh(Repr - old(Repr))
      ensures stopped.None? ==>
                && Running(fold, u, env, req, providerID, start, State(), universe)
                && |u.ids| == attempts + 1 && id in universe - attempted && P.Elements(u.ids) == attempted + {id}
      ensures stopped.Some? ==> Finished(fold, u, env, req, providerID, start, State(), stopped.value)
      ensures sink.received == given + Output(u, env)
    {
      var a := env(attempts);
      ghost var current := State();
      var selected, sent := TryOnce(a, req, attempted, providerID, sink);
      if selected.None? {
        return Some(DispatchResult(None, None, "", "", attempts)), "", t;
      }
      id := selected.value.id;
      u := Longer(t, State(), id);
      OutputGrows(given, t, env, State(), id);
      var verdict := VerdictOf(a);
      if verdict.TryAgain? {
        RunsOn(fold, t, env, req, providerID, start, current, universe, id);
        stopped := None;
      } else {
        var done := if sent.Answered? then Some(sent.done) else None;
        stopped := Some(DispatchResult(Some(verdict), done, id, selected.value.profile.providerID, attempts + 1));
        StopsAt(fold, t, env, req, providerID, start, current, universe, id, stopped.value);
      }
    }

    /**
     The failover loop. It ends because every retry uses up one of the node ids that are connected
     or register while it runs.
     */
    method Dispatch(env: Script, req: Request, providerID: string, sink: Sink, ghost universe: set<string>)
      returns (result: DispatchResult, ghost t: Trace)
      requires Valid() && State().view.Keys <= universe && Within(env, universe)
      modifies this, Repr, sink
      ensures Valid()
      ensures Finished(fold, t, env, req, providerID, old(State()), State(), result)
      ensures sink.received == old(sink.received) + Output(t, env)
    {
      t := Trace([State()], []);
      ghost var start, given := State(), sink.received;
      var attempted: set<string> := {};
      var attempts := 0;
      Begins(fold, env, req, providerID, start, universe);
      while true
        invariant Valid() && fresh(Repr - old(Repr))
        invariant |t.ids| == attempts && attempted == P.Elements(t.ids)
        invariant Running(fold, t, env, req, providerID, start, State(), universe)
        invariant sink.received == given + Output(t, env)
        decreases universe - attempted
      {
        var stopped, id;
        ghost var u;
        stopped, id, u := Turn(env, req, attempted, attempts, providerID, sink, t, start, universe, given);
        t := u;
        if stopped.Some? { return stopped.value, t; }
        attempts := attempts + 1;
        attempted := attempted + {id};
      }
    }
  }
}
