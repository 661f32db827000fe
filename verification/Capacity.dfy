/** Any number of dispatches at once, one registry call at a time: a node's load against its capacity. */
module Capacity {
  import opened Sums
  import opened Scheduler
  import opened Dispatch
  import E = Eligibility
  import F = Failover

  /** Where a dispatch stands with the node it last reserved, and whom it has tried before. */
  datatype Phase = Idle(tried: set<string>) | InFlight(id: string, tried: set<string>) | Unrecorded(id: string, tried: set<string>) | Ended

  datatype Net = Net(registry: RegistryState, threads: seq<Phase>)

  datatype Ending = Succeeds(observation: Observation) | FailsEarly(now: int, later: int) | FailsLate(now: int) | FailsForGood(now: int)

  /** One step of one dispatch, a new dispatch, or a registry call that is not part of one. */
  datatype Event =
    | Arrive
    | Pick(thread: nat, id: string, req: Request, providerID: string, now: int)
    | Finish(thread: nat)
    | Settle(thread: nat, ending: Ending)
    | Other(call: Call)

  function Outcome(id: string, e: Ending): Call {
    match e
    case Succeeds(o) => RecordSuccess(id, o)
    case FailsEarly(now, later) => RecordPreToken(id, now, later)
    case FailsLate(now) => RecordPostToken(id, now)
    case FailsForGood(now) => RecordTerminal(id, now)
  }

  /** Registrations, heartbeats, removals and scores come from outside the dispatches. */
  predicate Outside(call: Call) {
    call.Register? || call.Heartbeat? || call.Remove? || call.RemoveProvider? || call.SetScores?
  }

  /** How an attempt's verdict ends its round. */
  function EndingOf(a: Attempt): Ending {
    match VerdictOf(a)
    case Served => Succeeds(Observed(a))
    case BrokenOff => FailsLate(a.recordedAt)
    case Refused => FailsForGood(a.recordedAt)
    case TryAgain => FailsEarly(a.recordedAt, a.recordedLater)
  }

  ghost predicate Picks(fold: Fold, s: Net, ev: Event) {
    && ev.Pick? && ev.thread < |s.threads| && s.threads[ev.thread].Idle?
    && Chosen(fold, s.registry, ev.id, s.threads[ev.thread].tried, ev.req, ev.providerID, ev.now)
  }

  /** Only a failure before the first token sends a dispatch to another node. */
  function After(p: Phase, e: Ending): Phase
    requires p.Unrecorded?
  {
    if e.FailsEarly? then Idle(p.tried + {p.id}) else Ended
  }

  ghost function Step(fold: Fold, s: Net, ev: Event): Net {
    match ev
    case Arrive => s.(threads := s.threads + [Idle({})])
    case Pick(i, id, _, _, _) =>
      if Picks(fold, s, ev)
      then Net(Apply(s.registry, Reserve(id)), s.threads[i := InFlight(id, s.threads[i].tried)]) else s
    case Finish(i) =>
      if i < |s.threads| && s.threads[i].InFlight?
      then Net(Apply(s.registry, Release(s.threads[i].id)), s.threads[i := Unrecorded(s.threads[i].id, s.threads[i].tried)]) else s
    case Settle(i, e) =>
      if i < |s.threads| && s.threads[i].Unrecorded?
      then Net(Apply(s.registry, Outcome(s.threads[i].id, e)), s.threads[i := After(s.threads[i], e)]) else s
    case Other(call) => if Outside(call) then s.(registry := Apply(s.registry, call)) else s
  }

  ghost function Run(fold: Fold, s: Net, evs: seq<Event>): Net {
    if evs == [] then s else Step(fold, Run(fold, s, evs[..|evs| - 1]), evs[|evs| - 1])
  }

  /**
   A settled round does to the registry what the failover loop does, and its thread looks for another
   node exactly if the loop would, never again the one it had.
   */
  lemma SettlingIsTheLoops(fold: Fold, s: Net, i: nat, a: Attempt)
    requires i < |s.threads| && s.threads[i].Unrecorded?
    ensures var (p, s') := (s.threads[i], Step(fold, s, Settle(i, EndingOf(a))));
            && s'.registry == Apply(s.registry, Recording(a, p.id)) && |s'.threads| == |s.threads|
            && s'.threads[i] == if !F.Replied(a) && !F.Spoke(a) && !F.ContextEnded(a) && !F.Forbidden(a)
                                then Idle(p.tried + {p.id}) else Ended
  {
    F.VerdictFromMessages(a);
  }

  function Flying(id: string): Phase -> int {
    (p: Phase) => if p.InFlight? && p.id == id then 1 else 0
  }

  function Unsettled(id: string): Phase -> int {
    (p: Phase) => if p.Unrecorded? && p.id == id then 1 else 0
  }

  /** Reservations of a node made during a run. */
  ghost function Made(fold: Fold, s: Net, evs: seq<Event>, id: string): nat {
    if evs == [] then 0
    else
      var n := |evs| - 1;
      Made(fold, s, evs[..n], id) + if Picks(fold, Run(fold, s, evs[..n]), evs[n]) && evs[n].id == id then 1 else 0
  }

  /** No second registration of the node's id, and no removal. */
  predicate Keeps(ev: Event, id: string, owner: string) {
    ev.Other? ==> Leaves(ev.call, id, owner)
  }

  predicate Beats(ev: Event, id: string) {
    ev.Other? && ev.call.Heartbeat? && ev.call.id == id
  }

  /** No heartbeat of the node either. */
  predicate Spares(ev: Event, id: string, owner: string) {
    Keeps(ev, id, owner) && !Beats(ev, id)
  }

  /** Load equals work in flight, within capacity; every reservation made is somewhere. */
  ghost predicate Balanced(s: Net, id: string, owner: string, made: int) {
    && id in s.registry.view
    && var n := s.registry.view[id];
       && n.profile.providerID == owner
       && n.active == SumBy(s.threads, Flying(id)) <= n.profile.maxConcurrent
       && made == SumBy(s.threads, Flying(id)) + SumBy(s.threads, Unsettled(id)) + n.completed + n.failed
  }

  lemma PhaseChanges(threads: seq<Phase>, i: nat, p: Phase, id: string)
    requires i < |threads|
    ensures SumBy(threads[i := p], Flying(id)) == SumBy(threads, Flying(id)) - Flying(id)(threads[i]) + Flying(id)(p)
    ensures SumBy(threads[i := p], Unsettled(id)) == SumBy(threads, Unsettled(id)) - Unsettled(id)(threads[i]) + Unsettled(id)(p)
  {
    SumUpdate(threads, i, p, Flying(id));
    SumUpdate(threads, i, p, Unsettled(id));
  }

  lemma FlyingThread(threads: seq<Phase>, i: nat, id: string)
    requires i < |threads| && threads[i].InFlight? && threads[i].id == id
    ensures 1 <= SumBy(threads, Flying(id))
  {
    SumAtLeastTerm(threads, i, Flying(id));
  }

  // ---- What one step does to one node -------------------------------------------------------

  ghost function Load(s: Net, id: string): int {
    SumBy(s.threads, Flying(id))
  }

  ghost function Owed(s: Net, id: string): int {
    SumBy(s.threads, Unsettled(id))
  }

  ghost predicate Present(s: Net, id: string, owner: string) {
    id in s.registry.view && s.registry.view[id].profile.providerID == owner
  }

  ghost predicate PicksNode(fold: Fold, s: Net, ev: Event, id: string) {
    Picks(fold, s, ev) && ev.id == id
  }

  predicate FinishesNode(s: Net, ev: Event, id: string) {
    ev.Finish? && ev.thread < |s.threads| && s.threads[ev.thread].InFlight? && s.threads[ev.thread].id == id
  }

  predicate SettlesNode(s: Net, ev: Event, id: string) {
    ev.Settle? && ev.thread < |s.threads| && s.threads[ev.thread].Unrecorded? && s.threads[ev.thread].id == id
  }

  function B(b: bool): int {
    if b then 1 else 0
  }

  /** The effect of a step on a node's record and on the dispatches that concern it. */
  ghost predicate Moves(fold: Fold, s: Net, ev: Event, id: string)
    requires id in s.registry.view
  {
    var s' := Step(fold, s, ev);
    var (picked, finished, settled) := (PicksNode(fold, s, ev, id), FinishesNode(s, ev, id), SettlesNode(s, ev, id));
    && id in s'.registry.view
    && var (n, n') := (s.registry.view[id], s'.registry.view[id]);
       && n'.profile == n.profile
       && Load(s', id) == Load(s, id) + B(picked) - B(finished)
       && Owed(s', id) == Owed(s, id) + B(finished) - B(settled)
       && n'.completed + n'.failed == n.completed + n.failed + B(settled)
       && n'.active == (if Beats(ev, id) then ev.call.active else n.active + B(picked) - B(finished && n.active > 0))
       && (picked ==> n.active < n.profile.maxConcurrent) && (finished ==> 1 <= Load(s, id))
  }

  lemma NewcomerIsIdle(threads: seq<Phase>, id: string)
    ensures SumBy(threads + [Idle({})], Flying(id)) == SumBy(threads, Flying(id))
    ensures SumBy(threads + [Idle({})], Unsettled(id)) == SumBy(threads, Unsettled(id))
  {
    SumAppend(threads, Idle({}), Flying(id));
    SumAppend(threads, Idle({}), Unsettled(id));
  }

  lemma ArriveMoves(fold: Fold, s: Net, id: string)
    requires id in s.registry.view
    ensures Moves(fold, s, Arrive, id)
  {
    NewcomerIsIdle(s.threads, id);
  }

  lemma PickMoves(fold: Fold, s: Net, ev: Event, id: string)
    requires id in s.registry.view && ev.Pick?
    ensures Moves(fold, s, ev, id)
  {
    if Picks(fold, s, ev) { PhaseChanges(s.threads, ev.thread, InFlight(ev.id, s.threads[ev.thread].tried), id); }
  }

  lemma FinishMoves(fold: Fold, s: Net, i: nat, id: string)
    requires id in s.registry.view
    ensures Moves(fold, s, Finish(i), id)
  {
    if i < |s.threads| && s.threads[i].InFlight? {
      PhaseChanges(s.threads, i, Unrecorded(s.threads[i].id, s.threads[i].tried), id);
      if s.threads[i].id == id { FlyingThread(s.threads, i, id); }
    }
  }

  lemma OutcomeCounts(r: RegistryState, at: string, e: Ending, id: string)
    requires id in r.view
    ensures id in Apply(r, Outcome(at, e)).view
    ensures var (n, n') := (r.view[id], Apply(r, Outcome(at, e)).view[id]);
            && n'.profile == n.profile && n'.active == n.active
            && n'.completed + n'.failed == n.completed + n.failed + B(at == id)
  {
  }

  lemma SettleMoves(fold: Fold, s: Net, i: nat, e: Ending, id: string)
    requires id in s.registry.view
    ensures Moves(fold, s, Settle(i, e), id)
  {
    if i < |s.threads| && s.threads[i].Unrecorded? {
      PhaseChanges(s.threads, i, After(s.threads[i], e), id);
      OutcomeCounts(s.registry, s.threads[i].id, e, id);
    }
  }

  lemma OtherMoves(fold: Fold, s: Net, call: Call, id: string, owner: string)
    requires Present(s, id, owner) && Keeps(Other(call), id, owner)
    ensures Moves(fold, s, Other(call), id)
  {
  }

  lemma StepMoves(fold: Fold, s: Net, ev: Event, id: string, owner: string)
    requires Present(s, id, owner) && Keeps(ev, id, owner)
    ensures Moves(fold, s, ev, id)
  {
    match ev
    case Arrive => ArriveMoves(fold, s, id);
    case Pick(_, _, _, _, _) => PickMoves(fold, s, ev, id);
    case Finish(i) => FinishMoves(fold, s, i, id);
    case Settle(i, e) => SettleMoves(fold, s, i, e, id);
    case Other(call) => OtherMoves(fold, s, call, id, owner);
  }

  // ---- Runs without heartbeats of the node --------------------------------------------------

  lemma StepStaysBalanced(fold: Fold, s: Net, ev: Event, id: string, owner: string, made: int)
    requires Balanced(s, id, owner, made) && Spares(ev, id, owner)
    ensures Balanced(Step(fold, s, ev), id, owner, made + if Picks(fold, s, ev) && ev.id == id then 1 else 0)
  {
    StepMoves(fold, s, ev, id, owner);
  }

  /**
   Over any interleaving that spares the node: its load is exactly what is in flight and never more
   than it takes at once, and reservations made = in flight + unrecorded + completed + failed.
   */
  lemma {:induction false} CapacityHolds(fold: Fold, s: Net, evs: seq<Event>, id: string, owner: string, made: int)
    requires Balanced(s, id, owner, made)
    requires forall i :: 0 <= i < |evs| ==> Spares(evs[i], id, owner)
    ensures Balanced(Run(fold, s, evs), id, owner, made + Made(fold, s, evs, id))
  {
    if evs != [] {
      var n := |evs| - 1;
      CapacityHolds(fold, s, evs[..n], id, owner, made);
      StepStaysBalanced(fold, Run(fold, s, evs[..n]), evs[n], id, owner, made + Made(fold, s, evs[..n], id));
    }
  }

  // ---- Runs with heartbeats -----------------------------------------------------------------

  /** Every reservation made is somewhere, whatever the node reports of its load. */
  ghost predicate Accounted(s: Net, id: string, owner: string, made: int) {
    && Present(s, id, owner)
    && made == Load(s, id) + Owed(s, id) + s.registry.view[id].completed + s.registry.view[id].failed
  }

  lemma {:induction false} ReservationsAreAccounted(fold: Fold, s: Net, evs: seq<Event>, id: string, owner: string, made: int)
    requires Accounted(s, id, owner, made)
    requires forall i :: 0 <= i < |evs| ==> Keeps(evs[i], id, owner)
    ensures Accounted(Run(fold, s, evs), id, owner, made + Made(fold, s, evs, id))
  {
    if evs != [] {
      var n := |evs| - 1;
      ReservationsAreAccounted(fold, s, evs[..n], id, owner, made);
      StepMoves(fold, Run(fold, s, evs[..n]), evs[n], id, owner);
    }
  }

  /** Work in flight is within capacity and within the load on record. */
  ghost predicate Bounded(s: Net, id: string, owner: string) {
    && Present(s, id, owner)
    && Load(s, id) <= s.registry.view[id].active && Load(s, id) <= s.registry.view[id].profile.maxConcurrent
  }

  /** A heartbeat of the node, if this is one, reports at least what is in flight. */
  ghost predicate Honest(s: Net, ev: Event, id: string) {
    Beats(ev, id) ==> Load(s, id) <= ev.call.active
  }

  lemma StepStaysBounded(fold: Fold, s: Net, ev: Event, id: string, owner: string)
    requires Bounded(s, id, owner) && Keeps(ev, id, owner) && Honest(s, ev, id)
    ensures Bounded(Step(fold, s, ev), id, owner)
  {
    StepMoves(fold, s, ev, id, owner);
  }

  /** The capacity bound through any heartbeats that do not report less than is in flight. */
  lemma {:induction false} CapacityHoldsThroughHeartbeats(fold: Fold, s: Net, evs: seq<Event>, id: string, owner: string)
    requires Bounded(s, id, owner)
    requires forall i :: 0 <= i < |evs| ==> Keeps(evs[i], id, owner) && Honest(Run(fold, s, evs[..i]), evs[i], id)
    ensures Bounded(Run(fold, s, evs), id, owner)
    ensures Run(fold, s, evs).registry.view[id].profile == s.registry.view[id].profile
  {
    if evs != [] {
      var n := |evs| - 1;
      forall i | 0 <= i < n ensures Keeps(evs[..n][i], id, owner) && Honest(Run(fold, s, evs[..n][..i]), evs[..n][i], id) {
        assert evs[..n][..i] == evs[..i];
      }
      CapacityHoldsThroughHeartbeats(fold, s, evs[..n], id, owner);
      StepStaysBounded(fold, Run(fold, s, evs[..n]), evs[n], id, owner);
      StepMoves(fold, Run(fold, s, evs[..n]), evs[n], id, owner);
    }
  }

  /** A request the node would serve at some time, were a slot free. */
  ghost predicate Wanted(fold: Fold, n: NodeState, req: Request, now: int) {
    Eligible(fold, n.(active := n.profile.maxConcurrent - 1), req, "", now)
  }

  /** One more dispatch. */
  function OneMore(s: Net, id: string, req: Request, now: int): seq<Event> {
    [Arrive, Pick(|s.threads|, id, req, "", now)]
  }

  lemma RunTwo(fold: Fold, s: Net, first: Event, second: Event)
    ensures Run(fold, s, [first, second]) == Step(fold, Step(fold, s, first), second)
  {
    assert [first, second][..1] == [first] && [first][..0] == [];
    assert Run(fold, s, []) == s;
    assert Run(fold, s, [first]) == Step(fold, s, first);
  }

  lemma {:induction false} RunAppends(fold: Fold, s: Net, evs: seq<Event>, more: seq<Event>)
    ensures Run(fold, s, evs + more) == Run(fold, Run(fold, s, evs), more)
  {
    if more == [] {
      assert evs + more == evs;
    } else {
      var n := |more| - 1;
      assert (evs + more)[..|evs + more| - 1] == evs + more[..n];
      RunAppends(fold, s, evs, more[..n]);
    }
  }

  /** The node that is left when every other has disconnected. */
  ghost predicate Alone(s: Net, id: string) {
    s.registry.view.Keys == {id}
  }

  lemma OneMorePicks(fold: Fold, s: Net, id: string, req: Request, now: int)
    requires Alone(s, id) && Wanted(fold, s.registry.view[id], req, now)
    requires s.registry.view[id].active < s.registry.view[id].profile.maxConcurrent
    ensures PicksNode(fold, Step(fold, s, Arrive), OneMore(s, id, req, now)[1], id)
  {
  }

  lemma OneMoreFlies(fold: Fold, s: Net, id: string, req: Request, now: int)
    requires Alone(s, id) && Wanted(fold, s.registry.view[id], req, now)
    requires s.registry.view[id].active < s.registry.view[id].profile.maxConcurrent
    ensures var s' := Run(fold, s, OneMore(s, id, req, now));
            && Alone(s', id) && s'.registry.view[id] == s.registry.view[id].(active := s.registry.view[id].active + 1)
            && Load(s', id) == Load(s, id) + 1
  {
    var pick := OneMore(s, id, req, now)[1];
    RunTwo(fold, s, Arrive, pick);
    OneMorePicks(fold, s, id, req, now);
    ArriveMoves(fold, s, id);
    PickMoves(fold, Step(fold, s, Arrive), pick, id);
  }

  /** Requests keep coming until the record shows no free slot; each adds to what is in flight. */
  lemma {:induction false} FillsUp(fold: Fold, s: Net, id: string, owner: string, req: Request, now: int) returns (evs: seq<Event>)
    requires Alone(s, id) && Present(s, id, owner) && Wanted(fold, s.registry.view[id], req, now)
    requires s.registry.view[id].active <= s.registry.view[id].profile.maxConcurrent
    ensures forall i :: 0 <= i < |evs| ==> Spares(evs[i], id, owner)
    ensures Load(Run(fold, s, evs), id) == Load(s, id) + s.registry.view[id].profile.maxConcurrent - s.registry.view[id].active
    decreases s.registry.view[id].profile.maxConcurrent - s.registry.view[id].active
  {
    var n := s.registry.view[id];
    if n.active == n.profile.maxConcurrent {
      evs := [];
    } else {
      var first := OneMore(s, id, req, now);
      OneMoreFlies(fold, s, id, req, now);
      var rest := FillsUp(fold, Run(fold, s, first), id, owner, req, now);
      RunAppends(fold, s, first, rest);
      evs := first + rest;
    }
  }

  /** All other nodes may disconnect without touching this one. */
  lemma {:induction false} OthersLeave(fold: Fold, s: Net, id: string, owner: string) returns (evs: seq<Event>)
    requires id in s.registry.view
    ensures forall i :: 0 <= i < |evs| ==> Spares(evs[i], id, owner)
    ensures var s' := Run(fold, s, evs);
            Alone(s', id) && s'.registry.view[id] == s.registry.view[id] && s'.threads == s.threads
    decreases s.registry.view.Keys
  {
    if other :| other in s.registry.view && other != id {
      var leave := Other(Remove(other));
      var rest := OthersLeave(fold, Step(fold, s, leave), id, owner);
      assert [leave][..0] == [] && Run(fold, s, []) == s;
      assert Run(fold, s, [leave]) == Step(fold, s, leave);
      RunAppends(fold, s, [leave], rest);
      evs := [leave] + rest;
    } else {
      evs := [];
    }
  }

  ghost predicate StaysWithin(fold: Fold, s: Net, id: string, owner: string, capacity: int) {
    forall evs ::
      (forall i :: 0 <= i < |evs| ==> Spares(evs[i], id, owner)) ==> Load(Run(fold, s, evs), id) <= capacity
  }

  lemma BoundedStaysWithin(fold: Fold, s: Net, id: string, owner: string)
    requires Bounded(s, id, owner)
    ensures StaysWithin(fold, s, id, owner, s.registry.view[id].profile.maxConcurrent)
  {
    forall evs | forall i :: 0 <= i < |evs| ==> Spares(evs[i], id, owner)
      ensures Load(Run(fold, s, evs), id) <= s.registry.view[id].profile.maxConcurrent
    {
      CapacityHoldsThroughHeartbeats(fold, s, evs, id, owner);
    }
  }

  lemma UnderstatedFillsOver(fold: Fold, s: Net, id: string, owner: string, req: Request, now: int)
    requires Present(s, id, owner) && Wanted(fold, s.registry.view[id], req, now)
    requires s.registry.view[id].active < Load(s, id) <= s.registry.view[id].profile.maxConcurrent
    ensures !StaysWithin(fold, s, id, owner, s.registry.view[id].profile.maxConcurrent)
  {
    var leaving := OthersLeave(fold, s, id, owner);
    var filling := FillsUp(fold, Run(fold, s, leaving), id, owner, req, now);
    RunAppends(fold, s, leaving, filling);
    var evs := leaving + filling;
    assert Load(Run(fold, s, evs), id) > s.registry.view[id].profile.maxConcurrent;
  }

  /**
   Exactly when a heartbeat is safe: whatever dispatches follow keep the node within its capacity
   if and only if it reported at least what was in flight.
   */
  lemma HeartbeatIsSafeExactlyIfHonest(fold: Fold, s: Net, beat: Event, id: string, owner: string, req: Request, now: int)
    requires Bounded(s, id, owner) && Beats(beat, id)
    requires id in Step(fold, s, beat).registry.view && Wanted(fold, Step(fold, s, beat).registry.view[id], req, now)
    ensures StaysWithin(fold, Step(fold, s, beat), id, owner, s.registry.view[id].profile.maxConcurrent)
       <==> Load(s, id) <= beat.call.active
  {
    StepMoves(fold, s, beat, id, owner);
    if Load(s, id) <= beat.call.active {
      BoundedStaysWithin(fold, Step(fold, s, beat), id, owner);
    } else {
      UnderstatedFillsOver(fold, Step(fold, s, beat), id, owner, req, now);
    }
  }

  /** A node that registers while none of its work is about starts balanced. */
  lemma RegistrationIsBalanced(s: Net, msg: Registration, now: int)
    requires forall i :: 0 <= i < |s.threads| ==> s.threads[i].Idle? || s.threads[i].Ended? || s.threads[i].id != msg.nodeID
    ensures Balanced(s.(registry := Apply(s.registry, Register(msg, now))), msg.nodeID, msg.providerID, 0)
  {
    SumZero(s.threads, Flying(msg.nodeID));
    SumZero(s.threads, Unsettled(msg.nodeID));
  }

  /** A node that is alone, fresh and willing is picked by whoever asks. */
  lemma LoneNodeIsPicked(fold: Fold, s: Net, thread: nat, msg: Registration, req: Request)
    requires thread < |s.threads| && s.threads[thread] == Idle({})
    requires s.registry.view == map[msg.nodeID := NewNode(msg, 1)]
    requires msg.models == ["m"] && msg.privacyTiers == [] && msg.privacyMode == "" && req == Request("m", "", "", "", "", [])
    ensures PicksNode(fold, s, Pick(thread, msg.nodeID, req, "", 1), msg.nodeID)
  {
  }

  /**
   From a node's own registration message: whatever is dispatched, and through every heartbeat that
   does not understate the work in flight, the node never has more at once than it said it takes.
   */
  lemma CapacityIsTheMessages(fold: Fold, s: Net, msg: Registration, now: int, evs: seq<Event>)
    requires forall i :: 0 <= i < |s.threads| ==> s.threads[i].Idle? || s.threads[i].Ended? || s.threads[i].id != msg.nodeID
    requires var joined := s.(registry := Apply(s.registry, Register(msg, now)));
             forall i :: 0 <= i < |evs| ==>
               Keeps(evs[i], msg.nodeID, msg.providerID) && Honest(Run(fold, joined, evs[..i]), evs[i], msg.nodeID)
    ensures var end := Run(fold, s.(registry := Apply(s.registry, Register(msg, now))), evs);
            && msg.nodeID in end.registry.view
            && Load(end, msg.nodeID) <= if msg.maxConcurrent >= 1 then msg.maxConcurrent else 1
  {
    var joined := s.(registry := Apply(s.registry, Register(msg, now)));
    RegistrationIsBalanced(s, msg, now);
    CapacityHoldsThroughHeartbeats(fold, joined, evs, msg.nodeID, msg.providerID);
    E.RecordIsTheMessage(s.registry, msg, now);
  }

  /**
   A heartbeat that reports less than is in flight lifts the bound: the next reservation may exceed
   the node's capacity.
   */
  lemma HeartbeatBreaksCapacity(fold: Fold, msg: Registration, req: Request)
    requires msg.maxConcurrent == 1 && msg.models == ["m"] && msg.privacyTiers == [] && msg.privacyMode == ""
    requires req == Request("m", "", "", "", "", [])
    ensures var start := Net(Apply(RegistryState(map[], map[]), Register(msg, 1)), [Idle({}), Idle({})]);
            var id := msg.nodeID;
            var evs := [Pick(0, id, req, "", 1), Other(Heartbeat(id, ["m"], 0, 0, 0.0, 1)), Pick(1, id, req, "", 1)];
            var end := Run(fold, start, evs);
            && Balanced(start, id, msg.providerID, 0)
            && id in end.registry.view && SumBy(end.threads, Flying(id)) == 2 > end.registry.view[id].profile.maxConcurrent
  {
    var start := Net(Apply(RegistryState(map[], map[]), Register(msg, 1)), [Idle({}), Idle({})]);
    var id := msg.nodeID;
    var evs := [Pick(0, id, req, "", 1), Other(Heartbeat(id, ["m"], 0, 0, 0.0, 1)), Pick(1, id, req, "", 1)];
    var one := Step(fold, start, evs[0]);
    var two := Step(fold, one, evs[1]);
    RegistrationIsBalanced(Net(RegistryState(map[], map[]), [Idle({}), Idle({})]), msg, 1);
    LoneNodeIsPicked(fold, start, 0, msg, req);
    PickMoves(fold, start, evs[0], id);
    OtherMoves(fold, one, evs[1].call, id, msg.providerID);
    LoneNodeIsPicked(fold, two, 1, msg, req);
    PickMoves(fold, two, evs[2], id);
    RunTwo(fold, start, evs[0], evs[1]);
    assert evs[..2] == [evs[0], evs[1]];
    assert Run(fold, start, evs) == Step(fold, two, evs[2]);
  }
}
