/** Exactly when the answer replayed for a completed key can still change. */
module LifecycleReplay {
  import opened Results
  import opened Quota
  import opened Lifecycle
  import opened LifecycleInvariants
  import opened LifecycleTheorems
  import opened LifecycleLimits
  import I = Idempotency

  /** An owner that has not given up and has yet to complete. It may have lost the key to a later request. */
  ghost predicate Unfinished(r: Request, k: string) {
    Holds(r, k) && r.owner
    && (r.stage.Reserving? || r.stage.Dispatching? || r.stage.Recording? || r.stage.Settling? || r.stage.Completing?)
  }

  ghost predicate Settled(s: State, k: string) {
    && k in s.world.table && s.world.table[k].Completed?
    && forall i :: 0 <= i < |s.reqs| ==> !Unfinished(s.reqs[i], k)
  }

  ghost predicate SameRow(s: State, t: State, k: string) {
    k in s.world.table && k in t.world.table && t.world.table[k] == s.world.table[k]
  }

  // ---- Nobody left who may complete ---------------------------------------------------------

  lemma ActStaysSettled(cfg: Config, now: int, w: World, r: Request, action: Action, k: string)
    requires Sound(cfg, r) && !Unfinished(r, k) && k in w.table && w.table[k].Completed?
    ensures var (w', r') := Act(cfg, now, w, r, action);
            !Unfinished(r', k) && k in w'.table && w'.table[k] == w.table[k]
  {
  }

  lemma StepStaysSettled(cfg: Config, s: State, ev: Event, k: string)
    requires Settled(s, k) && forall i :: 0 <= i < |s.reqs| ==> Sound(cfg, s.reqs[i])
    ensures Settled(Step(cfg, s, ev), k) && SameRow(s, Step(cfg, s, ev), k)
  {
    if ev.Do? && ev.index < |s.reqs| {
      ActStaysSettled(cfg, s.now, s.world, s.reqs[ev.index], ev.action, k);
    }
  }

  lemma {:induction false} RunStaysSettled(cfg: Config, evs: seq<Event>, more: seq<Event>, k: string)
    requires Settled(Run(cfg, evs), k)
    ensures Settled(Run(cfg, evs + more), k) && SameRow(Run(cfg, evs), Run(cfg, evs + more), k)
  {
    if more == [] {
      assert evs + more == evs;
    } else {
      var n := |more| - 1;
      SplitLast(evs, more);
      RunAppend(cfg, evs + more[..n], more[n]);
      RunStaysSettled(cfg, evs, more[..n], k);
      RunKeepsInv(cfg, evs + more[..n]);
      StepStaysSettled(cfg, Run(cfg, evs + more[..n]), more[n], k);
    }
  }

  // ---- Somebody who may ---------------------------------------------------------------------

  /** How many calls an unfinished owner is from the end. */
  function Distance(st: Stage): nat {
    match st
    case Reserving => 5
    case Dispatching => 4
    case Recording => 3
    case Settling => 2
    case Completing => 1
    case _ => 0
  }

  /** The next call of a handler for which everything goes well. */
  function NextCall(st: Stage, reply: I.Reply): Action {
    match st
    case Reserving => Reserve
    case Dispatching => DispatchSucceeds("node", "stop", 0)
    case Recording => Record(true)
    case Settling => Settle(NO_INPUT, true)
    case _ => Complete(Some(reply), I.NoFault)
  }

  lemma NextCallAdvances(cfg: Config, now: int, w: World, r: Request, k: string, reply: I.Reply)
    requires Unfinished(r, k) && !r.stage.Completing? && (r.stage.Reserving? ==> !Limited(w.book, r.account))
    ensures var (w', r') := Act(cfg, now, w, r, NextCall(r.stage, reply));
            && Unfinished(r', k) && Distance(r'.stage) == Distance(r.stage) - 1
            && w'.table == w.table
  {
  }

  lemma LastCallOverwrites(cfg: Config, now: int, w: World, r: Request, k: string, reply: I.Reply)
    requires Unfinished(r, k) && r.stage.Completing? && k in w.table
    ensures var w' := Act(cfg, now, w, r, NextCall(r.stage, reply)).0;
            k in w'.table && w'.table[k] == I.Completed(w.table[k].createdAt, reply)
  {
  }

  /** Left to itself, an unfinished owner puts its own reply in the row. */
  lemma {:induction false} OwnerOverwrites(cfg: Config, evs: seq<Event>, i: nat, k: string, reply: I.Reply) returns (more: seq<Event>)
    requires i < |Run(cfg, evs).reqs| && Unfinished(Run(cfg, evs).reqs[i], k) && k in Run(cfg, evs).world.table
    requires var r := Run(cfg, evs).reqs[i]; r.stage.Reserving? ==> !Limited(Run(cfg, evs).world.book, r.account)
    ensures k in Run(cfg, evs + more).world.table
    ensures Run(cfg, evs + more).world.table[k] == I.Completed(Run(cfg, evs).world.table[k].createdAt, reply)
    decreases Distance(Run(cfg, evs).reqs[i].stage)
  {
    var s := Run(cfg, evs);
    var next := Do(i, NextCall(s.reqs[i].stage, reply));
    RunAppend(cfg, evs, next);
    if s.reqs[i].stage.Completing? {
      LastCallOverwrites(cfg, s.now, s.world, s.reqs[i], k, reply);
      more := [next];
    } else {
      NextCallAdvances(cfg, s.now, s.world, s.reqs[i], k, reply);
      var rest := OwnerOverwrites(cfg, evs + [next], i, k, reply);
      assert evs + ([next] + rest) == evs + [next] + rest;
      more := [next] + rest;
    }
  }

  /** Everybody who might still reserve for the key can. */
  ghost predicate CanReserve(s: State, k: string) {
    forall r :: r in s.reqs && Holds(r, k) && r.stage.Reserving? ==> !Limited(s.world.book, r.account)
  }

  /**
   At every reachable state with a completed key, the answer that is replayed survives whatever
   follows if and only if no owner of the key is left that has yet to complete.
   */
  lemma ReplayIsStableExactlyWithoutOwners(cfg: Config, evs: seq<Event>, k: string)
    requires k in Run(cfg, evs).world.table && Run(cfg, evs).world.table[k].Completed? && CanReserve(Run(cfg, evs), k)
    ensures (forall more :: SameRow(Run(cfg, evs), Run(cfg, evs + more), k))
       <==> forall r :: r in Run(cfg, evs).reqs ==> !Unfinished(r, k)
  {
    var s := Run(cfg, evs);
    if forall r :: r in s.reqs ==> !Unfinished(r, k) {
      forall more ensures SameRow(s, Run(cfg, evs + more), k) {
        RunStaysSettled(cfg, evs, more, k);
      }
    } else {
      var i :| 0 <= i < |s.reqs| && Unfinished(s.reqs[i], k);
      var stored := s.world.table[k].reply;
      var reply := stored.(statusCode := stored.statusCode + 1);
      var more := OwnerOverwrites(cfg, evs, i, k, reply);
      assert !SameRow(s, Run(cfg, evs + more), k);
    }
  }

  // ---- Such an owner is possible ------------------------------------------------------------

  /** A first request stalls past the time-to-live after its claim; a second takes over and completes. */
  function Displacement(cfg: Config, a: string, k: string, reply: I.Reply): seq<Event> {
    ClaimPart(0, a, k, IDLE) + [Tick(Patience(cfg))] + ClaimPart(1, a, k, IDLE) + BillPart(1)
    + [Do(1, Settle(NO_INPUT, true)), Do(1, Complete(Some(reply), I.NoFault))]
  }

  lemma CompleteSteps(cfg: Config, s: State, i: nat, a: string, k: string, reply: I.Reply)
    requires i < |s.reqs| && s.reqs[i] == Charged(cfg, a, k, IDLE, true) && k in s.world.table
    ensures var s' := Do2(cfg, s, i, Settle(NO_INPUT, true), Complete(Some(reply), I.NoFault));
            && |s'.reqs| == |s.reqs| && (forall j :: 0 <= j < |s.reqs| && j != i ==> s'.reqs[j] == s.reqs[j])
            && k in s'.world.table && s'.world.table[k].Completed?
  {
  }

  lemma StalledAndTaken(cfg: Config, a: string, k: string)
    requires a != "" && cfg.idempotencyOn && (a in cfg.consumers ==> cfg.consumers[a].totalTokenLimit <= 0)
    ensures var s := Run(cfg, ClaimPart(0, a, k, IDLE) + [Tick(Patience(cfg))] + ClaimPart(1, a, k, IDLE));
            && s.reqs == [Owning(a, k, IDLE, false), Owning(a, k, IDLE, true)]
            && k in s.world.table && s.world.book.consumers == cfg.consumers
  {
    var first := ClaimPart(0, a, k, IDLE);
    assert [] + first == first && Run(cfg, []) == Init(cfg);
    ClaimRun(cfg, [], a, k, IDLE);
    Wait(cfg, first, k);
    ConsumersFixed(cfg, first + [Tick(Patience(cfg))]);
    ClaimRun(cfg, first + [Tick(Patience(cfg))], a, k, IDLE);
    ConsumersFixed(cfg, first + [Tick(Patience(cfg))] + ClaimPart(1, a, k, IDLE));
  }

  /** A key can be completed while the owner it was taken from has everything still before it. */
  lemma DisplacedOwnerRemains(cfg: Config, a: string, k: string, reply: I.Reply)
    requires a != "" && cfg.idempotencyOn && (a in cfg.consumers ==> cfg.consumers[a].totalTokenLimit <= 0)
    ensures var s := Run(cfg, Displacement(cfg, a, k, reply));
            && k in s.world.table && s.world.table[k].Completed?
            && |s.reqs| == 2 && Unfinished(s.reqs[0], k)
  {
    var claimed := ClaimPart(0, a, k, IDLE) + [Tick(Patience(cfg))] + ClaimPart(1, a, k, IDLE);
    StalledAndTaken(cfg, a, k);
    BillRun(cfg, claimed, 1, a, k, IDLE, true);
    RunTwo(cfg, claimed + BillPart(1), 1, Settle(NO_INPUT, true), Complete(Some(reply), I.NoFault));
    CompleteSteps(cfg, Run(cfg, claimed + BillPart(1)), 1, a, k, reply);
  }
}
