/** What a failed request leaves behind: its key is free again. */
module LifecycleFailure {
  import opened Results
  import opened Metering
  import opened Quota
  import opened Lifecycle
  import opened LifecycleInvariants
  import opened LifecycleLimits
  import I = Idempotency

  /** A call that ends a request without an answer: a reservation the account's limit has no room for, or a dispatch that fails. */
  ghost predicate Fails(s: State, r: Request, call: Action) {
    || (r.stage.Reserving? && call.Reserve? && Limited(s.world.book, r.account) && Budget(r.work) > Remaining(s.world.book, r.account))
    || (r.stage.Dispatching? && call.DispatchFails?)
  }

  lemma FailureHandsOver(cfg: Config, now: int, w: World, r: Request, call: Action)
    requires Fails(State(now, w, []), r, call)
    ensures var (w', r') := Act(cfg, now, w, r, call);
            && w'.table == w.table && r'.key == r.key && r'.owner == r.owner && r'.charged == r.charged
            && r'.stage == if r.owner then Aborting else Finished
  {
    if r.stage.Reserving? {
      RemainingIsExact(w.book, r.account);
    }
  }

  lemma AbortFrees(cfg: Config, now: int, w: World, r: Request, k: string)
    requires r.stage.Aborting? && r.key == Some(k) && k in w.table && w.table[k].InProgress?
    ensures var (w', r') := Act(cfg, now, w, r, Abort(I.NoFault));
            && r'.stage.Finished? && k !in w'.table
            && forall other :: other != k ==> (other in w'.table <==> other in w.table) && (other in w.table ==> w'.table[other] == w.table[other])
  {
  }

  /**
   At every reachable state, a claimed request that is refused its reservation or fails to be served
   aborts its key: the row in progress is gone and nobody else's row has changed.
   */
  lemma FailureFreesTheKey(cfg: Config, evs: seq<Event>, i: nat, k: string, call: Action)
    requires i < |Run(cfg, evs).reqs| && Run(cfg, evs).reqs[i].owner && Holds(Run(cfg, evs).reqs[i], k)
    requires Fails(Run(cfg, evs), Run(cfg, evs).reqs[i], call)
    requires k in Run(cfg, evs).world.table && Run(cfg, evs).world.table[k].InProgress?
    ensures var s, s' := Run(cfg, evs), Run(cfg, evs + [Do(i, call), Do(i, Abort(I.NoFault))]);
            && s'.world.table == s.world.table - {k}
            && |s'.reqs| == |s.reqs| && s'.reqs[i].stage.Finished?
            && forall j :: 0 <= j < |s.reqs| && j != i ==> s'.reqs[j] == s.reqs[j]
  {
    var s := Run(cfg, evs);
    RunTwo(cfg, evs, i, call, Abort(I.NoFault));
    FailureHandsOver(cfg, s.now, s.world, s.reqs[i], call);
    var failed := Step(cfg, s, Do(i, call));
    AbortFrees(cfg, s.now, failed.world, failed.reqs[i], k);
    assert Step(cfg, failed, Do(i, Abort(I.NoFault))).world.table == s.world.table - {k};
  }

  /** So the next request with the key, if it waits for its claim, owns it afresh. */
  lemma NextClaimIsFresh(cfg: Config, evs: seq<Event>, i: nat, j: nat, k: string, call: Action)
    requires i < |Run(cfg, evs).reqs| && Run(cfg, evs).reqs[i].owner && Holds(Run(cfg, evs).reqs[i], k)
    requires Fails(Run(cfg, evs), Run(cfg, evs).reqs[i], call)
    requires k in Run(cfg, evs).world.table && Run(cfg, evs).world.table[k].InProgress?
    requires j < |Run(cfg, evs).reqs| && j != i
    requires Run(cfg, evs).reqs[j].stage.Claiming? && Holds(Run(cfg, evs).reqs[j], k) && !Run(cfg, evs).reqs[j].tookOver
    ensures var s := Run(cfg, evs + [Do(i, call), Do(i, Abort(I.NoFault))] + [Do(j, Claim(I.NoFault))]);
            && j < |s.reqs| && s.reqs[j].stage.Reserving? && s.reqs[j].owner && !s.reqs[j].tookOver
            && k in s.world.table && s.world.table[k] == I.InProgress(s.now)
  {
    FailureFreesTheKey(cfg, evs, i, k, call);
    RunAppend(cfg, evs + [Do(i, call), Do(i, Abort(I.NoFault))], Do(j, Claim(I.NoFault)));
  }

  /** An account with nothing left gets no further than the door. */
  lemma ExhaustedAccountIsTurnedAway(cfg: Config, evs: seq<Event>, i: nat)
    requires i < |Run(cfg, evs).reqs| && Run(cfg, evs).reqs[i].stage.Arrived?
    requires var (b, a) := (Run(cfg, evs).world.book, Run(cfg, evs).reqs[i].account); Limited(b, a) && Remaining(b, a) == 0
    ensures var s, s' := Run(cfg, evs), Run(cfg, evs + [Do(i, Admit)]);
            s'.world == s.world && s'.reqs == s.reqs[i := s.reqs[i].(stage := Finished)]
  {
    var s := Run(cfg, evs);
    RunAppend(cfg, evs, Do(i, Admit));
    RemainingIsExact(s.world.book, s.reqs[i].account);
  }
}
