/** Exactly when an idempotency key is charged at most once: the age of its row decides, and nothing else. */
module LifecycleAtMostOnce {
  import opened Results
  import opened Sums
  import opened Metering
  import opened Lifecycle
  import opened LifecycleInvariants
  import opened LifecycleTheorems
  import opened LifecycleLimits
  import I = Idempotency

  // ---- Runs without stale claims ------------------------------------------------------------

  /** If this call claims the key and finds it in progress, the row is no older than the time-to-live. */
  ghost predicate CallClaimsFresh(cfg: Config, now: int, w: World, r: Request, action: Action, k: string) {
    action.Claim? && r.stage.Claiming? && Holds(r, k) && k in w.table && w.table[k].InProgress? ==>
      now - w.table[k].createdAt <= cfg.ttl
  }

  ghost predicate ClaimsFresh(cfg: Config, s: State, ev: Event, k: string) {
    ev.Do? && ev.index < |s.reqs| ==> CallClaimsFresh(cfg, s.now, s.world, s.reqs[ev.index], ev.action, k)
  }

  ghost predicate Untaken(reqs: seq<Request>, k: string) {
    forall i :: 0 <= i < |reqs| ==> Holds(reqs[i], k) ==> !reqs[i].tookOver
  }

  lemma ActStaysUntaken(cfg: Config, now: int, w: World, r: Request, action: Action, k: string)
    requires (Holds(r, k) ==> !r.tookOver) && CallClaimsFresh(cfg, now, w, r, action, k)
    ensures var r' := Act(cfg, now, w, r, action).1; Holds(r', k) ==> !r'.tookOver
  {
    if !action.Claim? { OnlyClaimsTakeOver(cfg, now, w, r, action); }
  }

  lemma OnlyClaimsTakeOver(cfg: Config, now: int, w: World, r: Request, action: Action)
    requires !action.Claim?
    ensures var r' := Act(cfg, now, w, r, action).1; r'.tookOver == r.tookOver && r'.key == r.key
  {
    match action
    case Settle(_, _) =>
    case Record(_) =>
    case _ =>
  }

  lemma StepStaysUntaken(cfg: Config, s: State, ev: Event, k: string)
    requires Untaken(s.reqs, k) && ClaimsFresh(cfg, s, ev, k)
    ensures Untaken(Step(cfg, s, ev).reqs, k)
  {
    if ev.Do? && ev.index < |s.reqs| {
      ActStaysUntaken(cfg, s.now, s.world, s.reqs[ev.index], ev.action, k);
    }
  }

  lemma {:induction false} RunStaysUntaken(cfg: Config, evs: seq<Event>, k: string)
    requires forall i :: 0 <= i < |evs| ==> ClaimsFresh(cfg, Run(cfg, evs[..i]), evs[i], k)
    ensures Untaken(Run(cfg, evs).reqs, k)
  {
    if evs != [] {
      var n := |evs| - 1;
      forall i | 0 <= i < n ensures ClaimsFresh(cfg, Run(cfg, evs[..n][..i]), evs[..n][i], k) {
        assert evs[..n][..i] == evs[..i];
      }
      RunStaysUntaken(cfg, evs[..n], k);
      StepStaysUntaken(cfg, Run(cfg, evs[..n]), evs[n], k);
    }
  }

  lemma UntakenChargesOnce(cfg: Config, evs: seq<Event>, k: string)
    requires Untaken(Run(cfg, evs).reqs, k)
    ensures SumBy(Run(cfg, evs).reqs, ChargesBy(k)) <= 1
  {
    ChargesBoundedByTakeovers(cfg, evs, k);
    SumZero(Run(cfg, evs).reqs, TakeoversBy(k));
  }

  /** A key is charged at most once in every run whose claims of it never find a row past the time-to-live. */
  lemma FreshClaimsChargeOnce(cfg: Config, evs: seq<Event>, k: string)
    requires forall i :: 0 <= i < |evs| ==> ClaimsFresh(cfg, Run(cfg, evs[..i]), evs[i], k)
    ensures SumBy(Run(cfg, evs).reqs, ChargesBy(k)) <= 1
  {
    RunStaysUntaken(cfg, evs, k);
    UntakenChargesOnce(cfg, evs, k);
  }

  // ---- When a retry is charged --------------------------------------------------------------

  /** Only the i-th handler acts, and no time passes. */
  ghost predicate Alone(evs: seq<Event>, i: nat) {
    forall j :: 0 <= j < |evs| ==> evs[j].Do? && evs[j].index == i
  }

  /** A new request with the key, arriving now, can get as far as a charge on its own. */
  ghost predicate RetryCharges(cfg: Config, evs: seq<Event>, a: string, k: string, work: Work) {
    exists more :: Alone(more, |Run(cfg, evs).reqs|)
      && SumBy(Run(cfg, evs + [Arrive(a, Some(k), work)] + more).reqs, ChargesBy(k)) > SumBy(Run(cfg, evs).reqs, ChargesBy(k))
  }

  /** What a handler is that has not got past somebody else's claim. */
  ghost predicate Blocked(r: Request, k: string) {
    (r.stage.Arrived? || r.stage.Claiming? || r.stage.Finished?) && r.key == Some(k) && !r.charged
  }

  lemma BlockedStep(cfg: Config, s: State, i: nat, action: Action, k: string)
    requires i == |s.reqs| - 1 && Blocked(s.reqs[i], k) && !Claimable(cfg, s, k)
    ensures var s' := Step(cfg, s, Do(i, action));
            && s'.reqs == s.reqs[..i] + [s'.reqs[i]] && Blocked(s'.reqs[i], k)
            && s'.now == s.now && k in s'.world.table && s'.world.table[k] == s.world.table[k]
  {
  }

  lemma {:induction false} BlockedRun(cfg: Config, evs: seq<Event>, more: seq<Event>, i: nat, k: string)
    requires i == |Run(cfg, evs).reqs| - 1 && Blocked(Run(cfg, evs).reqs[i], k) && !Claimable(cfg, Run(cfg, evs), k)
    requires Alone(more, i)
    ensures var s := Run(cfg, evs + more);
            && |s.reqs| == i + 1 && s.reqs[..i] == Run(cfg, evs).reqs[..i] && Blocked(s.reqs[i], k) && !Claimable(cfg, s, k)
  {
    if more == [] {
      assert evs + more == evs;
    } else {
      var n := |more| - 1;
      BlockedRun(cfg, evs, more[..n], i, k);
      SplitLast(evs, more);
      RunAppend(cfg, evs + more[..n], more[n]);
      BlockedStep(cfg, Run(cfg, evs + more[..n]), i, more[n].action, k);
    }
  }

  lemma BlockedIsNotCharged(cfg: Config, evs: seq<Event>, a: string, k: string, work: Work, more: seq<Event>)
    requires a != "" && cfg.idempotencyOn && work.Chat? && WellPosed(work) && !Claimable(cfg, Run(cfg, evs), k)
    requires Alone(more, |Run(cfg, evs).reqs|)
    ensures SumBy(Run(cfg, evs + [Arrive(a, Some(k), work)] + more).reqs, ChargesBy(k)) == SumBy(Run(cfg, evs).reqs, ChargesBy(k))
  {
    var s := Run(cfg, evs);
    var arrived := evs + [Arrive(a, Some(k), work)];
    RunAppend(cfg, evs, Arrive(a, Some(k), work));
    BlockedRun(cfg, arrived, more, |s.reqs|, k);
    var end := Run(cfg, arrived + more).reqs;
    assert end == s.reqs + [end[|s.reqs|]];
    SumAppend(s.reqs, end[|s.reqs|], ChargesBy(k));
  }

  /**
   At every reachable state, a retry by an unlimited account is charged for the key, once more if it
   was charged before, if and only if the key has no row or one that is in progress and stale.
   */
  lemma RetryChargesExactlyIfUnclaimedOrStale(cfg: Config, evs: seq<Event>, a: string, k: string, work: Work)
    requires a != "" && cfg.idempotencyOn && work.Chat? && WellPosed(work)
    requires a in cfg.consumers ==> cfg.consumers[a].totalTokenLimit <= 0
    ensures RetryCharges(cfg, evs, a, k, work) <==> Claimable(cfg, Run(cfg, evs), k)
  {
    if Claimable(cfg, Run(cfg, evs), k) {
      ServeAdds(cfg, evs, a, k, work);
      ServeIsARetry(cfg, evs, a, k, work);
    } else {
      forall more | Alone(more, |Run(cfg, evs).reqs|)
        ensures SumBy(Run(cfg, evs + [Arrive(a, Some(k), work)] + more).reqs, ChargesBy(k)) == SumBy(Run(cfg, evs).reqs, ChargesBy(k))
      {
        BlockedIsNotCharged(cfg, evs, a, k, work, more);
      }
    }
  }

  lemma ServeAdds(cfg: Config, evs: seq<Event>, a: string, k: string, work: Work)
    requires a != "" && cfg.idempotencyOn && work.Chat? && WellPosed(work) && Claimable(cfg, Run(cfg, evs), k)
    requires a in cfg.consumers ==> cfg.consumers[a].totalTokenLimit <= 0
    ensures var s, s' := Run(cfg, evs), Run(cfg, evs + Serve(|Run(cfg, evs).reqs|, a, k, work));
            && s'.now == s.now && |s'.reqs| == |s.reqs| + 1
            && SumBy(s'.reqs, ChargesBy(k)) == SumBy(s.reqs, ChargesBy(k)) + 1
            && k in s'.world.table && s'.world.table[k] == I.InProgress(s.now)
  {
    var s := Run(cfg, evs);
    ServeCharges(cfg, evs, a, k, work);
    OneMoreCharge(cfg, s.reqs, a, k, work, k in s.world.table);
  }

  lemma ServeIsARetry(cfg: Config, evs: seq<Event>, a: string, k: string, work: Work)
    ensures var i := |Run(cfg, evs).reqs|;
            var serve := Serve(i, a, k, work);
            serve[0] == Arrive(a, Some(k), work) && Alone(serve[1..], i) && evs + serve == evs + [serve[0]] + serve[1..]
  {
  }

  // ---- For how long a key is safe -----------------------------------------------------------

  /** Since `start` nobody has taken the key over, and its row, if any, is no older than that. */
  ghost predicate Young(s: State, k: string, start: int) {
    Untaken(s.reqs, k) && start <= s.now && (k in s.world.table ==> start <= s.world.table[k].createdAt)
  }

  lemma StepStaysYoung(cfg: Config, s: State, ev: Event, k: string, start: int)
    requires Young(s, k, start) && s.now - start <= cfg.ttl
    ensures Young(Step(cfg, s, ev), k, start)
  {
    StepStaysUntaken(cfg, s, ev, k);
  }

  lemma {:induction false} RunStaysYoung(cfg: Config, evs: seq<Event>, more: seq<Event>, k: string)
    requires Young(Run(cfg, evs), k, Run(cfg, evs).now) && Run(cfg, evs + more).now - Run(cfg, evs).now <= cfg.ttl
    ensures Young(Run(cfg, evs + more), k, Run(cfg, evs).now)
  {
    if more == [] {
      assert evs + more == evs;
    } else {
      var n := |more| - 1;
      SplitLast(evs, more);
      RunAppend(cfg, evs + more[..n], more[n]);
      RunStaysYoung(cfg, evs, more[..n], k);
      StepStaysYoung(cfg, Run(cfg, evs + more[..n]), more[n], k, Run(cfg, evs).now);
    }
  }

  /** The first of the two, and the wait. */
  lemma OnceAndWait(cfg: Config, evs: seq<Event>, a: string, k: string, work: Work)
    requires a != "" && cfg.idempotencyOn && work.Chat? && WellPosed(work) && 0 <= cfg.ttl
    requires a in cfg.consumers ==> cfg.consumers[a].totalTokenLimit <= 0
    requires k !in Run(cfg, evs).world.table
    ensures var s := Run(cfg, evs);
            var s' := Run(cfg, evs + Serve(|s.reqs|, a, k, work) + [Tick(Patience(cfg))]);
            && s'.now == s.now + cfg.ttl + 1 && |s'.reqs| == |s.reqs| + 1
            && SumBy(s'.reqs, ChargesBy(k)) == SumBy(s.reqs, ChargesBy(k)) + 1
            && Claimable(cfg, s', k)
  {
    ServeAdds(cfg, evs, a, k, work);
    Wait(cfg, evs + Serve(|Run(cfg, evs).reqs|, a, k, work), k);
  }

  /** From any state, two lost replies a time-to-live apart are two charges of a new key. */
  lemma TwiceChargesTwice(cfg: Config, evs: seq<Event>, a: string, k: string, work: Work) returns (more: seq<Event>)
    requires a != "" && cfg.idempotencyOn && work.Chat? && WellPosed(work) && 0 <= cfg.ttl
    requires a in cfg.consumers ==> cfg.consumers[a].totalTokenLimit <= 0
    requires k !in Run(cfg, evs).world.table
    ensures Run(cfg, evs + more).now == Run(cfg, evs).now + cfg.ttl + 1
    ensures SumBy(Run(cfg, evs + more).reqs, ChargesBy(k)) == SumBy(Run(cfg, evs).reqs, ChargesBy(k)) + 2
  {
    var i := |Run(cfg, evs).reqs|;
    var serve, wait, again := Serve(i, a, k, work), [Tick(Patience(cfg))], Serve(i + 1, a, k, work);
    OnceAndWait(cfg, evs, a, k, work);
    ServeAdds(cfg, evs + serve + wait, a, k, work);
    Regroup(evs, serve, wait, again);
    more := serve + wait + again;
  }

  /**
   From any reachable state in which a key is unused, it is charged at most once within a given time
   whatever happens, if and only if that time is within the time-to-live.
   */
  lemma AtMostOnceExactlyWithinTtl(cfg: Config, evs: seq<Event>, a: string, k: string, horizon: nat)
    requires a != "" && cfg.idempotencyOn && 0 <= cfg.ttl
    requires a in cfg.consumers ==> cfg.consumers[a].totalTokenLimit <= 0
    requires k !in Run(cfg, evs).world.table && Untaken(Run(cfg, evs).reqs, k)
    ensures (forall more :: Run(cfg, evs + more).now - Run(cfg, evs).now <= horizon ==>
               SumBy(Run(cfg, evs + more).reqs, ChargesBy(k)) <= 1)
       <==> horizon <= cfg.ttl
  {
    var s := Run(cfg, evs);
    if horizon <= cfg.ttl {
      forall more | Run(cfg, evs + more).now - s.now <= horizon
        ensures SumBy(Run(cfg, evs + more).reqs, ChargesBy(k)) <= 1
      {
        RunStaysYoung(cfg, evs, more, k);
        UntakenChargesOnce(cfg, evs + more, k);
      }
    } else {
      var more := TwiceChargesTwice(cfg, evs, a, k, IDLE);
      SumNonNegative(s.reqs, ChargesBy(k));
      assert Run(cfg, evs + more).now - s.now <= horizon;
    }
  }
}
