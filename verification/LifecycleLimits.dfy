/**
 Runs that attain the bounds of the request protocol: what "charged at most once" and "cannot
 overspend" do not promise.
 */
module LifecycleLimits {
  import opened Results
  import opened Sums
  import opened Metering
  import opened Quota
  import opened Lifecycle
  import opened LifecycleInvariants
  import opened LifecycleTheorems
  import S = Settlement
  import I = Idempotency

  lemma RunAppend(cfg: Config, evs: seq<Event>, ev: Event)
    ensures Run(cfg, evs + [ev]) == Step(cfg, Run(cfg, evs), ev)
  {
    assert (evs + [ev])[..|evs|] == evs;
  }

  lemma Regroup(a: seq<Event>, b: seq<Event>, c: seq<Event>, d: seq<Event>)
    ensures a + (b + c + d) == a + b + c + d
  {
  }

  lemma SplitLast(evs: seq<Event>, more: seq<Event>)
    requires more != []
    ensures evs + more == evs + more[..|more| - 1] + [more[|more| - 1]]
  {
  }

  function Do2(cfg: Config, s: State, i: nat, first: Action, second: Action): State {
    Step(cfg, Step(cfg, s, Do(i, first)), Do(i, second))
  }

  lemma RunTwo(cfg: Config, evs: seq<Event>, i: nat, first: Action, second: Action)
    ensures Run(cfg, evs + [Do(i, first), Do(i, second)]) == Do2(cfg, Run(cfg, evs), i, first, second)
  {
    var one := evs + [Do(i, first)];
    RunAppend(cfg, evs, Do(i, first));
    RunAppend(cfg, one, Do(i, second));
    assert evs + [Do(i, first), Do(i, second)] == one + [Do(i, second)];
  }

  // ---- A limit is passed by exactly what a node overproduces --------------------------------

  /** A chat with one empty message and all of the limit as its output budget. */
  function Ask(limit: int): Work {
    Chat([Message("", "")], Some(limit))
  }

  lemma AskIsFree(limit: int)
    requires 0 < limit
    ensures PromptTokens(Ask(limit)) == 0 && Budget(Ask(limit)) == limit && WellPosed(Ask(limit))
  {
    var messages := [Message("", "")];
    assert messages[..0] == [];
    assert SumBy(messages, MessageRunes()) == 0;
  }

  function Overproduction(a: string, limit: int, excess: nat): seq<Event>
    requires 0 < limit
  {
    [Arrive(a, None, Ask(limit))]
    + [Do(0, Admit), Do(0, Reserve)]
    + [Do(0, DispatchSucceeds("node", "stop", 4 * (limit + excess)))]
    + [Do(0, Record(true))]
  }

  function Holder(a: string, limit: int): Request {
    NewRequest(a, None, Ask(limit)).(stage := Dispatching, granted := Some(Reservation(a, limit)))
  }

  function Overfed(a: string, limit: int, total: int): Request {
    Holder(a, limit).(stage := Recording, provider := "node", done := Done("stop", 0, total))
  }

  function Billed(cfg: Config, a: string, limit: int, total: int): Request {
    Overfed(a, limit, total).(charged := true, inUse := true, durable := cfg.marketStored, stage := Settling)
  }

  lemma AskSteps(cfg: Config, s: State, a: string, limit: int)
    requires s.reqs == [NewRequest(a, None, Ask(limit))] && 0 < limit
    requires s.world.book.reserved == map[] && a !in s.world.book.consumerUse
    requires a in s.world.book.consumers && s.world.book.consumers[a].totalTokenLimit == limit
    ensures var s' := Do2(cfg, s, 0, Admit, Reserve);
            s'.reqs == [Holder(a, limit)] && s'.world.book.consumerUse == s.world.book.consumerUse
  {
    AskIsFree(limit);
  }

  lemma FeedStep(cfg: Config, s: State, a: string, limit: int, excess: nat)
    requires s.reqs == [Holder(a, limit)] && 0 < limit
    ensures var s' := Step(cfg, s, Do(0, DispatchSucceeds("node", "stop", 4 * (limit + excess))));
            s'.reqs == [Overfed(a, limit, limit + excess)] && s'.world == s.world
  {
    AskIsFree(limit);
    assert EstimateTokens(4 * (limit + excess)) == limit + excess;
  }

  lemma BilledOvershoot(cfg: Config, a: string, limit: int, total: int)
    requires 0 < limit <= total
    ensures SumBy([Billed(cfg, a, limit, total)], OvershootBy(a)) == total - limit
  {
    var r := Billed(cfg, a, limit, total);
    assert [r][..0] == [];
    assert Overshoot(a, r) == total - limit;
  }

  lemma BilledUse(use: map<string, Usage>, a: string, total: int, now: int)
    requires a != "" && a !in use
    ensures Read(AddUsage(use, a, Done("stop", 0, total), now), a, TotalTokens) == total
  {
  }

  lemma BillStep(cfg: Config, s: State, a: string, limit: int, total: int)
    requires s.reqs == [Overfed(a, limit, total)] && a != "" && 0 < limit <= total && a !in s.world.book.consumerUse
    ensures var s' := Step(cfg, s, Do(0, Record(true)));
            && Used(s'.world, S.Consumers, a, TotalTokens) == total && SumBy(s'.reqs, OvershootBy(a)) == total - limit
            && s'.reqs == [Billed(cfg, a, limit, total)]
  {
    var s' := Step(cfg, s, Do(0, Record(true)));
    BilledUse(s.world.book.consumerUse, a, total, s.now);
    assert |s'.reqs| == 1 && s'.reqs[0] == Billed(cfg, a, limit, total);
    assert s'.reqs == [Billed(cfg, a, limit, total)];
    BilledOvershoot(cfg, a, limit, total);
  }

  lemma AskRun(cfg: Config, a: string, limit: int)
    requires a != "" && a in cfg.consumers && cfg.consumers[a].totalTokenLimit == limit && 0 < limit
    ensures var s := Run(cfg, [Arrive(a, None, Ask(limit))] + [Do(0, Admit), Do(0, Reserve)]);
            s.reqs == [Holder(a, limit)] && s.world.book.consumerUse == map[]
  {
    var arrive := Arrive(a, None, Ask(limit));
    AskIsFree(limit);
    RunAppend(cfg, [], arrive);
    assert [] + [arrive] == [arrive] && Run(cfg, []) == Init(cfg);
    RunTwo(cfg, [arrive], 0, Admit, Reserve);
    AskSteps(cfg, Run(cfg, [arrive]), a, limit);
  }

  /** One chat request, fully reserved, still takes an account past its limit by any amount. */
  lemma OverspendIsAttained(cfg: Config, a: string, excess: nat)
    requires a != "" && a in cfg.consumers && cfg.consumers[a].totalTokenLimit > 0
    ensures var limit := cfg.consumers[a].totalTokenLimit;
            var s := Run(cfg, Overproduction(a, limit, excess));
            && Used(s.world, S.Consumers, a, TotalTokens) == limit + excess
            && SumBy(s.reqs, OvershootBy(a)) == excess
            && s.reqs == [Billed(cfg, a, limit, limit + excess)]
  {
    var limit := cfg.consumers[a].totalTokenLimit;
    var asked := [Arrive(a, None, Ask(limit))] + [Do(0, Admit), Do(0, Reserve)];
    var feed := Do(0, DispatchSucceeds("node", "stop", 4 * (limit + excess)));
    AskRun(cfg, a, limit);
    RunAppend(cfg, asked, feed);
    FeedStep(cfg, Run(cfg, asked), a, limit, excess);
    RunAppend(cfg, asked + [feed], Do(0, Record(true)));
    BillStep(cfg, Run(cfg, asked + [feed]), a, limit, limit + excess);
  }

  /** Nodes give chat requests of the account at most `slack` tokens more than was estimated for them. */
  ghost predicate Moderate(cfg: Config, evs: seq<Event>, a: string, slack: nat) {
    forall r :: r in Run(cfg, evs).reqs && r.account == a && r.work.Chat? ==>
      r.done.outputTokens <= OutputEstimate(r.work) + slack
  }

  ghost predicate LimitKept(cfg: Config, evs: seq<Event>, a: string)
    requires a in cfg.consumers
  {
    Used(Run(cfg, evs).world, S.Consumers, a, TotalTokens) + ReservedTokens(Run(cfg, evs).world.book, a)
      <= cfg.consumers[a].totalTokenLimit
  }

  lemma ExcessBreaksTheLimit(cfg: Config, a: string, slack: nat)
    requires a != "" && a in cfg.consumers && cfg.consumers[a].totalTokenLimit > 0 && slack > 0
    ensures var evs := Overproduction(a, cfg.consumers[a].totalTokenLimit, slack);
            Moderate(cfg, evs, a, slack) && !LimitKept(cfg, evs, a)
  {
    var evs := Overproduction(a, cfg.consumers[a].totalTokenLimit, slack);
    OverspendIsAttained(cfg, a, slack);
    ReservationsAreExact(cfg, evs, a);
  }

  /** A limit holds in every run exactly if nodes may not exceed the output estimates at all. */
  lemma LimitHoldsExactlyWithoutExcess(cfg: Config, a: string, slack: nat)
    requires a != "" && a in cfg.consumers && cfg.consumers[a].totalTokenLimit > 0
    ensures (forall evs :: Moderate(cfg, evs, a, slack) ==> LimitKept(cfg, evs, a)) <==> slack == 0
  {
    if slack == 0 {
      forall evs | Moderate(cfg, evs, a, slack) ensures LimitKept(cfg, evs, a) {
        ObedientNodesMeanNoOverspend(cfg, evs, a);
      }
    } else {
      ExcessBreaksTheLimit(cfg, a, slack);
    }
  }

  // ---- One more charge per takeover ---------------------------------------------------------

  const IDLE := Chat([Message("", "")], None)
  const NO_INPUT := S.Input("", "", "", "", "", "", Done("", 0, 0), 0, 0)

  function ClaimPart(i: nat, a: string, k: string, work: Work): seq<Event> {
    [Arrive(a, Some(k), work)] + [Do(i, Admit), Do(i, Claim(I.NoFault))]
  }

  function BillPart(i: nat): seq<Event> {
    [Do(i, Reserve), Do(i, DispatchSucceeds("node", "stop", 0))] + [Do(i, Record(true))]
  }

  function ClosePart(i: nat): seq<Event> {
    [Do(i, Settle(NO_INPUT, true)), Do(i, Complete(Some(I.NO_REPLY), I.FailsBefore))]
  }

  /** One handler from arrival to its end: everything succeeds but the last call, which cannot store the reply. */
  function Serve(i: nat, a: string, k: string, work: Work): seq<Event> {
    ClaimPart(i, a, k, work) + BillPart(i) + ClosePart(i)
  }

  /** Everything up to the n-th retry: all earlier replies were lost, and their claims have gone stale. */
  function Before(cfg: Config, a: string, k: string, n: nat): seq<Event>
    decreases n, 0
  {
    if n == 0 then []
    else Retries(cfg, a, k, n - 1) + [Tick(Patience(cfg))]
  }

  /** A client that asks again after each lost reply, always later than the time-to-live. */
  function Retries(cfg: Config, a: string, k: string, n: nat): seq<Event>
    decreases n, 1
  {
    Before(cfg, a, k, n) + Serve(n, a, k, IDLE)
  }

  /** The key can be claimed now, afresh or by takeover. */
  ghost predicate Claimable(cfg: Config, s: State, k: string) {
    k in s.world.table ==> s.world.table[k].InProgress? && s.now - s.world.table[k].createdAt > cfg.ttl
  }

  function Owning(a: string, k: string, work: Work, tookOver: bool): Request {
    NewRequest(a, Some(k), work).(stage := Reserving, owner := true, tookOver := tookOver)
  }

  function Sent(a: string, k: string, work: Work, tookOver: bool): Request {
    Owning(a, k, work, tookOver).(stage := Recording, provider := "node", done := MeasuredDone(work, "stop", 0))
  }

  function Charged(cfg: Config, a: string, k: string, work: Work, tookOver: bool): Request {
    Sent(a, k, work, tookOver).(stage := Settling, charged := true, inUse := true, durable := cfg.marketStored)
  }

  function Served(cfg: Config, a: string, k: string, work: Work, tookOver: bool): Request {
    Charged(cfg, a, k, work, tookOver).(stage := Finished, settled := cfg.settlementOn)
  }

  /** Other requests after a save, which writes the whole market. */
  function Kept(cfg: Config, reqs: seq<Request>): (out: seq<Request>)
    ensures |out| == |reqs|
    ensures forall i :: 0 <= i < |reqs| ==> out[i] == if cfg.marketStored then Persisted(reqs[i]) else reqs[i]
  {
    if cfg.marketStored then Each(reqs, x => Persisted(x)) else reqs
  }

  lemma ClaimSteps(cfg: Config, s: State, i: nat, a: string, k: string, work: Work)
    requires i < |s.reqs| && s.reqs[i] == NewRequest(a, Some(k), work)
    requires !Limited(s.world.book, a) && Claimable(cfg, s, k)
    ensures var s' := Do2(cfg, s, i, Admit, Claim(I.NoFault));
            && s'.now == s.now && s'.world.book == s.world.book
            && s'.world.table == s.world.table[k := I.InProgress(s.now)]
            && s'.reqs == s.reqs[i := Owning(a, k, work, k in s.world.table)]
  {
  }

  lemma SendSteps(cfg: Config, s: State, i: nat, a: string, k: string, work: Work, tookOver: bool)
    requires i < |s.reqs| && s.reqs[i] == Owning(a, k, work, tookOver) && !Limited(s.world.book, a)
    ensures var s' := Do2(cfg, s, i, Reserve, DispatchSucceeds("node", "stop", 0));
            && s'.now == s.now && s'.world == s.world && s'.reqs == s.reqs[i := Sent(a, k, work, tookOver)]
  {
  }

  lemma RecordStep(cfg: Config, s: State, i: nat, a: string, k: string, work: Work, tookOver: bool)
    requires i < |s.reqs| && s.reqs[i] == Sent(a, k, work, tookOver)
    ensures var s' := Step(cfg, s, Do(i, Record(true)));
            && s'.now == s.now && s'.world.table == s.world.table && s'.reqs == Kept(cfg, s.reqs)[i := Charged(cfg, a, k, work, tookOver)]
  {
  }

  lemma CloseSteps(cfg: Config, s: State, i: nat, a: string, k: string, work: Work, tookOver: bool)
    requires i < |s.reqs| && s.reqs[i] == Charged(cfg, a, k, work, tookOver)
    ensures var s' := Do2(cfg, s, i, Settle(NO_INPUT, true), Complete(Some(I.NO_REPLY), I.FailsBefore));
            && s'.now == s.now && s'.world.table == s.world.table && s'.reqs == s.reqs[i := Served(cfg, a, k, work, tookOver)]
  {
  }

  lemma ClaimRun(cfg: Config, evs: seq<Event>, a: string, k: string, work: Work)
    requires a != "" && cfg.idempotencyOn && work.Chat? && WellPosed(work) && !Limited(Run(cfg, evs).world.book, a)
    requires Claimable(cfg, Run(cfg, evs), k)
    ensures var s := Run(cfg, evs);
            var s' := Run(cfg, evs + ClaimPart(|s.reqs|, a, k, work));
            && s'.now == s.now && s'.world.book == s.world.book
            && s'.world.table == s.world.table[k := I.InProgress(s.now)]
            && s'.reqs == s.reqs + [Owning(a, k, work, k in s.world.table)]
  {
    var s := Run(cfg, evs);
    var i := |s.reqs|;
    var arrive := Arrive(a, Some(k), work);
    RunAppend(cfg, evs, arrive);
    RunTwo(cfg, evs + [arrive], i, Admit, Claim(I.NoFault));
    ClaimSteps(cfg, Step(cfg, s, arrive), i, a, k, work);
    assert evs + ClaimPart(i, a, k, work) == evs + [arrive] + [Do(i, Admit), Do(i, Claim(I.NoFault))];
  }

  lemma BillRun(cfg: Config, evs: seq<Event>, i: nat, a: string, k: string, work: Work, tookOver: bool)
    requires i < |Run(cfg, evs).reqs| && Run(cfg, evs).reqs[i] == Owning(a, k, work, tookOver)
    requires !Limited(Run(cfg, evs).world.book, a)
    ensures var s := Run(cfg, evs);
            var s' := Run(cfg, evs + BillPart(i));
            && s'.now == s.now && s'.world.table == s.world.table && s'.reqs == Kept(cfg, s.reqs)[i := Charged(cfg, a, k, work, tookOver)]
  {
    var s := Run(cfg, evs);
    var sent := evs + [Do(i, Reserve), Do(i, DispatchSucceeds("node", "stop", 0))];
    RunTwo(cfg, evs, i, Reserve, DispatchSucceeds("node", "stop", 0));
    SendSteps(cfg, s, i, a, k, work, tookOver);
    RunAppend(cfg, sent, Do(i, Record(true)));
    RecordStep(cfg, Run(cfg, sent), i, a, k, work, tookOver);
    assert evs + BillPart(i) == sent + [Do(i, Record(true))];
  }

  lemma CloseRun(cfg: Config, evs: seq<Event>, i: nat, a: string, k: string, work: Work, tookOver: bool)
    requires i < |Run(cfg, evs).reqs| && Run(cfg, evs).reqs[i] == Charged(cfg, a, k, work, tookOver)
    ensures var s := Run(cfg, evs);
            var s' := Run(cfg, evs + ClosePart(i));
            && s'.now == s.now && s'.world.table == s.world.table && s'.reqs == s.reqs[i := Served(cfg, a, k, work, tookOver)]
  {
    RunTwo(cfg, evs, i, Settle(NO_INPUT, true), Complete(Some(I.NO_REPLY), I.FailsBefore));
    CloseSteps(cfg, Run(cfg, evs), i, a, k, work, tookOver);
  }

  lemma ChargeRun(cfg: Config, evs: seq<Event>, i: nat, a: string, k: string, work: Work, tookOver: bool)
    requires i < |Run(cfg, evs).reqs| && Run(cfg, evs).reqs[i] == Owning(a, k, work, tookOver)
    requires !Limited(Run(cfg, evs).world.book, a)
    ensures var s := Run(cfg, evs);
            var s' := Run(cfg, evs + BillPart(i) + ClosePart(i));
            && s'.now == s.now && s'.world.table == s.world.table && s'.reqs == Kept(cfg, s.reqs)[i := Served(cfg, a, k, work, tookOver)]
  {
    BillRun(cfg, evs, i, a, k, work, tookOver);
    CloseRun(cfg, evs + BillPart(i), i, a, k, work, tookOver);
  }

  /** Wherever a key is claimable, one more handler is charged for it and leaves it claimed from now. */
  lemma ServeCharges(cfg: Config, evs: seq<Event>, a: string, k: string, work: Work)
    requires a != "" && cfg.idempotencyOn && work.Chat? && WellPosed(work)
    requires a in cfg.consumers ==> cfg.consumers[a].totalTokenLimit <= 0
    requires Claimable(cfg, Run(cfg, evs), k)
    ensures var s := Run(cfg, evs);
            var s' := Run(cfg, evs + Serve(|s.reqs|, a, k, work));
            && s'.now == s.now
            && s'.reqs == Kept(cfg, s.reqs) + [Served(cfg, a, k, work, k in s.world.table)]
            && k in s'.world.table && s'.world.table[k] == I.InProgress(s.now)
  {
    ConsumersFixed(cfg, evs);
    var s := Run(cfg, evs);
    var i := |s.reqs|;
    var claimed := evs + ClaimPart(i, a, k, work);
    ClaimRun(cfg, evs, a, k, work);
    ChargeRun(cfg, claimed, i, a, k, work, k in s.world.table);
    Regroup(evs, ClaimPart(i, a, k, work), BillPart(i), ClosePart(i));
    KeptAndServed(cfg, s.reqs, Owning(a, k, work, k in s.world.table), Served(cfg, a, k, work, k in s.world.table));
  }

  lemma KeptAndServed(cfg: Config, reqs: seq<Request>, last: Request, served: Request)
    ensures Kept(cfg, reqs + [last])[|reqs| := served] == Kept(cfg, reqs) + [served]
  {
  }

  /** For every n there is a run with n takeovers and n + 1 charges: the bound is tight. */
  lemma {:induction false} ChargesAreAttained(cfg: Config, a: string, k: string, n: nat)
    requires a != "" && cfg.idempotencyOn
    requires a in cfg.consumers ==> cfg.consumers[a].totalTokenLimit <= 0
    ensures var s := Run(cfg, Retries(cfg, a, k, n));
            && |s.reqs| == n + 1
            && SumBy(s.reqs, TakeoversBy(k)) == n
            && SumBy(s.reqs, ChargesBy(k)) == n + 1
            && k in s.world.table && s.world.table[k] == I.InProgress(s.now)
  {
    if n > 0 {
      ChargesAreAttained(cfg, a, k, n - 1);
      Wait(cfg, Retries(cfg, a, k, n - 1), k);
    }
    var evs := Before(cfg, a, k, n);
    ServeCharges(cfg, evs, a, k, IDLE);
    OneMoreCharge(cfg, Run(cfg, evs).reqs, a, k, IDLE, n > 0);
  }

  function Patience(cfg: Config): nat {
    if cfg.ttl < 0 then 1 else cfg.ttl + 1
  }

  lemma Wait(cfg: Config, evs: seq<Event>, k: string)
    requires k in Run(cfg, evs).world.table && Run(cfg, evs).world.table[k] == I.InProgress(Run(cfg, evs).now)
    ensures var s' := Run(cfg, evs + [Tick(Patience(cfg))]);
            Claimable(cfg, s', k) && k in s'.world.table && s'.reqs == Run(cfg, evs).reqs
                && s'.now == Run(cfg, evs).now + Patience(cfg)
  {
    RunAppend(cfg, evs, Tick(Patience(cfg)));
  }

  lemma OneMoreCharge(cfg: Config, reqs: seq<Request>, a: string, k: string, work: Work, tookOver: bool)
    ensures SumBy(Kept(cfg, reqs) + [Served(cfg, a, k, work, tookOver)], TakeoversBy(k)) == SumBy(reqs, TakeoversBy(k)) + B(tookOver)
    ensures SumBy(Kept(cfg, reqs) + [Served(cfg, a, k, work, tookOver)], ChargesBy(k)) == SumBy(reqs, ChargesBy(k)) + 1
  {
    SumAppend(Kept(cfg, reqs), Served(cfg, a, k, work, tookOver), TakeoversBy(k));
    SumAppend(Kept(cfg, reqs), Served(cfg, a, k, work, tookOver), ChargesBy(k));
    SumPointwise(Kept(cfg, reqs), reqs, TakeoversBy(k), TakeoversBy(k));
    SumPointwise(Kept(cfg, reqs), reqs, ChargesBy(k), ChargesBy(k));
  }
}
