/** The guarantees of the request protocol over every run, and where they stop. */
module LifecycleTheorems {
  import opened Results
  import opened Sums
  import opened Metering
  import opened Quota
  import opened HashChain
  import opened Lifecycle
  import opened LifecycleInvariants
  import S = Settlement
  import I = Idempotency

  // ---- Totals over all requests -------------------------------------------------------------

  function OutstandingBy(a: string): Request -> int {
    (r: Request) => Outstanding(a, r)
  }

  function InUseBy(side: S.Side, id: string, f: Figure): Request -> int {
    (r: Request) => InUse(side, id, f, r)
  }

  function OnDiskBy(side: S.Side, id: string, f: Figure): Request -> int {
    (r: Request) => OnDisk(side, id, f, r)
  }

  function InLedgerBy(side: S.Side, id: string, f: Figure): Request -> int {
    (r: Request) => InLedger(side, id, f, r)
  }

  function OvershootBy(a: string): Request -> int {
    (r: Request) => Overshoot(a, r)
  }

  function ChargesBy(k: string): Request -> int {
    (r: Request) => Charges(k, r)
  }

  function TakeoversBy(k: string): Request -> int {
    (r: Request) => Takeovers(k, r)
  }

  function LiveUnchargedBy(k: string): Request -> int {
    (r: Request) => LiveUncharged(k, r)
  }

  function LiveOwnerBy(k: string): Request -> int {
    (r: Request) => LiveOwner(k, r)
  }

  // ---- The invariant ------------------------------------------------------------------------

  ghost predicate WellFormed(cfg: Config, s: State) {
    && s.world.book.consumers == cfg.consumers
    && Positive(s.world.book) && UsageSummed(s.world)
    && Valid(cfg.digest, s.world.ledger)
    && forall i :: 0 <= i < |s.reqs| ==> Sound(cfg, s.reqs[i])
  }

  ghost predicate ReservedAgrees(s: State, a: string) {
    ReservedTokens(s.world.book, a) == SumBy(s.reqs, OutstandingBy(a))
  }

  ghost predicate BooksAgree(s: State, side: S.Side, id: string, f: Figure) {
    && Used(s.world, side, id, f) == SumBy(s.reqs, InUseBy(side, id, f))
    && SavedUse(s.world, side, id, f) == SumBy(s.reqs, OnDiskBy(side, id, f))
    && Balance(s.world, side, id, f) == SumBy(s.reqs, InLedgerBy(side, id, f))
  }

  ghost predicate WithinLimit(cfg: Config, s: State, a: string) {
    Limited(s.world.book, a) ==>
      Committed(s.world, a) <= s.world.book.consumers[a].totalTokenLimit + SumBy(s.reqs, OvershootBy(a))
  }

  ghost predicate KeyGuarded(s: State, k: string) {
    && SumBy(s.reqs, ChargesBy(k)) + SumBy(s.reqs, LiveUnchargedBy(k))
         <= SumBy(s.reqs, TakeoversBy(k)) + RowExists(s.world.table, k)
    && SumBy(s.reqs, LiveOwnerBy(k)) <= SumBy(s.reqs, TakeoversBy(k)) + RowOpen(s.world.table, k)
  }

  ghost predicate Inv(cfg: Config, s: State) {
    && WellFormed(cfg, s)
    && (forall a :: ReservedAgrees(s, a))
    && (forall side, id, f :: id != "" ==> BooksAgree(s, side, id, f))
    && (forall a :: a != "" ==> WithinLimit(cfg, s, a))
    && (forall k :: KeyGuarded(s, k))
  }

  lemma WellFormedStep(cfg: Config, s: State, ev: Event)
    requires Inv(cfg, s)
    ensures WellFormed(cfg, Step(cfg, s, ev))
  {
    var s' := Step(cfg, s, ev);
    match ev
    case Arrive(account, key, work) =>
    case Do(i, action) =>
      if i < |s.reqs| {
        ActWellFormed(cfg, s, i, action);
      }
    case Tick(_) =>
    case Crash =>
      forall i | 0 <= i < |s'.reqs| ensures Sound(cfg, s'.reqs[i]) {
        assert s'.reqs[i] == Died(cfg, s.reqs[i]);
        DiedKeepsSound(cfg, s.reqs[i]);
      }
  }

  lemma DiedKeepsSound(cfg: Config, r: Request)
    requires Sound(cfg, r)
    ensures Sound(cfg, Died(cfg, r))
  {
    assert Covered(cfg, r) ==> Covered(cfg, Died(cfg, r));
    assert Measured(r) ==> Measured(Died(cfg, r));
  }

  lemma PersistedKeepsSound(cfg: Config, r: Request)
    requires Sound(cfg, r)
    ensures Sound(cfg, Persisted(r))
  {
    assert Covered(cfg, r) ==> Covered(cfg, Persisted(r));
    assert Measured(r) ==> Measured(Persisted(r));
  }

  /** A request never holds more than its account's entry. */
  lemma OwnShare(cfg: Config, s: State, i: nat)
    requires Inv(cfg, s) && i < |s.reqs|
    ensures Outstanding(s.reqs[i].account, s.reqs[i]) <= ReservedTokens(s.world.book, s.reqs[i].account)
  {
    var a := s.reqs[i].account;
    assert ReservedAgrees(s, a);
    SumAtLeastTerm(s.reqs, i, OutstandingBy(a));
  }

  lemma ActWellFormed(cfg: Config, s: State, i: nat, action: Action)
    requires Inv(cfg, s) && i < |s.reqs|
    ensures WellFormed(cfg, Step(cfg, s, Do(i, action)))
  {
    var s' := Step(cfg, s, Do(i, action));
    var r := s.reqs[i];
    var (w', r') := Act(cfg, s.now, s.world, r, action);
    OwnShare(cfg, s, i);
    ReservedDelta(cfg, s.now, s.world, r, action, r.account);
    UsedDelta(cfg, s.now, s.world, r, action, S.Consumers, r.account, Requests);
    ActKeepsSound(cfg, s.now, s.world, r, action);
    ActKeepsChain(cfg, s.now, s.world, r, action);
    forall j | 0 <= j < |s'.reqs| ensures Sound(cfg, s'.reqs[j]) {
      PersistedKeepsSound(cfg, s.reqs[i := r'][j]);
    }
  }

  lemma ActKeepsChain(cfg: Config, now: int, w: World, r: Request, action: Action)
    requires Valid(cfg.digest, w.ledger)
    ensures Valid(cfg.digest, Act(cfg, now, w, r, action).0.ledger)
    ensures Act(cfg, now, w, r, action).0.book.consumers == w.book.consumers
  {
    if action.Settle? {
      ExtendKeepsValid(cfg.digest, w.ledger, S.MakeBody(cfg.tariff, SettledInput(r, action.input), now));
    }
  }

  lemma ReservedStep(cfg: Config, s: State, ev: Event, a: string)
    requires Inv(cfg, s)
    ensures ReservedAgrees(Step(cfg, s, ev), a)
  {
    assert ReservedAgrees(s, a);
    if ev.Do? && ev.index < |s.reqs| {
      OwnShare(cfg, s, ev.index);
      ReservedAct(cfg, s, ev.index, ev.action, a);
    } else {
      ReservedElse(cfg, s, ev, a);
    }
  }

  lemma ReservedAct(cfg: Config, s: State, i: nat, action: Action, a: string)
    requires WellFormed(cfg, s) && ReservedAgrees(s, a) && i < |s.reqs|
    requires Outstanding(s.reqs[i].account, s.reqs[i]) <= ReservedTokens(s.world.book, s.reqs[i].account)
    ensures ReservedAgrees(Step(cfg, s, Do(i, action)), a)
  {
    ReservedDelta(cfg, s.now, s.world, s.reqs[i], action, a);
    SumAfterAct(cfg, s, i, action, OutstandingBy(a));
  }

  lemma ReservedElse(cfg: Config, s: State, ev: Event, a: string)
    requires ReservedAgrees(s, a) && (ev.Do? ==> |s.reqs| <= ev.index)
    ensures ReservedAgrees(Step(cfg, s, ev), a)
  {
    match ev
    case Arrive(account, key, work) =>
      SumAppend(s.reqs, NewRequest(account, if cfg.idempotencyOn then key else None, work), OutstandingBy(a));
    case Crash =>
      SumZero(Step(cfg, s, Crash).reqs, OutstandingBy(a));
    case _ =>
  }

  lemma BooksStep(cfg: Config, s: State, ev: Event, side: S.Side, id: string, f: Figure)
    requires Inv(cfg, s) && id != ""
    ensures BooksAgree(Step(cfg, s, ev), side, id, f)
  {
    assert BooksAgree(s, side, id, f);
    match ev
    case Arrive(account, key, work) =>
      var r := NewRequest(account, if cfg.idempotencyOn then key else None, work);
      SumAppend(s.reqs, r, InUseBy(side, id, f));
      SumAppend(s.reqs, r, OnDiskBy(side, id, f));
      SumAppend(s.reqs, r, InLedgerBy(side, id, f));
    case Do(i, action) =>
      if i < |s.reqs| {
        BooksAct(cfg, s, i, action, side, id, f);
      }
    case Tick(_) =>
    case Crash =>
      BooksCrash(cfg, s, side, id, f);
  }

  lemma BooksCrash(cfg: Config, s: State, side: S.Side, id: string, f: Figure)
    requires BooksAgree(s, side, id, f)
    ensures BooksAgree(Step(cfg, s, Crash), side, id, f)
  {
    SumAfterCrash(cfg, s, InUseBy(side, id, f), OnDiskBy(side, id, f));
    SumAfterCrash(cfg, s, OnDiskBy(side, id, f), OnDiskBy(side, id, f));
    LedgerCrash(cfg, s, side, id, f);
  }

  lemma LedgerCrash(cfg: Config, s: State, side: S.Side, id: string, f: Figure)
    requires Balance(s.world, side, id, f) == SumBy(s.reqs, InLedgerBy(side, id, f))
    ensures Balance(Step(cfg, s, Crash).world, side, id, f) == SumBy(Step(cfg, s, Crash).reqs, InLedgerBy(side, id, f))
  {
    if cfg.ledgerStored {
      SumAfterCrash(cfg, s, InLedgerBy(side, id, f), InLedgerBy(side, id, f));
    } else {
      SumZero(Step(cfg, s, Crash).reqs, InLedgerBy(side, id, f));
    }
  }

  lemma BooksAct(cfg: Config, s: State, i: nat, action: Action, side: S.Side, id: string, f: Figure)
    requires WellFormed(cfg, s) && BooksAgree(s, side, id, f) && i < |s.reqs| && id != ""
    ensures BooksAgree(Step(cfg, s, Do(i, action)), side, id, f)
  {
    var s' := Step(cfg, s, Do(i, action));
    var r := s.reqs[i];
    var r' := Act(cfg, s.now, s.world, r, action).1;
    UsedDelta(cfg, s.now, s.world, r, action, side, id, f);
    LedgerDelta(cfg, s.now, s.world, r, action, side, id, f);
    SumAfterAct(cfg, s, i, action, InUseBy(side, id, f));
    SumAfterAct(cfg, s, i, action, InLedgerBy(side, id, f));
    if Saves(cfg, r, action) {
      SumPointwise(s'.reqs, s'.reqs, OnDiskBy(side, id, f), InUseBy(side, id, f));
    } else {
      SumUpdate(s.reqs, i, r', OnDiskBy(side, id, f));
    }
  }

  lemma LimitStep(cfg: Config, s: State, ev: Event, a: string)
    requires Inv(cfg, s) && a != ""
    ensures WithinLimit(cfg, Step(cfg, s, ev), a)
  {
    assert WithinLimit(cfg, s, a);
    match ev
    case Arrive(account, key, work) =>
      SumAppend(s.reqs, NewRequest(account, if cfg.idempotencyOn then key else None, work), OvershootBy(a));
    case Do(i, action) =>
      if i < |s.reqs| {
        LimitAct(cfg, s, i, action, a);
      }
    case Tick(_) =>
    case Crash =>
      LimitCrash(cfg, s, a);
  }

  lemma LimitAct(cfg: Config, s: State, i: nat, action: Action, a: string)
    requires Inv(cfg, s) && i < |s.reqs| && a != ""
    ensures WithinLimit(cfg, Step(cfg, s, Do(i, action)), a)
  {
    var s' := Step(cfg, s, Do(i, action));
    var (w', r') := Act(cfg, s.now, s.world, s.reqs[i], action);
    ActKeepsChain(cfg, s.now, s.world, s.reqs[i], action);
    if Limited(s.world.book, a) {
      assert WithinLimit(cfg, s, a);
      OwnShare(cfg, s, i);
      LimitDelta(cfg, s.now, s.world, s.reqs[i], action, a);
      SumAfterAct(cfg, s, i, action, OvershootBy(a));
      OvershootCovers(s.reqs, i, r', a);
    }
  }

  lemma OvershootCovers(reqs: seq<Request>, i: nat, r': Request, a: string)
    requires i < |reqs| && Overshoot(a, reqs[i]) <= Overshoot(a, r')
    ensures 0 <= SumBy(reqs, OvershootBy(a)) - Overshoot(a, reqs[i]) + Overshoot(a, r')
  {
    SumNonNegative(reqs, OvershootBy(a));
  }

  /** A restart forgets reservations and unsaved usage, never an overshoot. */
  lemma LimitCrash(cfg: Config, s: State, a: string)
    requires Inv(cfg, s) && a != ""
    ensures WithinLimit(cfg, Step(cfg, s, Crash), a)
  {
    assert BooksAgree(s, S.Consumers, a, TotalTokens) && ReservedAgrees(s, a) && WithinLimit(cfg, s, a);
    CrashLimit(cfg, s, a);
  }

  lemma CrashLimit(cfg: Config, s: State, a: string)
    requires WellFormed(cfg, s) && BooksAgree(s, S.Consumers, a, TotalTokens) && ReservedAgrees(s, a) && WithinLimit(cfg, s, a)
    ensures WithinLimit(cfg, Step(cfg, s, Crash), a)
  {
    SumAfterCrash(cfg, s, OvershootBy(a), OvershootBy(a));
    DiskLags(cfg, s, a);
    ReservedIsNatural(s, a);
    CrashReads(cfg, s, a);
  }

  lemma ReservedIsNatural(s: State, a: string)
    requires Positive(s.world.book)
    ensures 0 <= ReservedTokens(s.world.book, a)
  {
  }

  lemma CrashReads(cfg: Config, s: State, a: string)
    ensures var w := Step(cfg, s, Crash).world;
            && w.book.consumers == s.world.book.consumers
            && Committed(w, a) == SavedUse(s.world, S.Consumers, a, TotalTokens)
  {
  }

  lemma DiskLags(cfg: Config, s: State, a: string)
    requires WellFormed(cfg, s)
    ensures SumBy(s.reqs, OnDiskBy(S.Consumers, a, TotalTokens)) <= SumBy(s.reqs, InUseBy(S.Consumers, a, TotalTokens))
  {
    SumMonotone(s.reqs, s.reqs, OnDiskBy(S.Consumers, a, TotalTokens), InUseBy(S.Consumers, a, TotalTokens));
  }

  lemma KeyStep(cfg: Config, s: State, ev: Event, k: string)
    requires Inv(cfg, s)
    ensures KeyGuarded(Step(cfg, s, ev), k)
    ensures SumBy(s.reqs, TakeoversBy(k)) <= SumBy(Step(cfg, s, ev).reqs, TakeoversBy(k))
  {
    assert KeyGuarded(s, k);
    match ev
    case Arrive(account, key, work) =>
      var r := NewRequest(account, if cfg.idempotencyOn then key else None, work);
      SumAppend(s.reqs, r, ChargesBy(k));
      SumAppend(s.reqs, r, TakeoversBy(k));
      SumAppend(s.reqs, r, LiveUnchargedBy(k));
      SumAppend(s.reqs, r, LiveOwnerBy(k));
    case Do(i, action) =>
      if i < |s.reqs| {
        KeyAct(cfg, s, i, action, k);
      }
    case Tick(_) =>
    case Crash =>
      KeyCrash(cfg, s, k);
  }

  lemma KeyAct(cfg: Config, s: State, i: nat, action: Action, k: string)
    requires KeyGuarded(s, k) && i < |s.reqs| && Sound(cfg, s.reqs[i])
    ensures KeyGuarded(Step(cfg, s, Do(i, action)), k)
    ensures SumBy(s.reqs, TakeoversBy(k)) <= SumBy(Step(cfg, s, Do(i, action)).reqs, TakeoversBy(k))
  {
    PotentialRises(cfg, s.now, s.world, s.reqs[i], action, k);
    SumAfterAct(cfg, s, i, action, ChargesBy(k));
    SumAfterAct(cfg, s, i, action, TakeoversBy(k));
    SumAfterAct(cfg, s, i, action, LiveUnchargedBy(k));
    SumAfterAct(cfg, s, i, action, LiveOwnerBy(k));
    assert Step(cfg, s, Do(i, action)).world == Act(cfg, s.now, s.world, s.reqs[i], action).0;
  }

  lemma KeyCrash(cfg: Config, s: State, k: string)
    requires KeyGuarded(s, k)
    ensures KeyGuarded(Step(cfg, s, Crash), k)
    ensures SumBy(s.reqs, TakeoversBy(k)) == SumBy(Step(cfg, s, Crash).reqs, TakeoversBy(k))
  {
    KeyTotalsSurvive(cfg, s, k);
    NobodyLives(cfg, s, k);
    SumNonNegative(s.reqs, LiveUnchargedBy(k));
    SumNonNegative(s.reqs, TakeoversBy(k));
  }

  lemma KeyTotalsSurvive(cfg: Config, s: State, k: string)
    ensures SumBy(s.reqs, ChargesBy(k)) == SumBy(Step(cfg, s, Crash).reqs, ChargesBy(k))
    ensures SumBy(s.reqs, TakeoversBy(k)) == SumBy(Step(cfg, s, Crash).reqs, TakeoversBy(k))
  {
    SumAfterCrash(cfg, s, ChargesBy(k), ChargesBy(k));
    SumAfterCrash(cfg, s, TakeoversBy(k), TakeoversBy(k));
  }

  lemma NobodyLives(cfg: Config, s: State, k: string)
    ensures SumBy(Step(cfg, s, Crash).reqs, LiveUnchargedBy(k)) == 0
    ensures SumBy(Step(cfg, s, Crash).reqs, LiveOwnerBy(k)) == 0
  {
    SumZero(Step(cfg, s, Crash).reqs, LiveUnchargedBy(k));
    SumZero(Step(cfg, s, Crash).reqs, LiveOwnerBy(k));
  }

  lemma StepKeepsInv(cfg: Config, s: State, ev: Event)
    requires Inv(cfg, s)
    ensures Inv(cfg, Step(cfg, s, ev))
  {
    var s' := Step(cfg, s, ev);
    WellFormedStep(cfg, s, ev);
    forall a ensures ReservedAgrees(s', a) { ReservedStep(cfg, s, ev, a); }
    forall side, id, f | id != "" ensures BooksAgree(s', side, id, f) { BooksStep(cfg, s, ev, side, id, f); }
    forall a | a != "" ensures WithinLimit(cfg, s', a) { LimitStep(cfg, s, ev, a); }
    forall k ensures KeyGuarded(s', k) { KeyStep(cfg, s, ev, k); }
  }

  lemma {:induction false} RunKeepsInv(cfg: Config, evs: seq<Event>)
    ensures Inv(cfg, Run(cfg, evs))
  {
    if evs != [] {
      RunKeepsInv(cfg, evs[..|evs| - 1]);
      StepKeepsInv(cfg, Run(cfg, evs[..|evs| - 1]), evs[|evs| - 1]);
    }
  }

  lemma ConsumersFixed(cfg: Config, evs: seq<Event>)
    ensures Run(cfg, evs).world.book.consumers == cfg.consumers
  {
    RunKeepsInv(cfg, evs);
  }

  // ---- Quota --------------------------------------------------------------------------------

  /** Every reservation is outstanding exactly while its request runs, and none is ever lost. */
  lemma ReservationsAreExact(cfg: Config, evs: seq<Event>, a: string)
    ensures ReservedTokens(Run(cfg, evs).world.book, a) == SumBy(Run(cfg, evs).reqs, OutstandingBy(a))
    ensures a in Run(cfg, evs).world.book.reserved ==> Run(cfg, evs).world.book.reserved[a] > 0
  {
    RunKeepsInv(cfg, evs);
    assert ReservedAgrees(Run(cfg, evs), a);
  }

  /** Once no request is between its reservation and its bill, nothing is reserved. */
  lemma QuietMeansUnreserved(cfg: Config, evs: seq<Event>)
    requires forall r :: r in Run(cfg, evs).reqs ==> !Holding(r.stage)
    ensures Run(cfg, evs).world.book.reserved == map[]
  {
    var s := Run(cfg, evs);
    forall a ensures a !in s.world.book.reserved {
      ReservationsAreExact(cfg, evs, a);
      forall i | 0 <= i < |s.reqs| ensures OutstandingBy(a)(s.reqs[i]) == 0 {
        assert s.reqs[i] in s.reqs;
      }
      SumZero(s.reqs, OutstandingBy(a));
    }
  }

  /**
   No overspend: recorded use and reservations of a limited account never exceed its limit by
   more than what its finished requests were charged beyond their reservations.
   */
  lemma NoOverspend(cfg: Config, evs: seq<Event>, a: string)
    requires a != "" && a in cfg.consumers && cfg.consumers[a].totalTokenLimit > 0
    ensures Used(Run(cfg, evs).world, S.Consumers, a, TotalTokens) + ReservedTokens(Run(cfg, evs).world.book, a)
         <= cfg.consumers[a].totalTokenLimit + SumBy(Run(cfg, evs).reqs, OvershootBy(a))
  {
    RunKeepsInv(cfg, evs);
    assert WithinLimit(cfg, Run(cfg, evs), a);
  }

  /** What a charge exceeds its reservation by: nothing for embeddings, output past the estimate for chat. */
  lemma OvershootIsExcessOutput(cfg: Config, evs: seq<Event>, i: nat)
    requires i < |Run(cfg, evs).reqs|
    requires var a := Run(cfg, evs).reqs[i].account; a in cfg.consumers && cfg.consumers[a].totalTokenLimit > 0
    ensures var r := Run(cfg, evs).reqs[i];
            var excess := r.done.outputTokens - OutputEstimate(r.work);
            Overshoot(r.account, r) == if r.charged && r.work.Chat? && excess > 0 then excess else 0
  {
    RunKeepsInv(cfg, evs);
    var r := Run(cfg, evs).reqs[i];
    assert Sound(cfg, r);
  }

  /** While nodes stay within what was asked of them, a limit is a limit. */
  lemma ObedientNodesMeanNoOverspend(cfg: Config, evs: seq<Event>, a: string)
    requires a != "" && a in cfg.consumers && cfg.consumers[a].totalTokenLimit > 0
    requires forall r :: r in Run(cfg, evs).reqs && r.account == a && r.work.Chat? ==>
               r.done.outputTokens <= OutputEstimate(r.work)
    ensures Used(Run(cfg, evs).world, S.Consumers, a, TotalTokens) + ReservedTokens(Run(cfg, evs).world.book, a)
         <= cfg.consumers[a].totalTokenLimit
  {
    var s := Run(cfg, evs);
    NoOverspend(cfg, evs, a);
    forall i | 0 <= i < |s.reqs| ensures OvershootBy(a)(s.reqs[i]) == 0 {
      assert s.reqs[i] in s.reqs;
      if s.reqs[i].account == a {
        OvershootIsExcessOutput(cfg, evs, i);
      }
    }
    SumZero(s.reqs, OvershootBy(a));
  }

  // ---- Idempotency --------------------------------------------------------------------------

  /** A key is charged at most once more than it was taken over. */
  lemma ChargesBoundedByTakeovers(cfg: Config, evs: seq<Event>, k: string)
    ensures SumBy(Run(cfg, evs).reqs, ChargesBy(k)) <= 1 + SumBy(Run(cfg, evs).reqs, TakeoversBy(k))
  {
    RunKeepsInv(cfg, evs);
    assert KeyGuarded(Run(cfg, evs), k);
    SumNonNegative(Run(cfg, evs).reqs, LiveUnchargedBy(k));
  }

  /** With nobody left who owns the key, no call can change a completed row. */
  lemma CompletedRowHolds(cfg: Config, now: int, w: World, r: Request, action: Action, k: string)
    requires Sound(cfg, r) && k in w.table && w.table[k].Completed? && LiveOwner(k, r) == 0
    ensures var t := Act(cfg, now, w, r, action).0.table;
            k in t && t[k] == w.table[k]
  {
  }

  lemma CompletedRowStep(cfg: Config, s: State, ev: Event, k: string)
    requires Inv(cfg, s) && k in s.world.table && s.world.table[k].Completed?
    requires SumBy(s.reqs, TakeoversBy(k)) == 0
    ensures k in Step(cfg, s, ev).world.table && Step(cfg, s, ev).world.table[k] == s.world.table[k]
  {
    if ev.Do? && ev.index < |s.reqs| {
      assert KeyGuarded(s, k);
      SumAtLeastTerm(s.reqs, ev.index, LiveOwnerBy(k));
      CompletedRowHolds(cfg, s.now, s.world, s.reqs[ev.index], ev.action, k);
    }
  }

  /** The answer replayed for a key never changes unless somebody took the key over. */
  lemma {:induction false} ReplayIsStable(cfg: Config, evs: seq<Event>, more: seq<Event>, k: string)
    requires k in Run(cfg, evs).world.table && Run(cfg, evs).world.table[k].Completed?
    requires SumBy(Run(cfg, evs + more).reqs, TakeoversBy(k)) == 0
    ensures k in Run(cfg, evs + more).world.table
    ensures Run(cfg, evs + more).world.table[k] == Run(cfg, evs).world.table[k]
  {
    if more == [] {
      assert evs + more == evs;
    } else {
      var n := |more| - 1;
      assert evs + more == evs + more[..n] + [more[n]];
      NoTakeoverBefore(cfg, evs + more[..n], more[n], k);
      ReplayIsStable(cfg, evs, more[..n], k);
      RowStaysCompleted(cfg, evs + more[..n], more[n], k);
    }
  }

  lemma NoTakeoverBefore(cfg: Config, evs: seq<Event>, ev: Event, k: string)
    requires SumBy(Run(cfg, evs + [ev]).reqs, TakeoversBy(k)) == 0
    ensures SumBy(Run(cfg, evs).reqs, TakeoversBy(k)) == 0
  {
    assert (evs + [ev])[..|evs|] == evs;
    RunKeepsInv(cfg, evs);
    KeyStep(cfg, Run(cfg, evs), ev, k);
    SumNonNegative(Run(cfg, evs).reqs, TakeoversBy(k));
  }

  lemma RowStaysCompleted(cfg: Config, evs: seq<Event>, ev: Event, k: string)
    requires k in Run(cfg, evs).world.table && Run(cfg, evs).world.table[k].Completed?
    requires SumBy(Run(cfg, evs).reqs, TakeoversBy(k)) == 0
    ensures k in Run(cfg, evs + [ev]).world.table
    ensures Run(cfg, evs + [ev]).world.table[k] == Run(cfg, evs).world.table[k]
  {
    assert (evs + [ev])[..|evs|] == evs;
    RunKeepsInv(cfg, evs);
    CompletedRowStep(cfg, Run(cfg, evs), ev, k);
  }

  // ---- Two ledgers --------------------------------------------------------------------------

  /** Usage recorded but not (or not yet) settled. */
  function Unsettled(side: S.Side, id: string, f: Figure): Request -> int {
    (r: Request) => if r.inUse && !r.settled then Charge(side, id, f, r) else 0
  }

  /** Settled usage that a crash took out of the usage maps. */
  function Forgotten(side: S.Side, id: string, f: Figure): Request -> int {
    (r: Request) => if r.settled && !r.inUse then Charge(side, id, f, r) else 0
  }

  lemma {:induction false} SumDifference(reqs: seq<Request>, side: S.Side, id: string, f: Figure)
    ensures SumBy(reqs, InUseBy(side, id, f)) - SumBy(reqs, InLedgerBy(side, id, f))
         == SumBy(reqs, Unsettled(side, id, f)) - SumBy(reqs, Forgotten(side, id, f))
  {
    if reqs != [] {
      SumDifference(reqs[..|reqs| - 1], side, id, f);
    }
  }

  /** Faults and crashes included, usage and settlement differ by exactly the requests only one of them holds. */
  lemma LedgersDifferByName(cfg: Config, evs: seq<Event>, side: S.Side, id: string, f: Figure)
    requires id != ""
    ensures Used(Run(cfg, evs).world, side, id, f) - Balance(Run(cfg, evs).world, side, id, f)
         == SumBy(Run(cfg, evs).reqs, Unsettled(side, id, f)) - SumBy(Run(cfg, evs).reqs, Forgotten(side, id, f))
  {
    RunKeepsInv(cfg, evs);
    assert BooksAgree(Run(cfg, evs), side, id, f);
    SumDifference(Run(cfg, evs).reqs, side, id, f);
  }

  /** Settlement is on, nothing crashes, and no settlement append is refused. */
  ghost predicate Faultless(cfg: Config, evs: seq<Event>) {
    && cfg.settlementOn
    && forall i :: 0 <= i < |evs| ==>
         !evs[i].Crash? && (evs[i].Do? && evs[i].action.Settle? ==> evs[i].action.appended)
  }

  ghost predicate OnTrack(r: Request) {
    (r.inUse <==> r.charged) && (r.settled <==> r.charged && !r.stage.Settling?)
  }

  lemma ActStaysOnTrack(cfg: Config, now: int, w: World, r: Request, action: Action)
    requires Sound(cfg, r) && OnTrack(r) && cfg.settlementOn && (action.Settle? ==> action.appended)
    ensures OnTrack(Act(cfg, now, w, r, action).1)
  {
  }

  lemma {:induction false} FaultlessStaysOnTrack(cfg: Config, evs: seq<Event>)
    requires Faultless(cfg, evs)
    ensures forall i :: 0 <= i < |Run(cfg, evs).reqs| ==> OnTrack(Run(cfg, evs).reqs[i])
  {
    if evs != [] {
      var n := |evs| - 1;
      var s, s' := Run(cfg, evs[..n]), Run(cfg, evs);
      FaultlessStaysOnTrack(cfg, evs[..n]);
      RunKeepsInv(cfg, evs[..n]);
      match evs[n]
      case Do(i, action) =>
        if i < |s.reqs| {
          ActStaysOnTrack(cfg, s.now, s.world, s.reqs[i], action);
        }
      case _ =>
    }
  }

  /** What a request that has recorded its usage and is about to settle contributes. */
  function Pending(side: S.Side, id: string, f: Figure): Request -> int {
    (r: Request) => if r.stage.Settling? then Charge(side, id, f, r) else 0
  }

  /** Without faults, each account's usage is its settlement balance plus the bills in flight. */
  lemma LedgersAgree(cfg: Config, evs: seq<Event>, side: S.Side, id: string, f: Figure)
    requires Faultless(cfg, evs) && id != ""
    ensures Used(Run(cfg, evs).world, side, id, f)
         == Balance(Run(cfg, evs).world, side, id, f) + SumBy(Run(cfg, evs).reqs, Pending(side, id, f))
  {
    var reqs := Run(cfg, evs).reqs;
    LedgersDifferByName(cfg, evs, side, id, f);
    FaultlessStaysOnTrack(cfg, evs);
    RunKeepsInv(cfg, evs);
    PendingIsUnsettled(cfg, reqs, side, id, f);
  }

  lemma PendingIsUnsettled(cfg: Config, reqs: seq<Request>, side: S.Side, id: string, f: Figure)
    requires forall i :: 0 <= i < |reqs| ==> OnTrack(reqs[i]) && Sound(cfg, reqs[i])
    ensures SumBy(reqs, Unsettled(side, id, f)) == SumBy(reqs, Pending(side, id, f))
    ensures SumBy(reqs, Forgotten(side, id, f)) == 0
  {
    SumPointwise(reqs, reqs, Unsettled(side, id, f), Pending(side, id, f));
    SumZero(reqs, Forgotten(side, id, f));
  }
}
