/** What every run of the request protocol keeps. */
module LifecycleInvariants {
  import opened Results
  import opened Sums
  import opened Metering
  import opened Quota
  import opened HashChain
  import opened Lifecycle
  import S = Settlement
  import I = Idempotency

  // ---- What one request contributes ---------------------------------------------------------

  function B(b: bool): int {
    if b then 1 else 0
  }

  function GrantedTokens(r: Request): int {
    if r.granted.Some? then r.granted.value.tokens else 0
  }

  /** Tokens a request still holds reserved for account `a`. */
  function Outstanding(a: string, r: Request): int {
    if r.account == a && Holding(r.stage) then GrantedTokens(r) else 0
  }

  function PartyOf(side: S.Side, r: Request): string {
    match side
    case Consumers => r.account
    case Providers => r.provider
  }

  /** The two figures that usage records and settlement balances have in common. */
  datatype Figure = Requests | TotalTokens

  function Charge(side: S.Side, id: string, f: Figure, r: Request): int {
    if PartyOf(side, r) != id then 0
    else match f
      case Requests => 1
      case TotalTokens => Tokens(r.done)
  }

  function InUse(side: S.Side, id: string, f: Figure, r: Request): int {
    if r.inUse then Charge(side, id, f, r) else 0
  }

  function OnDisk(side: S.Side, id: string, f: Figure, r: Request): int {
    if r.durable then Charge(side, id, f, r) else 0
  }

  function InLedger(side: S.Side, id: string, f: Figure, r: Request): int {
    if r.settled then Charge(side, id, f, r) else 0
  }

  /** Tokens charged beyond what was reserved. */
  function Overshoot(a: string, r: Request): int {
    if r.charged && r.account == a && Tokens(r.done) > GrantedTokens(r) then Tokens(r.done) - GrantedTokens(r) else 0
  }

  function Holds(r: Request, k: string): bool {
    r.key.Some? && r.key.value == k
  }

  function Charges(k: string, r: Request): int {
    B(Holds(r, k) && r.charged)
  }

  function Takeovers(k: string, r: Request): int {
    B(Holds(r, k) && r.tookOver)
  }

  /** An owner that may still charge. */
  function LiveUncharged(k: string, r: Request): int {
    B(Holds(r, k) && r.owner && !r.charged && !r.stage.Finished?)
  }

  /** An owner that may still touch the row. */
  function LiveOwner(k: string, r: Request): int {
    B(Holds(r, k) && r.owner && !r.stage.Finished?)
  }

  // ---- The local invariant of one request ---------------------------------------------------

  ghost predicate Measured(r: Request) {
    && 0 <= r.done.promptTokens && 0 <= r.done.outputTokens
    && (r.work.Embedding? ==> Tokens(r.done) == Budget(r.work))
    && (r.work.Chat? ==> Tokens(r.done) - Budget(r.work) == r.done.outputTokens - OutputEstimate(r.work))
  }

  predicate Unclaimed(st: Stage) {
    st.Arrived? || st.Claiming?
  }

  predicate Holding(st: Stage) {
    st.Dispatching? || st.Recording?
  }

  predicate Uncharged(st: Stage) {
    Unclaimed(st) || st.Reserving? || Holding(st) || st.Aborting?
  }

  predicate Serving(st: Stage) {
    st.Reserving? || Holding(st) || st.Settling?
  }

  ghost predicate Sound(cfg: Config, r: Request) {
    && r.account != ""
    && (r.granted.Some? ==> r.granted.value.account == r.account && r.granted.value.tokens > 0)
    && (Holding(r.stage) || r.charged ==> Covered(cfg, r))
    && (Uncharged(r.stage) ==> !r.charged)
    && (Unclaimed(r.stage) ==> !r.owner)
    && (Serving(r.stage) && r.key.Some? ==> r.owner)
    && (r.stage.Completing? || r.stage.Aborting? ==> r.owner)
    && (r.stage.Settling? ==> r.charged && !r.settled)
    && (r.owner ==> r.key.Some?)
    && (r.tookOver ==> r.owner)
    && (r.charged && r.key.Some? ==> r.owner)
    && (r.charged || r.stage.Recording? ==> Measured(r))
    && (r.inUse ==> r.charged) && (r.durable ==> r.inUse) && (r.settled ==> r.charged)
  }

  /** A limited account's request goes to a node only with its whole budget reserved. */
  ghost predicate Covered(cfg: Config, r: Request) {
    r.account in cfg.consumers && cfg.consumers[r.account].totalTokenLimit > 0 ==> GrantedTokens(r) == Budget(r.work)
  }

  lemma ReserveCovers(cfg: Config, w: World, r: Request)
    requires w.book.consumers == cfg.consumers
    ensures Covered(cfg, r.(granted := Grant(w.book, r.account, Budget(r.work))))
  {
    BudgetIsNatural(r.work);
  }

  lemma BudgetIsNatural(work: Work)
    ensures 0 <= Budget(work)
  {
    ChargeBeyondBudget(work, "", 0);
  }

  lemma ReserveKeepsSound(cfg: Config, now: int, w: World, r: Request)
    requires Sound(cfg, r) && w.book.consumers == cfg.consumers
    ensures Sound(cfg, Act(cfg, now, w, r, Reserve).1)
  {
    ReserveCovers(cfg, w, r);
    var (w', r') := Act(cfg, now, w, r, Reserve);
    assert Covered(cfg, r.(granted := r'.granted)) ==> Covered(cfg, r');
  }

  lemma SucceedKeepsSound(cfg: Config, now: int, w: World, r: Request, provider: string, finish: string, chars: nat)
    requires Sound(cfg, r)
    ensures Sound(cfg, Act(cfg, now, w, r, DispatchSucceeds(provider, finish, chars)).1)
  {
    var r' := Act(cfg, now, w, r, DispatchSucceeds(provider, finish, chars)).1;
    if r.stage.Dispatching? {
      ChargeBeyondBudget(r.work, finish, chars);
      assert Measured(r');
      assert Covered(cfg, r) ==> Covered(cfg, r');
    }
  }

  lemma BillKeepsSound(cfg: Config, now: int, w: World, r: Request, action: Action)
    requires Sound(cfg, r) && (action.Record? || action.Settle?)
    ensures Sound(cfg, Act(cfg, now, w, r, action).1)
  {
    var r' := Act(cfg, now, w, r, action).1;
    assert Covered(cfg, r) ==> Covered(cfg, r');
    assert Measured(r) ==> Measured(r');
  }

  /** The calls that neither reserve, measure nor bill leave what they would need to be checked against alone. */
  lemma CallFrame(cfg: Config, now: int, w: World, r: Request, action: Action)
    requires !action.Reserve? && !action.DispatchSucceeds? && !action.Record? && !action.Settle?
    ensures var r' := Act(cfg, now, w, r, action).1;
            r' == r.(stage := r'.stage, owner := r'.owner, tookOver := r'.tookOver)
  {
  }

  lemma CallKeepsSound(cfg: Config, now: int, w: World, r: Request, action: Action)
    requires Sound(cfg, r)
    requires !action.Reserve? && !action.DispatchSucceeds? && !action.Record? && !action.Settle?
    ensures Sound(cfg, Act(cfg, now, w, r, action).1)
  {
    var r' := Act(cfg, now, w, r, action).1;
    CallFrame(cfg, now, w, r, action);
    assert Covered(cfg, r) ==> Covered(cfg, r');
    assert Measured(r) ==> Measured(r');
  }

  lemma ActKeepsSound(cfg: Config, now: int, w: World, r: Request, action: Action)
    requires Sound(cfg, r) && w.book.consumers == cfg.consumers
    ensures Sound(cfg, Act(cfg, now, w, r, action).1)
  {
    match action
    case Reserve => ReserveKeepsSound(cfg, now, w, r);
    case DispatchSucceeds(provider, finish, chars) => SucceedKeepsSound(cfg, now, w, r, provider, finish, chars);
    case Record(_) => BillKeepsSound(cfg, now, w, r, action);
    case Settle(_, _) => BillKeepsSound(cfg, now, w, r, action);
    case _ => CallKeepsSound(cfg, now, w, r, action);
  }

  // ---- Local steps change the shared state by exactly what they change in the request ------

  lemma ReservedFrame(cfg: Config, now: int, w: World, r: Request, action: Action)
    requires Sound(cfg, r) && !action.Reserve? && !action.DispatchFails? && !action.Record?
    ensures var (w', r') := Act(cfg, now, w, r, action);
            && w'.book == w.book && r'.account == r.account && r'.granted == r.granted
            && Holding(r'.stage) == Holding(r.stage)
  {
  }

  /** Both ways a handler ends its reservation, by release and by recording, give back exactly that reservation. */
  lemma GiveBackDelta(cfg: Config, now: int, w: World, r: Request, action: Action, a: string)
    requires Sound(cfg, r) && Positive(w.book) && Outstanding(r.account, r) <= ReservedTokens(w.book, r.account)
    requires action.DispatchFails? || action.Record?
    ensures var (w', r') := Act(cfg, now, w, r, action);
            && Positive(w'.book)
            && ReservedTokens(w'.book, a) - ReservedTokens(w.book, a) == Outstanding(a, r') - Outstanding(a, r)
  {
    if Holding(r.stage) { ReleaseDelta(w.book, r.granted, a); }
  }

  lemma ReservedDelta(cfg: Config, now: int, w: World, r: Request, action: Action, a: string)
    requires Sound(cfg, r) && Positive(w.book) && Outstanding(r.account, r) <= ReservedTokens(w.book, r.account)
    ensures var (w', r') := Act(cfg, now, w, r, action);
            && Positive(w'.book)
            && ReservedTokens(w'.book, a) - ReservedTokens(w.book, a) == Outstanding(a, r') - Outstanding(a, r)
  {
    match action
    case Reserve =>
      TakeDelta(w.book, Grant(w.book, r.account, Budget(r.work)), a);
    case DispatchFails => GiveBackDelta(cfg, now, w, r, action, a);
    case Record(_) => GiveBackDelta(cfg, now, w, r, action, a);
    case _ =>
      ReservedFrame(cfg, now, w, r, action);
  }

  /** Every usage record is stored under its own id and keeps its total equal to its parts. */
  ghost predicate Summed(use: map<string, Usage>) {
    forall id :: id in use ==> use[id].accountID == id && use[id].totalTokens == use[id].promptTokens + use[id].completionTokens
  }

  function UseOf(side: S.Side, c: map<string, Usage>, p: map<string, Usage>): map<string, Usage> {
    match side
    case Consumers => c
    case Providers => p
  }

  function Read(use: map<string, Usage>, id: string, f: Figure): int {
    if id !in use then 0
    else match f
      case Requests => use[id].requests
      case TotalTokens => use[id].totalTokens
  }

  function Used(w: World, side: S.Side, id: string, f: Figure): int {
    Read(UseOf(side, w.book.consumerUse, w.book.providerUse), id, f)
  }

  function SavedUse(w: World, side: S.Side, id: string, f: Figure): int {
    Read(UseOf(side, w.disk.consumerUse, w.disk.providerUse), id, f)
  }

  function Balance(w: World, side: S.Side, id: string, f: Figure): int {
    S.Figure(side, w.ledger, id, if f == Requests then S.Events else S.Tokens)
  }

  ghost predicate UsageSummed(w: World) {
    && Summed(w.book.consumerUse) && Summed(w.book.providerUse)
    && Summed(w.disk.consumerUse) && Summed(w.disk.providerUse)
  }

  lemma AddUsageReads(use: map<string, Usage>, account: string, done: Done, now: int, id: string, f: Figure)
    requires Summed(use) && account != ""
    ensures Summed(AddUsage(use, account, done, now))
    ensures Read(AddUsage(use, account, done, now), id, f) - Read(use, id, f)
         == if id != account then 0 else if f == Requests then 1 else Tokens(done)
  {
  }

  lemma BookReads(b: Book, grant: Option<Reservation>, consumer: string, provider: string, done: Done, now: int,
                  side: S.Side, id: string, f: Figure)
    requires Summed(b.consumerUse) && Summed(b.providerUse) && consumer != "" && id != ""
    ensures var b' := RecordReserved(b, grant, consumer, provider, done, now);
            && Summed(b'.consumerUse) && Summed(b'.providerUse)
            && Read(UseOf(side, b'.consumerUse, b'.providerUse), id, f) - Read(UseOf(side, b.consumerUse, b.providerUse), id, f)
                 == if id != (if side == S.Consumers then consumer else provider) then 0
                    else if f == Requests then 1 else Tokens(done)
  {
    AddUsageReads(b.consumerUse, consumer, done, now, id, f);
    if provider != "" {
      AddUsageReads(b.providerUse, provider, done, now, id, f);
    }
  }

  lemma RecordDelta(cfg: Config, now: int, w: World, r: Request, persisted: bool, side: S.Side, id: string, f: Figure)
    requires UsageSummed(w) && id != "" && r.account != ""
    ensures var (w', r') := DoRecord(cfg, now, w, r, persisted);
            && UsageSummed(w')
            && Used(w', side, id, f) - Used(w, side, id, f) == InUse(side, id, f, r')
            && (persisted && cfg.marketStored ==> SavedUse(w', side, id, f) == Used(w', side, id, f))
            && (!(persisted && cfg.marketStored) ==> w'.disk == w.disk && !r'.durable)
  {
    BookReads(w.book, r.granted, r.account, r.provider, r.done, now, side, id, f);
  }

  lemma RequestFrame(cfg: Config, now: int, w: World, r: Request, action: Action)
    requires Sound(cfg, r) && !(action.Record? && r.stage.Recording?)
    ensures var r' := Act(cfg, now, w, r, action).1;
            && r'.inUse == r.inUse && r'.durable == r.durable && r'.account == r.account
            && (r.charged ==> r'.provider == r.provider && r'.done == r.done)
  {
    if !action.Reserve? && !action.DispatchSucceeds? && !action.Record? && !action.Settle? {
      CallFrame(cfg, now, w, r, action);
    }
  }

  /** Every action but a recording leaves the usage maps, in memory and on disk, as they are. */
  lemma UsageFrame(cfg: Config, now: int, w: World, r: Request, action: Action)
    requires Sound(cfg, r) && !(action.Record? && r.stage.Recording?)
    ensures var (w', r') := Act(cfg, now, w, r, action);
            && w'.book.consumerUse == w.book.consumerUse && w'.book.providerUse == w.book.providerUse && w'.disk == w.disk
            && r'.inUse == r.inUse && r'.durable == r.durable && r'.account == r.account
            && (r.charged ==> r'.provider == r.provider && r'.done == r.done)
  {
    RequestFrame(cfg, now, w, r, action);
  }

  lemma UsedDelta(cfg: Config, now: int, w: World, r: Request, action: Action, side: S.Side, id: string, f: Figure)
    requires Sound(cfg, r) && UsageSummed(w) && id != ""
    ensures var (w', r') := Act(cfg, now, w, r, action);
            && UsageSummed(w')
            && Used(w', side, id, f) - Used(w, side, id, f) == InUse(side, id, f, r') - InUse(side, id, f, r)
            && (if Saves(cfg, r, action) then SavedUse(w', side, id, f) == Used(w', side, id, f)
                else SavedUse(w', side, id, f) == SavedUse(w, side, id, f) && OnDisk(side, id, f, r') == OnDisk(side, id, f, r))
  {
    if action.Record? && r.stage.Recording? {
      RecordDelta(cfg, now, w, r, action.persisted, side, id, f);
    } else {
      UsageFrame(cfg, now, w, r, action);
    }
  }

  lemma SettleDelta(cfg: Config, now: int, w: World, r: Request, input: S.Input, appended: bool,
                    side: S.Side, id: string, f: Figure)
    requires Sound(cfg, r) && r.stage.Settling?
    ensures var (w', r') := DoSettle(cfg, now, w, r, input, appended);
            Balance(w', side, id, f) - Balance(w, side, id, f) == InLedger(side, id, f, r')
  {
    if cfg.settlementOn && appended {
      var body := S.MakeBody(cfg.tariff, SettledInput(r, input), now);
      S.FigureAppend(side, w.ledger, Seal(cfg.digest, w.ledger, body), id, if f == Requests then S.Events else S.Tokens);
    }
  }

  lemma LedgerFrame(cfg: Config, now: int, w: World, r: Request, action: Action)
    requires Sound(cfg, r) && !(action.Settle? && r.stage.Settling?)
    ensures var (w', r') := Act(cfg, now, w, r, action);
            && w'.ledger == w.ledger && r'.settled == r.settled && r'.account == r.account
            && (r.charged ==> r'.provider == r.provider && r'.done == r.done)
  {
  }

  lemma LedgerDelta(cfg: Config, now: int, w: World, r: Request, action: Action, side: S.Side, id: string, f: Figure)
    requires Sound(cfg, r)
    ensures var (w', r') := Act(cfg, now, w, r, action);
            Balance(w', side, id, f) - Balance(w, side, id, f) == InLedger(side, id, f, r') - InLedger(side, id, f, r)
  {
    if action.Settle? && r.stage.Settling? {
      SettleDelta(cfg, now, w, r, action.input, action.appended, side, id, f);
    } else {
      LedgerFrame(cfg, now, w, r, action);
    }
  }

  /** Either potential of a key: rows held plus takeovers, less what still claims the key. */
  function RowExists(t: I.Table, k: string): int {
    B(k in t)
  }

  function RowOpen(t: I.Table, k: string): int {
    B(k in t && t[k].InProgress?)
  }

  function ChargeCredit(k: string, r: Request): int {
    Takeovers(k, r) - Charges(k, r) - LiveUncharged(k, r)
  }

  function OwnerCredit(k: string, r: Request): int {
    Takeovers(k, r) - LiveOwner(k, r)
  }

  /** No call of any handler, faulty or not, lowers either potential of any key. */
  lemma PotentialRises(cfg: Config, now: int, w: World, r: Request, action: Action, k: string)
    requires Sound(cfg, r)
    ensures var (w', r') := Act(cfg, now, w, r, action);
            && RowExists(w.table, k) + ChargeCredit(k, r) <= RowExists(w'.table, k) + ChargeCredit(k, r')
            && RowOpen(w.table, k) + OwnerCredit(k, r) <= RowOpen(w'.table, k) + OwnerCredit(k, r')
            && Takeovers(k, r) <= Takeovers(k, r')
  {
  }

  /** A step moves use plus reservations by at most the overshoot it adds, or lands within the limit. */
  lemma LimitDelta(cfg: Config, now: int, w: World, r: Request, action: Action, a: string)
    requires Sound(cfg, r) && Positive(w.book) && UsageSummed(w) && w.book.consumers == cfg.consumers && a != ""
    requires Outstanding(r.account, r) <= ReservedTokens(w.book, r.account)
    requires Limited(w.book, a)
    ensures var (w', r') := Act(cfg, now, w, r, action);
            var before, after := Committed(w, a), Committed(w', a);
            after - before <= Overshoot(a, r') - Overshoot(a, r) || after <= cfg.consumers[a].totalTokenLimit
    ensures Overshoot(a, r) <= Overshoot(a, Act(cfg, now, w, r, action).1)
  {
    UsedDelta(cfg, now, w, r, action, S.Consumers, a, TotalTokens);
    ReservedDelta(cfg, now, w, r, action, a);
    if !(action.Record? && r.stage.Recording?) {
      UsageFrame(cfg, now, w, r, action);
    }
    GrantFrame(cfg, now, w, r, action);
  }

  function Committed(w: World, a: string): int {
    Used(w, S.Consumers, a, TotalTokens) + ReservedTokens(w.book, a)
  }

  /** Only Reserve hands out a grant, and nothing takes one back or uncharges. */
  lemma GrantFrame(cfg: Config, now: int, w: World, r: Request, action: Action)
    requires Sound(cfg, r)
    ensures var (w', r') := Act(cfg, now, w, r, action);
            && r'.account == r.account && (r.charged ==> r'.charged)
            && (r'.charged && !r.charged ==> action.Record? && r.stage.Recording? && r'.done == r.done)
            && (r'.granted != r.granted ==>
                  && action.Reserve? && r.stage.Reserving? && !r'.charged
                  && Admits(w.book, r.account, Clamp(Budget(r.work)))
                  && r'.granted == Grant(w.book, r.account, Budget(r.work)))
  {
  }

  // ---- From one request to all of them ------------------------------------------------------

  lemma SumAfterAct(cfg: Config, s: State, i: nat, action: Action, f: Request -> int)
    requires i < |s.reqs|
    requires forall r :: f(Persisted(r)) == f(r)
    ensures SumBy(Step(cfg, s, Do(i, action)).reqs, f)
         == SumBy(s.reqs, f) - f(s.reqs[i]) + f(Act(cfg, s.now, s.world, s.reqs[i], action).1)
  {
    var r := Act(cfg, s.now, s.world, s.reqs[i], action).1;
    SumUpdate(s.reqs, i, r, f);
    SumPointwise(Step(cfg, s, Do(i, action)).reqs, s.reqs[i := r], f, f);
  }

  lemma SumAfterCrash(cfg: Config, s: State, f: Request -> int, g: Request -> int)
    requires forall r :: f(Died(cfg, r)) == g(r)
    ensures SumBy(Step(cfg, s, Crash).reqs, f) == SumBy(s.reqs, g)
  {
    SumPointwise(Step(cfg, s, Crash).reqs, s.reqs, f, g);
  }
}
