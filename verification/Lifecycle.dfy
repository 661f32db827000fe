/**
 The request protocol of the three inference handlers as one transition system: any number of
 requests, each a thread that takes one atomic store, market or ledger call at a time, in any
 interleaving, with storage faults and whole-process crashes.
 */
module Lifecycle {
  import opened Results
  import opened Metering
  import opened Quota
  import opened HashChain
  import S = Settlement
  import I = Idempotency

  datatype Config = Config(consumers: map<string, Consumer>, marketStored: bool, idempotencyOn: bool, ttl: int,
                           settlementOn: bool, ledgerStored: bool, tariff: S.Tariff, digest: Digest<S.Body>)

  /** Where a handler stands: the name of the call it will make next. */
  datatype Stage =
    | Arrived | Claiming | Reserving | Dispatching | Recording | Settling | Completing | Aborting | Finished

  datatype Request = Request(
    account: string, key: Option<string>, work: Work,
    stage: Stage,
    owner: bool, tookOver: bool,            // what Begin answered
    granted: Option<Reservation>,           // what the quota check handed out
    provider: string, done: Done,           // who served it and what it measured
    charged: bool,                          // usage was recorded for it
    inUse: bool, durable: bool,             // the usage maps hold it, in memory and on disk
    settled: bool)                          // the settlement ledger holds it

  datatype Saved = Saved(consumerUse: map<string, Usage>, providerUse: map<string, Usage>)

  /** Everything the handlers share. */
  datatype World = World(book: Book, disk: Saved, table: I.Table, ledger: seq<S.Event>)

  datatype State = State(now: int, world: World, reqs: seq<Request>)

  datatype Action =
    | Admit
    | Claim(fault: I.Fault)
    | Reserve
    | DispatchFails
    | DispatchSucceeds(provider: string, finish: string, outputChars: nat)
    | Record(persisted: bool)
    | Settle(input: S.Input, appended: bool)
    | Complete(reply: Option<I.Reply>, fault: I.Fault)
    | Abort(fault: I.Fault)

  datatype Event =
    | Arrive(account: string, key: Option<string>, work: Work)
    | Do(index: nat, action: Action)
    | Tick(elapsed: nat)
    | Crash

  function Init(cfg: Config): State {
    State(0, World(Book(cfg.consumers, map[], map[], map[]), Saved(map[], map[]), map[], []), [])
  }

  function NewRequest(account: string, key: Option<string>, work: Work): Request {
    Request(account, key, work, Arrived, false, false, None, "", Done("", 0, 0), false, false, false, false)
  }

  /** Every failing path of a claimed request goes through Abort. */
  function GiveUp(r: Request): Request {
    r.(stage := if r.owner then Aborting else Finished)
  }

  function DoClaim(cfg: Config, now: int, w: World, r: Request, key: string, fault: I.Fault): (World, Request) {
    var w' := w.(table := I.Faulty(fault, w.table, I.Claimed(w.table, cfg.ttl, key, now)));
    if fault != I.NoFault then (w', r.(stage := Finished))
    else match I.Decide(w.table, cfg.ttl, key, now)
      case Fresh => (w', r.(owner := true, stage := Reserving))
      case Takeover => (w', r.(owner := true, tookOver := true, stage := Reserving))
      case _ => (w', r.(stage := Finished))
  }

  function DoRecord(cfg: Config, now: int, w: World, r: Request, persisted: bool): (World, Request) {
    var book := RecordReserved(w.book, r.granted, r.account, r.provider, r.done, now);
    var kept := persisted && cfg.marketStored;
    (w.(book := book, disk := if kept then Saved(book.consumerUse, book.providerUse) else w.disk),
     r.(charged := true, inUse := true, durable := kept, stage := Settling))
  }

  /** The settlement record repeats what was measured, whoever dispatched it and however long it took. */
  function SettledInput(r: Request, input: S.Input): S.Input {
    input.(consumerID := r.account, providerID := r.provider, done := r.done)
  }

  function DoSettle(cfg: Config, now: int, w: World, r: Request, input: S.Input, appended: bool): (World, Request) {
    var r' := r.(stage := if r.owner then Completing else Finished);
    if cfg.settlementOn && appended then
      var body := S.MakeBody(cfg.tariff, SettledInput(r, input), now);
      (w.(ledger := Extend(cfg.digest, w.ledger, body)), r'.(settled := true))
    else (w, r')
  }

  /** One atomic call of one handler; a call out of turn changes nothing. */
  function Act(cfg: Config, now: int, w: World, r: Request, action: Action): (World, Request) {
    match action
    case Admit =>
      if !r.stage.Arrived? then (w, r)
      else if !Admits(w.book, r.account, 0) then (w, r.(stage := Finished))
      else (w, r.(stage := if r.key.Some? then Claiming else Reserving))
    case Claim(fault) =>
      if !r.stage.Claiming? || r.key.None? then (w, r)
      else DoClaim(cfg, now, w, r, r.key.value, fault)
    case Reserve =>
      if !r.stage.Reserving? then (w, r)
      else if !Admits(w.book, r.account, Clamp(Budget(r.work))) then (w, GiveUp(r))
      else
        var grant := Grant(w.book, r.account, Budget(r.work));
        (w.(book := Take(w.book, grant)), r.(granted := grant, stage := Dispatching))
    case DispatchFails =>
      if !r.stage.Dispatching? then (w, r)
      else (w.(book := Release(w.book, r.granted)), GiveUp(r))
    case DispatchSucceeds(provider, finish, outputChars) =>
      if !r.stage.Dispatching? then (w, r)
      else (w, r.(provider := provider, done := MeasuredDone(r.work, finish, outputChars), stage := Recording))
    case Record(persisted) =>
      if !r.stage.Recording? then (w, r) else DoRecord(cfg, now, w, r, persisted)
    case Settle(input, appended) =>
      if !r.stage.Settling? then (w, r) else DoSettle(cfg, now, w, r, input, appended)
    case Complete(reply, fault) =>
      if !r.stage.Completing? || r.key.None? then (w, r)
      else if reply.None? then (w, r.(stage := Finished))
      else (w.(table := I.Faulty(fault, w.table, I.Completed'(w.table, r.key.value, reply.value))), r.(stage := Finished))
    case Abort(fault) =>
      if !r.stage.Aborting? || r.key.None? then (w, r)
      else (w.(table := I.Faulty(fault, w.table, I.Aborted(w.table, r.key.value))), r.(stage := Finished))
  }

  /** A successful save writes the whole market, so everything in memory becomes durable. */
  function Persisted(r: Request): Request {
    r.(durable := r.inUse)
  }

  function Saves(cfg: Config, r: Request, action: Action): bool {
    cfg.marketStored && r.stage.Recording? && action.Record? && action.persisted
  }

  /** A crash kills every handler and reloads usage and ledger from their stores. */
  function Died(cfg: Config, r: Request): Request {
    r.(stage := Finished, inUse := r.durable, settled := r.settled && cfg.ledgerStored)
  }

  function Restarted(cfg: Config, w: World): World {
    w.(book := Book(w.book.consumers, w.disk.consumerUse, w.disk.providerUse, map[]),
       ledger := if cfg.ledgerStored then w.ledger else [])
  }

  function Each(reqs: seq<Request>, change: Request -> Request): (out: seq<Request>)
    ensures |out| == |reqs| && forall i :: 0 <= i < |reqs| ==> out[i] == change(reqs[i])
  {
    seq(|reqs|, i requires 0 <= i < |reqs| => change(reqs[i]))
  }

  /** What the handlers answer with 400 before they touch anything shared is not a request here. */
  predicate WellPosed(work: Work) {
    match work
    case Chat(messages, _) => messages != []
    case Embedding(input) => input != [] && "" !in input
  }

  function Step(cfg: Config, s: State, ev: Event): State {
    match ev
    case Arrive(account, key, work) =>
      // The consumer id is never empty, and only non-streaming chat may carry a key.
      if account == "" || !WellPosed(work) || (key.Some? && work.Embedding?) then s
      else s.(reqs := s.reqs + [NewRequest(account, if cfg.idempotencyOn then key else None, work)])
    case Do(i, action) =>
      if i >= |s.reqs| then s
      else
        var (w, r) := Act(cfg, s.now, s.world, s.reqs[i], action);
        var reqs := s.reqs[i := r];
        State(s.now, w, if Saves(cfg, s.reqs[i], action) then Each(reqs, x => Persisted(x)) else reqs)
    case Tick(elapsed) => s.(now := s.now + elapsed)
    case Crash => State(s.now, Restarted(cfg, s.world), Each(s.reqs, x => Died(cfg, x)))
  }

  function Run(cfg: Config, evs: seq<Event>): State {
    if evs == [] then Init(cfg) else Step(cfg, Run(cfg, evs[..|evs| - 1]), evs[|evs| - 1])
  }
}
