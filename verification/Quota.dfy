/** The quota book of the market: limits, recorded use and outstanding reservations. */
module Quota {
  import opened Results
  import opened Metering

  datatype Consumer = Consumer(id: string, displayName: string, totalTokenLimit: int, disabled: bool)

  datatype Usage = Usage(accountID: string, requests: int, promptTokens: int, completionTokens: int,
                         totalTokens: int, updatedAt: int)

  datatype Reservation = Reservation(account: string, tokens: int)

  datatype Book = Book(consumers: map<string, Consumer>, consumerUse: map<string, Usage>,
                       providerUse: map<string, Usage>, reserved: map<string, int>)

  function Limited(b: Book, a: string): bool {
    a in b.consumers && b.consumers[a].totalTokenLimit > 0
  }

  function UsedTokens(use: map<string, Usage>, a: string): int {
    if a in use then use[a].totalTokens else 0
  }

  function ReservedTokens(b: Book, a: string): int {
    if a in b.reserved then b.reserved[a] else 0
  }

  /** checkConsumerQuotaLocked: a zero probe is refused at the limit, a positive estimate beyond it. */
  function Admits(b: Book, a: string, additional: int): bool {
    Limited(b, a) ==>
      var used := ReservedTokens(b, a) + additional + UsedTokens(b.consumerUse, a);
      var limit := b.consumers[a].totalTokenLimit;
      !(additional == 0 && used >= limit) && !(additional > 0 && used > limit)
  }

  function Clamp(estimate: int): nat {
    if estimate < 0 then 0 else estimate
  }

  /** What `ReserveConsumerQuota` hands out when it does not refuse. */
  function Grant(b: Book, a: string, estimate: int): Option<Reservation> {
    if Clamp(estimate) > 0 && Limited(b, a) then Some(Reservation(a, Clamp(estimate))) else None
  }

  function Take(b: Book, grant: Option<Reservation>): Book {
    if grant.None? then b
    else b.(reserved := b.reserved[grant.value.account := ReservedTokens(b, grant.value.account) + grant.value.tokens])
  }

  /** releaseReservationLocked: subtract, or drop the entry when nothing would be left. */
  function Release(b: Book, grant: Option<Reservation>): Book {
    if grant.None? || grant.value.tokens <= 0 then b
    else
      var a := grant.value.account;
      var current := ReservedTokens(b, a);
      if current <= grant.value.tokens then b.(reserved := b.reserved - {a})
      else b.(reserved := b.reserved[a := current - grant.value.tokens])
  }

  function AddUsage(use: map<string, Usage>, id: string, done: Done, now: int): map<string, Usage> {
    var account := if id == "" then "unknown" else id;
    var u := if account in use then use[account] else Usage(account, 0, 0, 0, 0, 0);
    var prompt := u.promptTokens + done.promptTokens;
    var completion := u.completionTokens + done.outputTokens;
    use[account := Usage(u.accountID, u.requests + 1, prompt, completion, prompt + completion, now)]
  }

  function RecordReserved(b: Book, grant: Option<Reservation>, consumer: string, provider: string,
                          done: Done, now: int): Book
  {
    var r := Release(b, grant);
    r.(consumerUse := AddUsage(r.consumerUse, consumer, done, now),
       providerUse := if provider == "" then r.providerUse else AddUsage(r.providerUse, provider, done, now))
  }

  /** The `RemainingTokens` of a consumer's status. */
  function Remaining(b: Book, a: string): nat
    requires Limited(b, a)
  {
    Clamp(b.consumers[a].totalTokenLimit - UsedTokens(b.consumerUse, a) - ReservedTokens(b, a))
  }

  function QuotaExceeded(b: Book, a: string): bool {
    Limited(b, a) && UsedTokens(b.consumerUse, a) + ReservedTokens(b, a) >= b.consumers[a].totalTokenLimit
  }

  /** The status a consumer reads is exact: the largest estimate that would be admitted, and no more. */
  lemma RemainingIsExact(b: Book, a: string)
    requires Limited(b, a)
    ensures forall estimate: int :: estimate > 0 ==>
              (Admits(b, a, Clamp(estimate)) <==> estimate <= Remaining(b, a))
    ensures QuotaExceeded(b, a) <==> !Admits(b, a, 0)
    ensures QuotaExceeded(b, a) <==> Remaining(b, a) == 0
  {
  }

  /** Entries are kept only while they are positive. */
  ghost predicate Positive(b: Book) {
    forall a :: a in b.reserved ==> b.reserved[a] > 0
  }

  /** Releasing undoes taking: the round trip every failing handler path relies on. */
  lemma ReleaseUndoesTake(b: Book, a: string, estimate: int)
    requires Positive(b)
    ensures Positive(Take(b, Grant(b, a, estimate)))
    ensures Release(Take(b, Grant(b, a, estimate)), Grant(b, a, estimate)) == b
  {
    var grant := Grant(b, a, estimate);
    if grant.Some? {
      var back := Release(Take(b, grant), grant);
      assert back.reserved == b.reserved;
    }
  }

  function Share(grant: Option<Reservation>, a: string): int {
    if grant.Some? && grant.value.account == a then grant.value.tokens else 0
  }

  lemma TakeDelta(b: Book, grant: Option<Reservation>, a: string)
    requires Positive(b) && (grant.Some? ==> grant.value.tokens > 0)
    ensures Positive(Take(b, grant))
    ensures ReservedTokens(Take(b, grant), a) == ReservedTokens(b, a) + Share(grant, a)
  {
  }

  /** The clamp-and-delete of a release never drops a token that belongs to another reservation. */
  lemma ReleaseDelta(b: Book, grant: Option<Reservation>, a: string)
    requires Positive(b)
    requires grant.Some? ==> 0 < grant.value.tokens <= ReservedTokens(b, grant.value.account)
    ensures Positive(Release(b, grant))
    ensures ReservedTokens(Release(b, grant), a) == ReservedTokens(b, a) - Share(grant, a)
  {
  }
}
