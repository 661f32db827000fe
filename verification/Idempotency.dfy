/** The idempotency table: one row per scoped key, claimed, completed, aborted or taken over. */
module Idempotency {
  import opened Results

  const DEFAULT_TTL := 86_400_000_000_000

  datatype Reply = Reply(statusCode: int, contentType: string, body: string)

  datatype Row = InProgress(createdAt: int) | Completed(createdAt: int, reply: Reply)

  type Table = map<string, Row>

  /** What `Begin` decides. The caller cannot tell a takeover from a fresh claim. */
  datatype Claim = Fresh | Takeover | Replay(reply: Reply) | Conflict

  /** How the storage engine may fail: before or after the change has reached the table. */
  datatype Fault = NoFault | FailsBefore | FailsAfter

  function Decide(t: Table, ttl: int, key: string, now: int): Claim {
    if key !in t then Fresh
    else match t[key]
      case Completed(_, reply) => Replay(reply)
      case InProgress(createdAt) => if now - createdAt > ttl then Takeover else Conflict
  }

  function Claimed(t: Table, ttl: int, key: string, now: int): Table {
    match Decide(t, ttl, key, now)
    case Fresh => t[key := InProgress(now)]
    case Takeover => t[key := InProgress(now)]
    case _ => t
  }

  /** UPDATE ... WHERE key: a row that is gone stays gone, a completed row is overwritten. */
  function Completed'(t: Table, key: string, reply: Reply): Table {
    if key in t then t[key := Completed(t[key].createdAt, reply)] else t
  }

  /** DELETE ... WHERE status = 'in_progress'. */
  function Aborted(t: Table, key: string): Table {
    if key in t && t[key].InProgress? then t - {key} else t
  }

  function Faulty(fault: Fault, before: Table, after: Table): Table {
    if fault == FailsBefore then before else after
  }

  function EffectiveTtl(ttl: int): int {
    if ttl <= 0 then DEFAULT_TTL else ttl
  }

  /**
   Whatever is configured, a granted claim keeps everybody else out for the store's time-to-live, and
   no longer: the configured one if it is positive, else a day of nanoseconds.
   */
  lemma ClaimLastsItsTtl(t: Table, ttl: int, key: string, now: int, later: int)
    requires Decide(t, EffectiveTtl(ttl), key, now).Fresh? || Decide(t, EffectiveTtl(ttl), key, now).Takeover?
    ensures EffectiveTtl(ttl) == if ttl > 0 then ttl else 24 * 60 * 60 * 1_000_000_000
    ensures var claimed := Claimed(t, EffectiveTtl(ttl), key, now);
            && Decide(claimed, EffectiveTtl(ttl), key, now) == Conflict
            && Decide(claimed, EffectiveTtl(ttl), key, later) == if later - now <= EffectiveTtl(ttl) then Conflict else Takeover
  {
  }

  /** A completed key is answered with exactly the reply it was completed with, however late. */
  lemma CompletedIsReplayed(t: Table, ttl: int, key: string, reply: Reply, later: int)
    requires key in t
    ensures Decide(Completed'(t, key, reply), ttl, key, later) == Replay(reply)
    ensures Claimed(Completed'(t, key, reply), ttl, key, later) == Completed'(t, key, reply)
  {
  }

  /** An aborted key can be claimed at once. */
  lemma AbortedIsFree(t: Table, ttl: int, key: string, later: int)
    requires key in t && t[key].InProgress?
    ensures Decide(Aborted(t, key), ttl, key, later) == Fresh && Aborted(t, key) == t - {key}
  {
  }

  datatype Record = Record(completed: bool, reply: Reply)

  const NO_REPLY := Reply(0, "", "")

  class Store {
    const enabled: bool
    const ttl: int
    var rows: Table

    /** An empty path gives the disabled store, a ttl that is not positive gives a day. */
    constructor (path: string, ttl: int, existing: Table)
      ensures enabled == (path != "") && rows == existing
      ensures this.ttl == EffectiveTtl(ttl) && 0 < this.ttl
    {
      this.enabled := path != "";
      this.ttl := EffectiveTtl(ttl);
      this.rows := existing;
    }

    /** `None` without an error means: the caller owns the key. */
    method Begin(key: string, now: int, fault: Fault) returns (failed: bool, record: Option<Record>)
      modifies this
      ensures !enabled ==> !failed && record.None? && rows == old(rows)
      ensures enabled ==> failed == (fault != NoFault)
      ensures enabled ==> rows == Faulty(fault, old(rows), Claimed(old(rows), ttl, key, now))
      ensures failed ==> record.None?
      ensures enabled && !failed ==>
                match Decide(old(rows), ttl, key, now)
                case Fresh => record == None
                case Takeover => record == None
                case Conflict => record.Some? && !record.value.completed
                case Replay(reply) => record == Some(Record(true, reply))
    {
      if !enabled { return false, None; }
      if fault == FailsBefore { return true, None; }
      failed := fault == FailsAfter;
      record := None;
      if key !in rows {
        rows := rows[key := InProgress(now)];
      } else if rows[key].Completed? {
        record := if failed then None else Some(Record(true, rows[key].reply));
      } else if now - rows[key].createdAt > ttl {
        rows := rows[key := InProgress(now)];
      } else {
        record := if failed then None else Some(Record(false, NO_REPLY));
      }
    }

    method Complete(key: string, reply: Reply, fault: Fault) returns (failed: bool)
      modifies this
      ensures !enabled ==> !failed && rows == old(rows)
      ensures enabled ==> failed == (fault != NoFault)
      ensures enabled ==> rows == Faulty(fault, old(rows), Completed'(old(rows), key, reply))
    {
      if !enabled { return false; }
      if fault == FailsBefore { return true; }
      if key in rows {
        rows := rows[key := Completed(rows[key].createdAt, reply)];
      }
      failed := fault == FailsAfter;
    }

    method Abort(key: string, fault: Fault) returns (failed: bool)
      modifies this
      ensures !enabled ==> !failed && rows == old(rows)
      ensures enabled ==> failed == (fault != NoFault)
      ensures enabled ==> rows == Faulty(fault, old(rows), Aborted(old(rows), key))
    {
      if !enabled { return false; }
      if fault == FailsBefore { return true; }
      if key in rows && rows[key].InProgress? {
        rows := rows - {key};
      }
      failed := fault == FailsAfter;
    }
  }

  const NUL: char := '\0'

  function ScopedKey(digest: string -> string, consumer: string, key: string): string {
    digest(consumer + [NUL] + key)
  }

  /** One raw key from two consumers is two records, unless the digest collides on the two. */
  lemma ScopingSeparatesConsumers(digest: string -> string, a: string, k: string, b: string, l: string)
    requires NUL !in a && NUL !in b
    requires ScopedKey(digest, a, k) == ScopedKey(digest, b, l)
    ensures (a == b && k == l)
         || (a + [NUL] + k != b + [NUL] + l && digest(a + [NUL] + k) == digest(b + [NUL] + l))
  {
    var x, y := a + [NUL] + k, b + [NUL] + l;
    if x == y {
      assert x[|a|] == NUL && y[|b|] == NUL;
      assert b == y[..|b|] && a == x[..|a|];
      NulInPrefix(x, |a|, |b|);
      NulInPrefix(x, |b|, |a|);
      assert a == x[..|a|] && b == y[..|b|];
      assert k == x[|a| + 1..] && l == y[|b| + 1..];
    }
  }

  lemma NulInPrefix(x: string, n: nat, m: nat)
    ensures n < m <= |x| && x[n] == NUL ==> NUL in x[..m]
  {
    if n < m <= |x| {
      assert x[..m][n] == x[n];
    }
  }

  /** What a client that asks again gets from the store: the very reply that was stored for it. */
  method CompleteThenAsk(store: Store, key: string, reply: Reply, now: int) returns (record: Option<Record>)
    requires store.enabled && key in store.rows
    modifies store
    ensures record == Some(Record(true, reply))
  {
    CompletedIsReplayed(store.rows, store.ttl, key, reply, now);
    var _ := store.Complete(key, reply, NoFault);
    var _, answer := store.Begin(key, now, NoFault);
    record := answer;
  }
}
