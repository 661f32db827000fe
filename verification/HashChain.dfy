/**
 The hash chain that the settlement and the challenge ledger both keep. SHA-256 over JSON is a
 function value with no assumed properties: every tamper-evidence theorem ends in "or the digest
 was broken", where a break names the two records that collide, or the one hashing to "genesis".
 */
module HashChain {
  const GENESIS := "genesis"

  datatype Entry<+B> = Entry(index: int, body: B, previousHash: string, hash: string)

  /** Hex SHA-256 of the JSON of an event. */
  type Digest<!B> = Entry<B> -> string

  /** What is hashed is the event with its own hash field emptied. */
  function Preimage<B>(e: Entry<B>): Entry<B> {
    e.(hash := "")
  }

  function HashEvent<B>(d: Digest<B>, e: Entry<B>): string {
    d(Preimage(e))
  }

  function LastHash<B>(es: seq<Entry<B>>): string {
    if es == [] then GENESIS else es[|es| - 1].hash
  }

  ghost predicate Linked<B>(d: Digest<B>, es: seq<Entry<B>>, i: nat)
    requires i < |es|
  {
    && es[i].index == i + 1
    && es[i].previousHash == LastHash(es[..i])
    && es[i].hash == HashEvent(d, es[i])
  }

  ghost predicate Valid<B>(d: Digest<B>, es: seq<Entry<B>>) {
    forall i :: 0 <= i < |es| ==> Linked(d, es, i)
  }

  function Seal<B>(d: Digest<B>, es: seq<Entry<B>>, body: B): Entry<B> {
    var e := Entry(|es| + 1, body, LastHash(es), "");
    e.(hash := HashEvent(d, e))
  }

  /** The chain after one more record. */
  function Extend<B>(d: Digest<B>, es: seq<Entry<B>>, body: B): seq<Entry<B>> {
    es + [Seal(d, es, body)]
  }

  lemma PrefixIsValid<B>(d: Digest<B>, es: seq<Entry<B>>, n: nat)
    requires Valid(d, es) && n <= |es|
    ensures Valid(d, es[..n])
  {
    forall i | 0 <= i < n ensures Linked(d, es[..n], i) {
      assert Linked(d, es, i);
      assert es[..n][..i] == es[..i];
    }
  }

  /** Every valid history begins at number one, after "genesis". */
  lemma FirstFollowsGenesis<B>(d: Digest<B>, es: seq<Entry<B>>)
    requires Valid(d, es) && es != []
    ensures es[0].previousHash == "genesis" && es[0].index == 1
  {
    assert Linked(d, es, 0);
  }

  lemma ExtendKeepsValid<B>(d: Digest<B>, es: seq<Entry<B>>, body: B)
    requires Valid(d, es)
    ensures Valid(d, Extend(d, es, body))
  {
    var out := Extend(d, es, body);
    forall i | 0 <= i < |out| ensures Linked(d, out, i) {
      assert out[..i] == es[..i];
      if i < |es| {
        assert Linked(d, es, i);
      } else {
        assert es[..i] == es;
      }
    }
  }

  /** Growing a valid chain by one entry: what `Verify` checks at each step. */
  lemma ValidByStep<B>(d: Digest<B>, es: seq<Entry<B>>, n: nat)
    requires n < |es| && Valid(d, es[..n])
    ensures Valid(d, es[..n + 1]) <==> Linked(d, es, n)
  {
    assert es[..n + 1][..n] == es[..n];
    if Linked(d, es, n) {
      var longer := es[..n + 1];
      forall i | 0 <= i < |longer| ensures Linked(d, longer, i) {
        assert longer[..i] == es[..i] == es[..n][..i];
        if i < n { assert Linked(d, es[..n], i); }
      }
    }
    if Valid(d, es[..n + 1]) {
      assert Linked(d, es[..n + 1], n);
    }
  }

  datatype Verification = Verification(valid: bool, events: int, lastHash: string)

  /** The verification walk of both ledgers. On failure it reports the last hash it still trusted. */
  method Verify<B>(d: Digest<B>, es: seq<Entry<B>>) returns (v: Verification, ghost trusted: nat)
    ensures v.valid <==> Valid(d, es)
    ensures v.valid <==> trusted == |es|
    ensures v.events == |es| && trusted <= |es|
    ensures Valid(d, es[..trusted]) && v.lastHash == LastHash(es[..trusted])
    ensures forall n :: trusted < n <= |es| ==> !Valid(d, es[..n])
  {
    var last := GENESIS;
    var i := 0;
    while i < |es|
      invariant 0 <= i <= |es|
      invariant Valid(d, es[..i]) && last == LastHash(es[..i])
    {
      var event := es[i];
      ValidByStep(d, es, i);
      if event.index != i + 1 || event.previousHash != last || event.hash != HashEvent(d, event) {
        forall n | i < n <= |es| ensures !Valid(d, es[..n]) {
          if Valid(d, es[..n]) {
            assert es[..n][..i + 1] == es[..i + 1];
            PrefixIsValid(d, es[..n], i + 1);
          }
        }
        assert es[..|es|] == es;
        return Verification(false, |es|, last), i;
      }
      last := event.hash;
      i := i + 1;
      assert es[..i][|es[..i]| - 1] == event;
    }
    assert es[..i] == es;
    v, trusted := Verification(true, |es|, last), i;
  }

  /** Two recorded entries with different contents and one digest. */
  ghost predicate Collides<B>(d: Digest<B>, x: Entry<B>, y: Entry<B>) {
    Preimage(x) != Preimage(y) && HashEvent(d, x) == HashEvent(d, y)
  }

  /** An attack on the digest, exhibited by entries of the two chains themselves. */
  ghost predicate Broken<B>(d: Digest<B>, a: seq<Entry<B>>, b: seq<Entry<B>>) {
    || (exists x, y :: x in a && y in b && Collides(d, x, y))
    || (exists x :: x in a && HashEvent(d, x) == GENESIS)
    || (exists y :: y in b && HashEvent(d, y) == GENESIS)
  }

  lemma BrokenInLonger<B>(d: Digest<B>, a: seq<Entry<B>>, b: seq<Entry<B>>, m: nat, n: nat)
    requires m <= |a| && n <= |b| && Broken(d, a[..m], b[..n])
    ensures Broken(d, a, b)
  {
  }

  /** Tamper evidence: the last hash alone determines the whole chain, length included. */
  lemma {:induction false} LastHashDeterminesChain<B>(d: Digest<B>, a: seq<Entry<B>>, b: seq<Entry<B>>)
    requires Valid(d, a) && Valid(d, b) && LastHash(a) == LastHash(b)
    ensures a == b || Broken(d, a, b)
  {
    if a != [] && b != [] {
      var m, n := |a| - 1, |b| - 1;
      var x, y := a[m], b[n];
      assert Linked(d, a, m) && Linked(d, b, n);
      assert HashEvent(d, x) == HashEvent(d, y);
      if Preimage(x) != Preimage(y) {
        assert x in a && y in b && Collides(d, x, y);
      } else {
        assert x.previousHash == Preimage(x).previousHash && y.previousHash == Preimage(y).previousHash;
        assert x == Preimage(x).(hash := x.hash) && y == Preimage(y).(hash := y.hash);
        PrefixIsValid(d, a, m);
        PrefixIsValid(d, b, n);
        LastHashDeterminesChain(d, a[..m], b[..n]);
        assert a == a[..m] + [x] && b == b[..n] + [y];
        if Broken(d, a[..m], b[..n]) {
          BrokenInLonger(d, a, b, m, n);
        }
      }
    } else if a != [] {
      var x := a[|a| - 1];
      assert Linked(d, a, |a| - 1);
      assert x in a && HashEvent(d, x) == GENESIS;
    } else if b != [] {
      var y := b[|b| - 1];
      assert Linked(d, b, |b| - 1);
      assert y in b && HashEvent(d, y) == GENESIS;
    }
  }
}
