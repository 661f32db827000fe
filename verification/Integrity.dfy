/** The integrity report: both chains verified and bound into one anchor hash. */
module Integrity {
  import opened HashChain
  import S = Settlement
  import C = Challenge

  const VERSION := "mi-integrity-v1"

  /** What is hashed for the anchor; its own hash field is emptied first and so left out here. */
  datatype Anchor = Anchor(version: string, generatedAt: int, settlementEvents: int, settlementHash: string,
                           challengeEvents: int, challengeHash: string)

  datatype Report = Report(valid: bool, settlement: Verification, challenges: Verification,
                           anchor: Anchor, anchorHash: string)

  /** The digests in use: one per event type and one for anchors. */
  datatype Digests = Digests(settlement: Digest<S.Body>, challenge: Digest<C.Body>, anchor: Anchor -> string)

  datatype Histories = Histories(settlement: seq<S.Event>, challenges: seq<C.Event>)

  ghost predicate Healthy(d: Digests, h: Histories) {
    Valid(d.settlement, h.settlement) && Valid(d.challenge, h.challenges)
  }

  /** What one section says about one chain. */
  ghost predicate Examines<B>(d: Digest<B>, es: seq<Entry<B>>, v: Verification) {
    v.events == |es| && (v.valid <==> Valid(d, es)) && (v.valid ==> v.lastHash == LastHash(es))
  }

  /** What a report says about two ledgers. */
  ghost predicate Describes(d: Digests, h: Histories, r: Report) {
    && Examines(d.settlement, h.settlement, r.settlement) && Examines(d.challenge, h.challenges, r.challenges)
    && (r.valid <==> Healthy(d, h))
    && r.anchor.settlementEvents == |h.settlement| && r.anchor.challengeEvents == |h.challenges|
    && (r.valid ==> r.anchor.settlementHash == LastHash(h.settlement) && r.anchor.challengeHash == LastHash(h.challenges))
    && r.anchorHash == d.anchor(r.anchor)
  }

  method MakeReport(d: Digests, h: Histories, now: int) returns (r: Report)
    ensures Describes(d, h, r) && r.anchor.version == "mi-integrity-v1" && r.anchor.generatedAt == now
  {
    var s, trustedS := Verify(d.settlement, h.settlement);
    var c, trustedC := Verify(d.challenge, h.challenges);
    assert h.settlement[..|h.settlement|] == h.settlement;
    assert h.challenges[..|h.challenges|] == h.challenges;
    var anchor := Anchor(VERSION, now, s.events, s.lastHash, c.events, c.lastHash);
    r := Report(s.valid && c.valid, s, c, anchor, d.anchor(anchor));
  }

  /** Some digest was broken, on data the two reports cover. */
  ghost predicate Forged(d: Digests, h: Histories, r: Report, g: Histories, q: Report) {
    || Broken(d.settlement, h.settlement, g.settlement)
    || Broken(d.challenge, h.challenges, g.challenges)
    || (r.anchor != q.anchor && d.anchor(r.anchor) == d.anchor(q.anchor))
  }

  /** Publishing one anchor hash pins both complete histories. */
  lemma AnchorPinsHistories(d: Digests, h: Histories, r: Report, g: Histories, q: Report)
    requires Describes(d, h, r) && Describes(d, g, q)
    requires r.valid && q.valid && r.anchorHash == q.anchorHash
    ensures h == g || Forged(d, h, r, g, q)
  {
    if r.anchor == q.anchor {
      LastHashDeterminesChain(d.settlement, h.settlement, g.settlement);
      LastHashDeterminesChain(d.challenge, h.challenges, g.challenges);
    }
  }

  /** Cutting off the end of either ledger passes verification, but not the anchor. */
  lemma TruncationNeedsTheAnchor(d: Digests, h: Histories, r: Report, m: nat, n: nat, q: Report)
    requires Describes(d, h, r) && r.valid
    requires m <= |h.settlement| && n <= |h.challenges| && (m < |h.settlement| || n < |h.challenges|)
    requires Describes(d, Histories(h.settlement[..m], h.challenges[..n]), q)
    ensures q.valid
    ensures q.anchorHash != r.anchorHash || (r.anchor != q.anchor && d.anchor(r.anchor) == d.anchor(q.anchor))
  {
    PrefixIsValid(d.settlement, h.settlement, m);
    PrefixIsValid(d.challenge, h.challenges, n);
  }
}
