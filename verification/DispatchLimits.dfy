/** What the failover loop's termination depends on: an endless supply of new nodes keeps it going. */
module DispatchLimits {
  import opened Results
  import opened Scheduler
  import opened Dispatch
  import P = Privacy

  /** Names without end. */
  function Name(k: nat): string {
    if k == 0 then "x" else Name(k - 1) + "x"
  }

  lemma {:induction false} NamesDiffer(j: nat, k: nat)
    requires j != k
    ensures Name(k) != "" && Name(j) != Name(k)
  {
    NameLength(j);
    NameLength(k);
  }

  lemma {:induction false} NameLength(k: nat)
    ensures |Name(k)| == k + 1
  {
    if k > 0 { NameLength(k - 1); }
  }

  /** A node made to measure for a request. */
  function Volunteer(k: nat, req: Request, providerID: string): Registration {
    Registration(Name(k), providerID, "", [], req.backend, req.deviceKind, req.soc, req.accelerators, [req.model], 1)
  }

  /** Before each reservation one more node connects, and then its connection breaks at once. */
  function Supply(req: Request, providerID: string): Script {
    (k: nat) => Attempt(1, false, [], false, 0, 0, 1, 1, [Register(Volunteer(k, req, providerID), 1)], [], [])
  }

  lemma OpenNodeAccepts(p: Profile, tier: string)
    requires p.privacyTiers == P.Stored("", []) && P.NormalizeTier(tier).Ok?
    ensures AcceptsPrivacy(p, tier)
  {
    var all := [P.PRIVATE, P.COMMUNITY, P.PUBLIC];
    assert P.TiersForMode("") == Ok(all);
    assert p.privacyTiers == P.Elements(all);
    assert P.PRIVATE == all[0] && P.COMMUNITY == all[1] && P.PUBLIC == all[2];
    assert P.Default(tier) in all && P.Default(tier) in p.privacyTiers;
  }

  lemma VolunteerIsEligible(fold: Fold, k: nat, req: Request, providerID: string)
    requires P.NormalizeTier(req.privacyTier).Ok?
    ensures Eligible(fold, NewNode(Volunteer(k, req, providerID), 1), req, providerID, 1)
  {
    var n := NewNode(Volunteer(k, req, providerID), 1);
    assert req.model in [req.model];
    OpenNodeAccepts(n.profile, req.privacyTier);
    forall a | a in req.accelerators && a != "" ensures exists b :: b in n.profile.accelerators && fold(b) == fold(a) {
      assert a in n.profile.accelerators;
    }
  }

  /** Round by round: everyone who is connected has been tried. */
  ghost predicate AllTried(t: Trace) {
    |t.at| == |t.ids| + 1 && t.at[|t.ids|].view.Keys <= P.Elements(t.ids)
  }

  lemma NewcomerIsChosen(fold: Fold, t: Trace, req: Request, providerID: string)
    requires P.NormalizeTier(req.privacyTier).Ok? && AllTried(t) && Name(|t.ids|) !in P.Elements(t.ids)
    ensures var k := |t.ids|;
            Chosen(fold, Facing(t, Supply(req, providerID), k), Name(k), P.Elements(t.ids), req, providerID, 1)
  {
    var k := |t.ids|;
    var call := Register(Volunteer(k, req, providerID), 1);
    ApplyAllOne(t.at[k], call);
    VolunteerIsEligible(fold, k, req, providerID);
    assert Facing(t, Supply(req, providerID), k) == Apply(t.at[k], call);
  }

  lemma VolunteersFail(k: nat, req: Request, providerID: string)
    ensures VerdictOf(Supply(req, providerID)(k)).TryAgain?
  {
  }

  /** A trace with one more newcomer. */
  function Grown(t: Trace, req: Request, providerID: string): Trace
    requires |t.at| == |t.ids| + 1
  {
    var k := |t.ids|;
    Longer(t, Recorded(t.at[k], Supply(req, providerID)(k), Name(k)), Name(k))
  }

  /** After a round the newcomer has been tried as well. */
  lemma GrownAllTried(t: Trace, req: Request, providerID: string)
    requires AllTried(t)
    ensures AllTried(Grown(t, req, providerID))
  {
    var k := |t.ids|;
    var a := Supply(req, providerID)(k);
    StaysWithin(t.at[k], a, Name(k), P.Elements(t.ids) + {Name(k)});
    assert P.Elements(t.ids + [Name(k)]) == P.Elements(t.ids) + {Name(k)};
  }

  lemma GrownFollows(fold: Fold, t: Trace, req: Request, providerID: string)
    requires P.NormalizeTier(req.privacyTier).Ok? && AllTried(t) && Name(|t.ids|) !in P.Elements(t.ids)
    requires Follows(fold, t, Supply(req, providerID), req, providerID)
    ensures Follows(fold, Grown(t, req, providerID), Supply(req, providerID), req, providerID)
  {
    var k := |t.ids|;
    if k > 0 { VolunteersFail(k - 1, req, providerID); }
    NewcomerIsChosen(fold, t, req, providerID);
    RoundAppended(fold, t, Supply(req, providerID), req, providerID, Name(k));
    FollowsOneMore(fold, t, Supply(req, providerID), req, providerID, Grown(t, req, providerID).at[k + 1], Name(k));
  }

  ghost predicate Named(t: Trace) {
    forall k :: 0 <= k < |t.ids| ==> t.ids[k] == Name(k)
  }

  lemma NextNameIsNew(t: Trace)
    requires Named(t)
    ensures Name(|t.ids|) !in P.Elements(t.ids)
  {
    forall k | 0 <= k < |t.ids| ensures t.ids[k] != Name(|t.ids|) {
      NamesDiffer(k, |t.ids|);
    }
  }

  /** The trace of n rounds against the endless supply. */
  function Endless(req: Request, providerID: string, n: nat): (t: Trace)
    ensures |t.ids| == n && |t.at| == n + 1
  {
    if n == 0 then Trace([RegistryState(map[], map[])], []) else Grown(Endless(req, providerID, n - 1), req, providerID)
  }

  lemma {:induction false} EndlessNamed(req: Request, providerID: string, n: nat)
    ensures Named(Endless(req, providerID, n)) && AllTried(Endless(req, providerID, n))
  {
    if n > 0 {
      EndlessNamed(req, providerID, n - 1);
      GrownAllTried(Endless(req, providerID, n - 1), req, providerID);
    }
  }

  lemma {:induction false} EndlessFollows(fold: Fold, req: Request, providerID: string, n: nat)
    requires P.NormalizeTier(req.privacyTier).Ok?
    ensures Follows(fold, Endless(req, providerID, n), Supply(req, providerID), req, providerID)
  {
    if n > 0 {
      EndlessFollows(fold, req, providerID, n - 1);
      EndlessNamed(req, providerID, n - 1);
      NextNameIsNew(Endless(req, providerID, n - 1));
      GrownFollows(fold, Endless(req, providerID, n - 1), req, providerID);
    }
  }

  /**
   One environment keeps the loop of any request going for any number of rounds, each with a failure
   that is retried: without a bound on the node ids that turn up, the loop need not end.
   */
  lemma AnyNumberOfRounds(fold: Fold, req: Request, providerID: string, n: nat)
    requires P.NormalizeTier(req.privacyTier).Ok?
    ensures exists t: Trace :: |t.ids| == n && Follows(fold, t, Supply(req, providerID), req, providerID)
    ensures forall k: nat :: VerdictOf(Supply(req, providerID)(k)).TryAgain?
  {
    EndlessFollows(fold, req, providerID, n);
    forall k: nat ensures VerdictOf(Supply(req, providerID)(k)).TryAgain? {
      VolunteersFail(k, req, providerID);
    }
  }
}
