/** Privacy from registration to routing: where a request of a tier can ever be sent. */
module PrivacyRuns {
  import opened Results
  import opened Scheduler
  import opened Dispatch
  import P = Privacy

  /** The policies of the provider accounts. No market operation changes an account's policy. */
  type Policies = map<string, P.Policy>

  /** The tiers a connecting node claims, and those its account allows. */
  function Claimed(raw: Registration): Result<seq<string>, P.Error> {
    P.Requested(raw.privacyMode, raw.privacyTiers)
  }

  function AllowedBy(policy: P.Policy): Result<seq<string>, P.Error> {
    P.Allowed(policy.mode, policy.tiers)
  }

  /** The register path with provider tokens required: an authenticated account, and the message narrowed to its policy. */
  function Join(policies: Policies, provider: string, raw: Registration): Option<Registration> {
    var enforced := P.Enforced(if provider in policies then Some(policies[provider]) else None, raw.privacyMode, raw.privacyTiers);
    if enforced.Err? then None
    else Some(raw.(providerID := provider, privacyMode := enforced.value.0, privacyTiers := enforced.value.1))
  }

  /** A registration that came through the register path from one of the nodes' own messages. */
  ghost predicate Vetted(policies: Policies, claims: set<Registration>, call: Call) {
    call.Register? ==> exists raw :: raw in claims && Join(policies, call.msg.providerID, raw) == Some(call.msg)
  }

  /** The record of a node holds what its own message and its account's policy have in common. */
  ghost predicate Narrowed(policies: Policies, raw: Registration, id: string, p: Profile) {
    && raw.nodeID == id && Claimed(raw).Ok?
    && p.providerID in policies && AllowedBy(policies[p.providerID]).Ok?
    && p.privacyTiers == P.Elements(Claimed(raw).value) * P.Elements(AllowedBy(policies[p.providerID]).value)
    && p.privacyTiers != {}
  }

  ghost predicate NodeVetted(policies: Policies, claims: set<Registration>, id: string, p: Profile) {
    exists raw :: raw in claims && Narrowed(policies, raw, id, p)
  }

  ghost predicate ViewVetted(policies: Policies, claims: set<Registration>, v: View) {
    forall id :: id in v ==> NodeVetted(policies, claims, id, v[id].profile)
  }

  lemma JoiningIsNarrowed(policies: Policies, provider: string, raw: Registration)
    requires Join(policies, provider, raw).Some?
    ensures var msg := Join(policies, provider, raw).value;
            Narrowed(policies, raw, msg.nodeID, ProfileOf(msg))
  {
    var policy := policies[provider];
    var msg := Join(policies, provider, raw).value;
    P.RegistrationIsIntersection(raw.privacyMode, raw.privacyTiers, policy.mode, policy.tiers);
    assert msg.privacyTiers[0] in P.Elements(Claimed(raw).value) * P.Elements(AllowedBy(policy).value);
  }

  /** Only a registration sets a profile. */
  lemma ProfileSource(r: RegistryState, call: Call, id: string)
    requires id in Apply(r, call).view
    ensures var p := Apply(r, call).view[id].profile;
            || (id in r.view && p == r.view[id].profile)
            || (call.Register? && call.msg.nodeID == id && p == ProfileOf(call.msg))
  {
  }

  lemma {:induction false} RunStaysVetted(policies: Policies, claims: set<Registration>, r: RegistryState, calls: seq<Call>)
    requires ViewVetted(policies, claims, r.view)
    requires forall c :: c in calls ==> Vetted(policies, claims, c)
    ensures ViewVetted(policies, claims, ApplyAll(r, calls).view)
  {
    if calls != [] {
      var n := |calls| - 1;
      RunStaysVetted(policies, claims, r, calls[..n]);
      var before, call := ApplyAll(r, calls[..n]), calls[n];
      assert Vetted(policies, claims, call);
      CallStaysVetted(policies, claims, before, call);
    }
  }

  lemma CallStaysVetted(policies: Policies, claims: set<Registration>, r: RegistryState, call: Call)
    requires ViewVetted(policies, claims, r.view) && Vetted(policies, claims, call)
    ensures ViewVetted(policies, claims, Apply(r, call).view)
  {
    var v := Apply(r, call).view;
    forall id | id in v ensures NodeVetted(policies, claims, id, v[id].profile) {
      ProfileSource(r, call, id);
      if !(id in r.view && v[id].profile == r.view[id].profile) {
        var raw :| raw in claims && Join(policies, call.msg.providerID, raw) == Some(call.msg);
        JoiningIsNarrowed(policies, call.msg.providerID, raw);
      }
    }
  }

  /** A vetted node takes a request exactly if its tier is one the node claims and its account allows. */
  lemma AcceptanceIsIntersection(policies: Policies, raw: Registration, id: string, p: Profile, tier: string)
    requires Narrowed(policies, raw, id, p)
    ensures AcceptsPrivacy(p, tier) <==>
              && P.NormalizeTier(tier).Ok?
              && P.Default(tier) in Claimed(raw).value && P.Default(tier) in AllowedBy(policies[p.providerID]).value
  {
  }

  ghost predicate EnvVetted(policies: Policies, claims: set<Registration>, env: Script) {
    forall k: nat, c :: c in env(k).before + env(k).during + env(k).unrecorded ==> Vetted(policies, claims, c)
  }

  ghost predicate Advances(t: Trace, env: Script, k: nat)
    requires k < |t.ids| && |t.at| == |t.ids| + 1
  {
    t.at[k + 1] == ApplyAll(t.at[k], RoundCalls(env(k), t.ids[k]))
  }

  lemma {:induction false} TraceStaysVetted(policies: Policies, claims: set<Registration>, t: Trace, env: Script, k: nat)
    requires EnvVetted(policies, claims, env) && |t.at| == |t.ids| + 1 && k < |t.ids|
    requires forall j: nat :: j < k ==> Advances(t, env, j)
    requires ViewVetted(policies, claims, t.at[0].view)
    ensures ViewVetted(policies, claims, t.at[k].view)
  {
    if k > 0 {
      TraceStaysVetted(policies, claims, t, env, k - 1);
      assert Advances(t, env, k - 1);
      RoundVetted(policies, claims, env, k - 1, t.ids[k - 1]);
      RunStaysVetted(policies, claims, t.at[k - 1], RoundCalls(env(k - 1), t.ids[k - 1]));
    }
  }

  lemma RoundVetted(policies: Policies, claims: set<Registration>, env: Script, k: nat, id: string)
    requires EnvVetted(policies, claims, env)
    ensures forall c :: c in RoundCalls(env(k), id) ==> Vetted(policies, claims, c)
    ensures forall c :: c in env(k).before ==> Vetted(policies, claims, c)
  {
    var a := env(k);
    forall c | c in RoundCalls(a, id) ensures Vetted(policies, claims, c) {
      if c.Register? {
        assert c in a.before + a.during + a.unrecorded;
      }
    }
  }

  /**
   Through any retry and any targeted dispatch, a request only reaches nodes whose own registration
   claims its tier and whose account's policy allows it.
   */
  lemma RequestsStayInTheirTier(policies: Policies, claims: set<Registration>, fold: Fold, t: Trace, env: Script,
                                req: Request, providerID: string, k: nat)
    returns (raw: Registration)
    requires EnvVetted(policies, claims, env) && Follows(fold, t, env, req, providerID) && k < |t.ids|
    requires ViewVetted(policies, claims, t.at[0].view)
    ensures raw in claims && raw.nodeID == t.ids[k] && t.ids[k] in Facing(t, env, k).view
    ensures var owner := Facing(t, env, k).view[t.ids[k]].profile.providerID;
            && Claimed(raw).Ok? && P.Default(req.privacyTier) in Claimed(raw).value
            && owner in policies && AllowedBy(policies[owner]).Ok?
            && P.Default(req.privacyTier) in AllowedBy(policies[owner]).value
            && (providerID == "" || owner == providerID)
  {
    forall j: nat | j < k ensures Advances(t, env, j) {
      RoundAt(fold, t, env, req, providerID, j);
    }
    TraceStaysVetted(policies, claims, t, env, k);
    RoundVetted(policies, claims, env, k, t.ids[k]);
    RunStaysVetted(policies, claims, t.at[k], env(k).before);
    RoundAt(fold, t, env, req, providerID, k);
    var p := Facing(t, env, k).view[t.ids[k]].profile;
    raw :| raw in claims && Narrowed(policies, raw, t.ids[k], p);
    AcceptanceIsIntersection(policies, raw, t.ids[k], p, req.privacyTier);
  }

  /** A claim or a policy that lists no tiers stands for its mode. */
  lemma ModeBounds(raw: Registration, policy: P.Policy, tier: string)
    ensures raw.privacyTiers == [] && Claimed(raw).Ok? && tier in Claimed(raw).value ==>
              P.Rank(tier) <= P.Rank(if raw.privacyMode == "" then "private" else raw.privacyMode)
    ensures policy.tiers == [] && AllowedBy(policy).Ok? && tier in AllowedBy(policy).value ==>
              P.Rank(tier) <= P.Rank(if policy.mode == "" then "private" else policy.mode)
  {
    P.ModeGrants(raw.privacyMode, tier);
    P.ModeGrants(policy.mode, tier);
  }

  /**
   No request reaches a node that claims a less private mode than the request's tier, nor one whose
   account's mode is less private: through any retry and any targeted dispatch.
   */
  lemma RequestsStayWithinModes(policies: Policies, claims: set<Registration>, fold: Fold, t: Trace, env: Script,
                                req: Request, providerID: string, k: nat)
    returns (raw: Registration)
    requires EnvVetted(policies, claims, env) && Follows(fold, t, env, req, providerID) && k < |t.ids|
    requires ViewVetted(policies, claims, t.at[0].view)
    ensures raw in claims && raw.nodeID == t.ids[k] && t.ids[k] in Facing(t, env, k).view
    ensures var tier := if req.privacyTier == "" then "private" else req.privacyTier;
            var owner := Facing(t, env, k).view[t.ids[k]].profile.providerID;
            && P.IsTier(tier) && owner in policies
            && (raw.privacyTiers == [] ==> P.Rank(tier) <= P.Rank(if raw.privacyMode == "" then "private" else raw.privacyMode))
            && (policies[owner].tiers == [] ==>
                  P.Rank(tier) <= P.Rank(if policies[owner].mode == "" then "private" else policies[owner].mode))
  {
    raw := RequestsStayInTheirTier(policies, claims, fold, t, env, req, providerID, k);
    RoundAt(fold, t, env, req, providerID, k);
    var owner := Facing(t, env, k).view[t.ids[k]].profile.providerID;
    ModeBounds(raw, policies[owner], P.Default(req.privacyTier));
  }
}
