/** Privacy tiers: the vocabulary, its canonical listings, and the policy a registration ends up with. */
module Privacy {
  import opened Results
  import opened Ordering

  const PRIVATE := "private"
  const COMMUNITY := "community"
  const PUBLIC := "public"

  datatype Error = InvalidTier | InvalidPrivacy | Unauthorized

  predicate Known(tier: string) {
    tier == PRIVATE || tier == COMMUNITY || tier == PUBLIC
  }

  /** The empty tier means private. */
  function Default(tier: string): string {
    if tier == "" then PRIVATE else tier
  }

  function NormalizeTier(tier: string): Result<string, Error> {
    if Known(Default(tier)) then Ok(Default(tier)) else Err(InvalidTier)
  }

  function TiersForMode(mode: string): Result<seq<string>, Error> {
    match Default(mode)
    case "private" => Ok([PRIVATE, COMMUNITY, PUBLIC])
    case "community" => Ok([COMMUNITY, PUBLIC])
    case "public" => Ok([PUBLIC])
    case _ => Err(InvalidTier)
  }

  /** The sorted listing of a set of tiers. */
  function Listing(tiers: set<string>): seq<string> {
    (if COMMUNITY in tiers then [COMMUNITY] else [])
    + (if PRIVATE in tiers then [PRIVATE] else [])
    + (if PUBLIC in tiers then [PUBLIC] else [])
  }

  function TierSet(tiers: seq<string>): set<string> {
    set t | t in tiers :: Default(t)
  }

  predicate AllKnown(tiers: seq<string>) {
    forall t :: t in tiers ==> Known(Default(t))
  }

  /** NormalizeTiers: no tiers at all means the private mode's, in that mode's order. */
  function Normalize(tiers: seq<string>): Result<seq<string>, Error> {
    if tiers == [] then TiersForMode(PRIVATE)
    else if AllKnown(tiers) then Ok(Listing(TierSet(tiers)))
    else Err(InvalidTier)
  }

  lemma ListingIsSorted(tiers: set<string>)
    requires forall t :: t in tiers ==> Known(t)
    ensures Lists(Listing(tiers), tiers)
  {
    TierOrder();
  }

  lemma TierOrder()
    ensures Less(COMMUNITY, PRIVATE) && Less(PRIVATE, PUBLIC) && Less(COMMUNITY, PUBLIC)
  {
    assert PRIVATE[0] == PUBLIC[0] && PRIVATE[1..][0] == 'r' && PUBLIC[1..][0] == 'u';
    assert Less(PRIVATE[1..], PUBLIC[1..]);
  }

  /** The source's loop: default, validate, drop repeats; then sort. */
  method NormalizeTiers(tiers: seq<string>) returns (r: Result<seq<string>, Error>)
    ensures r == Normalize(tiers)
  {
    if tiers == [] { return TiersForMode(PRIVATE); }
    var seen: set<string> := {};
    for i := 0 to |tiers|
      invariant AllKnown(tiers[..i]) && seen == TierSet(tiers[..i])
    {
      var normalized := NormalizeTier(tiers[i]);
      assert tiers[i] in tiers && tiers[..i + 1] == tiers[..i] + [tiers[i]];
      if normalized.Err? { return Err(InvalidTier); }
      seen := seen + {normalized.value};
    }
    assert tiers[..|tiers|] == tiers;
    var out := SortedKeys(seen);
    ListingIsSorted(seen);
    ListingIsUnique(out, Listing(seen), seen);
    r := Ok(out);
  }

  /** The most private tier a list contains. */
  function ModeOf(tiers: seq<string>): string {
    if PRIVATE in tiers then PRIVATE else if COMMUNITY in tiers then COMMUNITY else if PUBLIC in tiers then PUBLIC else ""
  }

  method ModeForTiers(tiers: seq<string>) returns (mode: string)
    ensures mode == ModeOf(tiers)
  {
    var hasPrivate, hasCommunity, hasPublic := false, false, false;
    for i := 0 to |tiers|
      invariant hasPrivate == (PRIVATE in tiers[..i])
      invariant hasCommunity == (COMMUNITY in tiers[..i])
      invariant hasPublic == (PUBLIC in tiers[..i])
    {
      assert tiers[..i + 1] == tiers[..i] + [tiers[i]];
      if tiers[i] == PRIVATE { hasPrivate := true; }
      else if tiers[i] == COMMUNITY { hasCommunity := true; }
      else if tiers[i] == PUBLIC { hasPublic := true; }
    }
    assert tiers[..|tiers|] == tiers;
    mode := if hasPrivate then PRIVATE else if hasCommunity then COMMUNITY else if hasPublic then PUBLIC else "";
  }

  method Accepts(tiers: seq<string>, requested: string) returns (yes: bool)
    ensures yes <==> NormalizeTier(requested).Ok? && Default(requested) in tiers
  {
    var normalized := NormalizeTier(requested);
    if normalized.Err? { return false; }
    for i := 0 to |tiers|
      invariant normalized.value !in tiers[..i]
    {
      if tiers[i] == normalized.value { return true; }
      assert tiers[..i + 1] == tiers[..i] + [tiers[i]];
    }
    assert tiers[..|tiers|] == tiers;
    yes := false;
  }

  /** What an account or a node asks for: its tiers if it lists any, else its mode's. */
  function Requested(mode: string, tiers: seq<string>): Result<seq<string>, Error> {
    var r := if tiers != [] then Normalize(tiers) else TiersForMode(mode);
    if r.Ok? then r else Err(InvalidPrivacy)
  }

  /** Canonical listings of tiers: non-empty, known, without repeats. */
  ghost predicate Proper(tiers: seq<string>) {
    && tiers != []
    && (forall i :: 0 <= i < |tiers| ==> Known(tiers[i]))
    && (forall i, j :: 0 <= i < j < |tiers| ==> tiers[i] != tiers[j])
  }

  lemma RequestedIsProper(mode: string, tiers: seq<string>)
    ensures Requested(mode, tiers).Ok? ==> Proper(Requested(mode, tiers).value)
  {
    if tiers != [] && AllKnown(tiers) {
      assert tiers[0] in tiers && Default(tiers[0]) in TierSet(tiers);
    }
  }

  /** Normalizing a proper list keeps its tiers and its mode and changes at most their order. */
  lemma NormalizeKeepsTiers(mode: string, tiers: seq<string>)
    requires Proper(tiers)
    ensures Requested(mode, tiers).Ok?
    ensures forall t :: t in Requested(mode, tiers).value <==> t in tiers
    ensures ModeOf(Requested(mode, tiers).value) == ModeOf(tiers)
  {
    forall t | t in tiers ensures Default(t) == t && Known(t) {
      var i :| 0 <= i < |tiers| && tiers[i] == t;
    }
    ListingIsSorted(TierSet(tiers));
    assert forall t :: t in TierSet(tiers) <==> t in tiers;
  }

  /** A second normalization changes nothing at all. */
  lemma NormalizeIsIdempotent(mode: string, tiers: seq<string>, again: string)
    requires tiers != [] && Requested(mode, tiers).Ok?
    ensures Requested(again, Requested(mode, tiers).value) == Requested(mode, tiers)
  {
    var once := Requested(mode, tiers).value;
    RequestedIsProper(mode, tiers);
    NormalizeKeepsTiers(again, once);
    ListingIsSorted(TierSet(tiers));
    assert TierSet(once) == TierSet(tiers) by {
      forall t ensures t in TierSet(once) <==> t in TierSet(tiers) {
        if t in TierSet(tiers) { assert t in once && Default(t) == t; }
        if t in TierSet(once) {
          var u :| u in once && Default(u) == t;
          assert u in TierSet(tiers) && Known(u);
        }
      }
    }
  }

  // ---- What a mode means --------------------------------------------------------------------

  /** How private a tier is. */
  function Rank(tier: string): int {
    if tier == "private" then 2 else if tier == "community" then 1 else if tier == "public" then 0 else -1
  }

  predicate IsTier(t: string) {
    t == "private" || t == "community" || t == "public"
  }

  /** A mode grants exactly the tiers that are no more private than itself, and no mode means private. */
  lemma ModeGrants(mode: string, t: string)
    ensures var m := if mode == "" then "private" else mode;
            && (TiersForMode(mode).Ok? <==> IsTier(m))
            && (IsTier(m) ==> (t in TiersForMode(mode).value <==> IsTier(t) && Rank(t) <= Rank(m)))
  {
  }

  /** The mode of a list is its most private tier; the mode of a mode's tiers is that mode. */
  lemma ModeIsMostPrivate(tiers: seq<string>, mode: string)
    ensures tiers != [] && (forall t :: t in tiers ==> IsTier(t)) ==>
              ModeOf(tiers) in tiers && forall t :: t in tiers ==> Rank(t) <= Rank(ModeOf(tiers))
    ensures IsTier(mode) ==> ModeOf(TiersForMode(mode).value) == mode
  {
    if tiers != [] && forall t :: t in tiers ==> IsTier(t) {
      assert tiers[0] in tiers;
    }
  }

  // ---- Registration -------------------------------------------------------------------------

  /** The provider account's own policy. */
  function Allowed(mode: string, tiers: seq<string>): Result<seq<string>, Error> {
    if tiers == [] then TiersForMode(mode) else Ok(tiers)
  }

  function Filter(tiers: seq<string>, allowed: set<string>): (out: seq<string>)
    ensures forall t :: t in out <==> t in tiers && t in allowed
    ensures (forall i, j :: 0 <= i < j < |tiers| ==> tiers[i] != tiers[j]) ==>
              forall i, j :: 0 <= i < j < |out| ==> out[i] != out[j]
  {
    if tiers == [] then []
    else
      var n := |tiers| - 1;
      var rest := Filter(tiers[..n], allowed);
      assert forall t :: t in tiers <==> t in tiers[..n] || t == tiers[n];
      if tiers[n] in allowed then rest + [tiers[n]] else rest
  }

  function Elements(tiers: seq<string>): set<string> {
    set t | t in tiers
  }

  datatype Policy = Policy(mode: string, tiers: seq<string>)

  /** With provider tokens required: what a node's claim becomes under its account, `None` if no active account has its id. */
  function Enforced(policy: Option<Policy>, mode: string, tiers: seq<string>): Result<(string, seq<string>), Error> {
    var requested := Requested(mode, tiers);
    if requested.Err? then Err(InvalidPrivacy)
    else if policy.None? then Err(Unauthorized)
    else
      var allowed := Allowed(policy.value.mode, policy.value.tiers);
      if allowed.Err? then Err(InvalidPrivacy)
      else
        var effective := Filter(requested.value, Elements(allowed.value));
        if effective == [] then Err(InvalidPrivacy) else Ok((ModeOf(effective), effective))
  }

  /** What the registry stores for a registration message; an unusable claim means every tier. */
  function Stored(mode: string, tiers: seq<string>): set<string> {
    var r := if tiers != [] then Normalize(tiers) else TiersForMode(mode);
    Elements(if r.Ok? then r.value else [PRIVATE, COMMUNITY, PUBLIC])
  }

  /**
   The effective tiers of a registration survive the registry's own normalization unchanged, so a
   node is stored with exactly what it claims and its provider's policy allows.
   */
  lemma RegistrationIsIntersection(claimMode: string, claim: seq<string>, policyMode: string, policy: seq<string>)
    requires Requested(claimMode, claim).Ok? && Allowed(policyMode, policy).Ok?
    requires Filter(Requested(claimMode, claim).value, Elements(Allowed(policyMode, policy).value)) != []
    ensures var effective := Filter(Requested(claimMode, claim).value, Elements(Allowed(policyMode, policy).value));
            Stored(ModeOf(effective), effective) == Elements(Requested(claimMode, claim).value) * Elements(Allowed(policyMode, policy).value)
  {
    var requested := Requested(claimMode, claim).value;
    var allowed := Elements(Allowed(policyMode, policy).value);
    var effective := Filter(requested, allowed);
    RequestedIsProper(claimMode, claim);
    forall i | 0 <= i < |effective| ensures Known(effective[i]) {
      assert effective[i] in effective && effective[i] in requested;
      var j :| 0 <= j < |requested| && requested[j] == effective[i];
    }
    NormalizeKeepsTiers("", effective);
  }
}
