/** The market's JSON snapshot: saved grouped by account, loaded back one record at a time. */
module Persistence {
  import opened Results
  import opened Ordering
  import opened Quota
  import Privacy

  datatype Provider = Provider(id: string, displayName: string, disabled: bool, privacyMode: string, privacyTiers: seq<string>)

  datatype State = State(consumers: map<string, Consumer>, providers: map<string, Provider>,
                         keyHashes: map<string, string>, tokenHashes: map<string, string>,
                         consumerUse: map<string, Usage>, providerUse: map<string, Usage>)

  /** An account together with the hashes of its secrets. */
  datatype Record<+A> = Record(id: string, account: A, hashes: seq<string>)

  datatype Snapshot = Snapshot(consumers: seq<Record<Consumer>>, providers: seq<Record<Provider>>,
                               consumerUsage: seq<Usage>, providerUsage: seq<Usage>)

  // ---- Saving -------------------------------------------------------------------------------

  function HashesFor(hashes: map<string, string>, id: string): set<string> {
    set h | h in hashes && hashes[h] == id
  }

  function Ids<A>(rs: seq<Record<A>>): seq<string> {
    seq(|rs|, i requires 0 <= i < |rs| => rs[i].id)
  }

  ghost predicate SavesAccounts<A>(accounts: map<string, A>, hashes: map<string, string>, rs: seq<Record<A>>) {
    && Lists(Ids(rs), accounts.Keys)
    && forall i :: 0 <= i < |rs| ==>
         && rs[i].id in accounts && rs[i].account == accounts[rs[i].id]
         && Lists(rs[i].hashes, HashesFor(hashes, rs[i].id))
  }

  function UsageIds(us: seq<Usage>): seq<string> {
    seq(|us|, i requires 0 <= i < |us| => us[i].accountID)
  }

  ghost predicate SavesUsage(use: map<string, Usage>, us: seq<Usage>) {
    && Lists(UsageIds(us), use.Keys)
    && forall i :: 0 <= i < |us| ==> us[i].accountID in use && us[i] == use[us[i].accountID]
  }

  ghost predicate Saves(st: State, snap: Snapshot) {
    && SavesAccounts(st.consumers, st.keyHashes, snap.consumers)
    && SavesAccounts(st.providers, st.tokenHashes, snap.providers)
    && SavesUsage(st.consumerUse, snap.consumerUsage)
    && SavesUsage(st.providerUse, snap.providerUsage)
  }

  method SaveAccounts<A>(accounts: map<string, A>, hashes: map<string, string>) returns (rs: seq<Record<A>>)
    ensures SavesAccounts(accounts, hashes, rs)
  {
    var ids := SortedKeys(accounts.Keys);
    rs := [];
    for i := 0 to |ids|
      invariant |rs| == i
      invariant forall j :: 0 <= j < i ==>
                  && rs[j].id == ids[j] && rs[j].id in accounts && rs[j].account == accounts[rs[j].id]
                  && Lists(rs[j].hashes, HashesFor(hashes, rs[j].id))
    {
      assert ids[i] in accounts.Keys;
      var own := SortedKeys(HashesFor(hashes, ids[i]));
      rs := rs + [Record(ids[i], accounts[ids[i]], own)];
    }
    assert Ids(rs) == ids;
  }

  method SaveUsage(use: map<string, Usage>) returns (us: seq<Usage>)
    requires forall id :: id in use ==> use[id].accountID == id
    ensures SavesUsage(use, us)
  {
    var ids := SortedKeys(use.Keys);
    us := [];
    for i := 0 to |ids|
      invariant |us| == i
      invariant forall j :: 0 <= j < i ==> us[j].accountID == ids[j] && ids[j] in use && us[j] == use[ids[j]]
    {
      assert ids[i] in use.Keys;
      us := us + [use[ids[i]]];
    }
    assert UsageIds(us) == ids;
  }

  ghost predicate UsageKeyed(st: State) {
    && (forall id :: id in st.consumerUse ==> st.consumerUse[id].accountID == id)
    && (forall id :: id in st.providerUse ==> st.providerUse[id].accountID == id)
  }

  method Save(st: State) returns (snap: Snapshot)
    requires UsageKeyed(st)
    ensures Saves(st, snap)
  {
    var consumers := SaveAccounts(st.consumers, st.keyHashes);
    var providers := SaveAccounts(st.providers, st.tokenHashes);
    var consumerUsage := SaveUsage(st.consumerUse);
    var providerUsage := SaveUsage(st.providerUse);
    snap := Snapshot(consumers, providers, consumerUsage, providerUsage);
  }

  // ---- Loading ------------------------------------------------------------------------------

  function AddHashes(hashes: map<string, string>, own: seq<string>, id: string): map<string, string> {
    if own == [] then hashes
    else AddHashes(hashes, own[..|own| - 1], id)[own[|own| - 1] := id]
  }

  function LoadHashes<A>(rs: seq<Record<A>>): map<string, string> {
    if rs == [] then map[] else AddHashes(LoadHashes(rs[..|rs| - 1]), rs[|rs| - 1].hashes, rs[|rs| - 1].id)
  }

  function LoadAccounts<A>(rs: seq<Record<A>>): map<string, A> {
    if rs == [] then map[] else LoadAccounts(rs[..|rs| - 1])[rs[|rs| - 1].id := rs[|rs| - 1].account]
  }

  function LoadUsage(us: seq<Usage>): map<string, Usage> {
    if us == [] then map[] else LoadUsage(us[..|us| - 1])[us[|us| - 1].accountID := us[|us| - 1]]
  }

  /** A provider's policy is normalized again on the way in, and may be refused. */
  function Policy(p: Provider): Result<Provider, Privacy.Error> {
    var tiers := Privacy.Requested(p.privacyMode, p.privacyTiers);
    if tiers.Err? then Err(tiers.error)
    else Ok(p.(privacyMode := Privacy.ModeOf(tiers.value), privacyTiers := tiers.value))
  }

  predicate PoliciesOk(rs: seq<Record<Provider>>) {
    forall i :: 0 <= i < |rs| ==> Policy(rs[i].account).Ok?
  }

  function Normalized(rs: seq<Record<Provider>>): seq<Record<Provider>>
    requires PoliciesOk(rs)
  {
    seq(|rs|, i requires 0 <= i < |rs| => rs[i].(account := Policy(rs[i].account).value))
  }

  function Loaded(snap: Snapshot): Result<State, Privacy.Error> {
    if !PoliciesOk(snap.providers) then Err(Privacy.InvalidPrivacy)
    else Ok(State(LoadAccounts(snap.consumers), LoadAccounts(Normalized(snap.providers)),
                  LoadHashes(snap.consumers), LoadHashes(snap.providers),
                  LoadUsage(snap.consumerUsage), LoadUsage(snap.providerUsage)))
  }

  method LoadOwnHashes(hashes: map<string, string>, own: seq<string>, id: string) returns (out: map<string, string>)
    ensures out == AddHashes(hashes, own, id)
  {
    out := hashes;
    for i := 0 to |own|
      invariant out == AddHashes(hashes, own[..i], id)
    {
      assert own[..i + 1][..i] == own[..i];
      out := out[own[i] := id];
    }
    assert own[..|own|] == own;
  }

  method LoadUsageRecords(us: seq<Usage>) returns (use: map<string, Usage>)
    ensures use == LoadUsage(us)
  {
    use := map[];
    for i := 0 to |us|
      invariant use == LoadUsage(us[..i])
    {
      assert us[..i + 1][..i] == us[..i];
      use := use[us[i].accountID := us[i]];
    }
    assert us[..|us|] == us;
  }

  /** loadState, on a market that is still empty. */
  method Load(snap: Snapshot) returns (r: Result<State, Privacy.Error>)
    ensures r == Loaded(snap)
  {
    var consumers: map<string, Consumer>, keyHashes: map<string, string> := map[], map[];
    for i := 0 to |snap.consumers|
      invariant consumers == LoadAccounts(snap.consumers[..i]) && keyHashes == LoadHashes(snap.consumers[..i])
    {
      var c := snap.consumers[i];
      assert snap.consumers[..i + 1][..i] == snap.consumers[..i];
      consumers := consumers[c.id := c.account];
      keyHashes := LoadOwnHashes(keyHashes, c.hashes, c.id);
    }
    assert snap.consumers[..|snap.consumers|] == snap.consumers;
    var providers, tokenHashes, ok := LoadProviders(snap.providers);
    if !ok { return Err(Privacy.InvalidPrivacy); }
    var consumerUse := LoadUsageRecords(snap.consumerUsage);
    var providerUse := LoadUsageRecords(snap.providerUsage);
    r := Ok(State(consumers, providers, keyHashes, tokenHashes, consumerUse, providerUse));
  }

  lemma PoliciesGrow(rs: seq<Record<Provider>>, i: nat)
    requires i < |rs| && PoliciesOk(rs[..i]) && Policy(rs[i].account).Ok?
    ensures PoliciesOk(rs[..i + 1])
  {
    var longer := rs[..i + 1];
    forall j | 0 <= j < |longer| ensures Policy(longer[j].account).Ok? {
      if j < i { assert longer[j] == rs[..i][j]; }
    }
  }

  lemma NormalizedGrows(rs: seq<Record<Provider>>, i: nat)
    requires i < |rs| && PoliciesOk(rs[..i]) && PoliciesOk(rs[..i + 1]) && Policy(rs[i].account).Ok?
    ensures Normalized(rs[..i + 1]) == Normalized(rs[..i]) + [rs[i].(account := Policy(rs[i].account).value)]
  {
  }

  lemma AccountsGrow<A>(rs: seq<Record<A>>, r: Record<A>)
    ensures LoadAccounts(rs + [r]) == LoadAccounts(rs)[r.id := r.account]
  {
    assert (rs + [r])[..|rs|] == rs;
  }

  lemma HashesGrow<A>(rs: seq<Record<A>>, i: nat)
    requires i < |rs|
    ensures LoadHashes(rs[..i + 1]) == AddHashes(LoadHashes(rs[..i]), rs[i].hashes, rs[i].id)
  {
    assert rs[..i + 1][..i] == rs[..i];
  }

  lemma ProviderStep(rs: seq<Record<Provider>>, i: nat)
    requires i < |rs| && PoliciesOk(rs[..i]) && Policy(rs[i].account).Ok?
    ensures PoliciesOk(rs[..i + 1])
    ensures LoadAccounts(Normalized(rs[..i + 1])) == LoadAccounts(Normalized(rs[..i]))[rs[i].id := Policy(rs[i].account).value]
    ensures LoadHashes(rs[..i + 1]) == AddHashes(LoadHashes(rs[..i]), rs[i].hashes, rs[i].id)
  {
    PoliciesGrow(rs, i);
    NormalizedGrows(rs, i);
    AccountsGrow(Normalized(rs[..i]), rs[i].(account := Policy(rs[i].account).value));
    HashesGrow(rs, i);
  }

  method LoadProviders(rs: seq<Record<Provider>>)
    returns (providers: map<string, Provider>, tokenHashes: map<string, string>, ok: bool)
    ensures ok <==> PoliciesOk(rs)
    ensures ok ==> providers == LoadAccounts(Normalized(rs)) && tokenHashes == LoadHashes(rs)
  {
    providers, tokenHashes := map[], map[];
    for i := 0 to |rs|
      invariant PoliciesOk(rs[..i])
      invariant providers == LoadAccounts(Normalized(rs[..i])) && tokenHashes == LoadHashes(rs[..i])
    {
      var policy := Policy(rs[i].account);
      if policy.Err? { return providers, tokenHashes, false; }
      ProviderStep(rs, i);
      providers := providers[rs[i].id := policy.value];
      tokenHashes := LoadOwnHashes(tokenHashes, rs[i].hashes, rs[i].id);
    }
    assert rs[..|rs|] == rs;
    ok := true;
  }

  // ---- The round trip -----------------------------------------------------------------------

  lemma {:induction false} AddHashesIs(hashes: map<string, string>, own: seq<string>, id: string)
    ensures forall h :: h in AddHashes(hashes, own, id) <==> h in hashes || h in own
    ensures forall h :: h in AddHashes(hashes, own, id) ==> AddHashes(hashes, own, id)[h] == if h in own then id else hashes[h]
  {
    if own != [] {
      AddHashesIs(hashes, own[..|own| - 1], id);
      assert forall h :: h in own <==> h in own[..|own| - 1] || h == own[|own| - 1];
    }
  }

  /** Loading hashes back finds exactly those of the accounts that were saved. */
  lemma {:induction false} HashesReturn<A>(accounts: map<string, A>, hashes: map<string, string>, rs: seq<Record<A>>, n: nat)
    requires SavesAccounts(accounts, hashes, rs) && n <= |rs|
    ensures LoadHashes(rs[..n]) == map h | h in hashes && hashes[h] in Ids(rs)[..n] :: hashes[h]
  {
    if n > 0 {
      HashesReturn(accounts, hashes, rs, n - 1);
      var r := rs[n - 1];
      assert rs[..n][..n - 1] == rs[..n - 1];
      AddHashesIs(LoadHashes(rs[..n - 1]), r.hashes, r.id);
      assert Ids(rs)[..n] == Ids(rs)[..n - 1] + [r.id];
      assert forall h :: h in r.hashes <==> h in hashes && hashes[h] == r.id;
    }
  }

  lemma LastIdIsNew<A>(rs: seq<Record<A>>)
    requires Sorted(Ids(rs)) && rs != []
    ensures forall i :: 0 <= i < |rs| - 1 ==> rs[i].id != rs[|rs| - 1].id
  {
    forall i | 0 <= i < |rs| - 1 ensures rs[i].id != rs[|rs| - 1].id {
      assert Less(Ids(rs)[i], Ids(rs)[|rs| - 1]);
      LessIsTotal(rs[i].id, rs[i].id);
    }
  }

  lemma {:induction false} AccountsReturn<A>(rs: seq<Record<A>>)
    requires Sorted(Ids(rs))
    ensures forall id :: id in LoadAccounts(rs) <==> id in Ids(rs)
    ensures forall i :: 0 <= i < |rs| ==> rs[i].id in LoadAccounts(rs) && LoadAccounts(rs)[rs[i].id] == rs[i].account
  {
    if rs != [] {
      var n := |rs| - 1;
      assert Ids(rs)[..n] == Ids(rs[..n]) && Ids(rs) == Ids(rs[..n]) + [rs[n].id];
      assert Sorted(Ids(rs)[..n]);
      AccountsReturn(rs[..n]);
      LastIdIsNew(rs);
      forall i | 0 <= i < n
        ensures rs[i].id in LoadAccounts(rs) && LoadAccounts(rs)[rs[i].id] == rs[i].account
      {
        assert rs[..n][i] == rs[i];
      }
    }
  }

  /** Usage records are account records without secrets. */
  function AsRecords(us: seq<Usage>): seq<Record<Usage>> {
    seq(|us|, i requires 0 <= i < |us| => Record(us[i].accountID, us[i], []))
  }

  lemma {:induction false} LoadUsageIsLoadAccounts(us: seq<Usage>)
    ensures LoadUsage(us) == LoadAccounts(AsRecords(us))
  {
    if us != [] {
      LoadUsageIsLoadAccounts(us[..|us| - 1]);
      assert AsRecords(us)[..|us| - 1] == AsRecords(us[..|us| - 1]);
    }
  }

  /** Hashes whose account is gone are the only thing a snapshot loses. */
  function Owned(hashes: map<string, string>, accounts: set<string>): map<string, string> {
    map h | h in hashes && hashes[h] in accounts :: hashes[h]
  }

  ghost predicate AllPoliciesOk(providers: map<string, Provider>) {
    forall id :: id in providers ==> Policy(providers[id]).Ok?
  }

  ghost function Policed(providers: map<string, Provider>): map<string, Provider>
    requires AllPoliciesOk(providers)
  {
    map id | id in providers :: Policy(providers[id]).value
  }

  /** What any state becomes once it has been saved and loaded. */
  ghost function Reloaded(st: State): State
    requires AllPoliciesOk(st.providers)
  {
    st.(providers := Policed(st.providers),
        keyHashes := Owned(st.keyHashes, st.consumers.Keys),
        tokenHashes := Owned(st.tokenHashes, st.providers.Keys))
  }

  lemma SavedAccountsReturn<A>(accounts: map<string, A>, hashes: map<string, string>, rs: seq<Record<A>>)
    requires SavesAccounts(accounts, hashes, rs)
    ensures LoadAccounts(rs) == accounts
    ensures LoadHashes(rs) == Owned(hashes, accounts.Keys)
  {
    AccountsReturn(rs);
    HashesReturn(accounts, hashes, rs, |rs|);
    assert rs[..|rs|] == rs && Ids(rs)[..|rs|] == Ids(rs);
    forall id | id in accounts ensures id in LoadAccounts(rs) && LoadAccounts(rs)[id] == accounts[id] {
      var i :| 0 <= i < |rs| && Ids(rs)[i] == id;
    }
  }

  lemma SavedPoliciesOk(providers: map<string, Provider>, hashes: map<string, string>, rs: seq<Record<Provider>>)
    requires SavesAccounts(providers, hashes, rs)
    ensures PoliciesOk(rs) <==> AllPoliciesOk(providers)
  {
    if PoliciesOk(rs) {
      forall id | id in providers ensures Policy(providers[id]).Ok? {
        var i :| 0 <= i < |rs| && Ids(rs)[i] == id;
      }
    }
  }

  lemma SavedProvidersReturn(providers: map<string, Provider>, hashes: map<string, string>, rs: seq<Record<Provider>>)
    requires SavesAccounts(providers, hashes, rs)
    ensures PoliciesOk(rs) <==> AllPoliciesOk(providers)
    ensures PoliciesOk(rs) ==>
              LoadAccounts(Normalized(rs)) == Policed(providers)
  {
    SavedPoliciesOk(providers, hashes, rs);
    if PoliciesOk(rs) {
      var ns := Normalized(rs);
      assert Ids(ns) == Ids(rs);
      AccountsReturn(ns);
      forall id | id in providers
        ensures id in LoadAccounts(ns) && LoadAccounts(ns)[id] == Policy(providers[id]).value
      {
        var i :| 0 <= i < |ns| && Ids(ns)[i] == id;
        assert ns[i].id in LoadAccounts(ns);
      }
    }
  }

  lemma SavedUsageReturns(use: map<string, Usage>, us: seq<Usage>)
    requires SavesUsage(use, us)
    ensures LoadUsage(us) == use
  {
    var rs := AsRecords(us);
    LoadUsageIsLoadAccounts(us);
    assert Ids(rs) == UsageIds(us);
    AccountsReturn(rs);
    forall id | id in use ensures id in LoadAccounts(rs) && LoadAccounts(rs)[id] == use[id] {
      var i :| 0 <= i < |rs| && Ids(rs)[i] == id;
      assert rs[i].id in LoadAccounts(rs);
    }
  }

  /** Save, then load: succeeds exactly when every policy is usable, and yields the reloaded state. */
  lemma RoundTrip(st: State, snap: Snapshot)
    requires Saves(st, snap)
    ensures Loaded(snap).Ok? <==> AllPoliciesOk(st.providers)
    ensures Loaded(snap).Ok? ==> Loaded(snap).value == Reloaded(st)
  {
    SavedAccountsReturn(st.consumers, st.keyHashes, snap.consumers);
    SavedAccountsReturn(st.providers, st.tokenHashes, snap.providers);
    SavedProvidersReturn(st.providers, st.tokenHashes, snap.providers);
    SavedUsageReturns(st.consumerUse, snap.consumerUsage);
    SavedUsageReturns(st.providerUse, snap.providerUsage);
  }

  ghost predicate NoOrphans(st: State) {
    && (forall h :: h in st.keyHashes ==> st.keyHashes[h] in st.consumers)
    && (forall h :: h in st.tokenHashes ==> st.tokenHashes[h] in st.providers)
  }

  /** A policy as every writer of the market leaves it. */
  ghost predicate Standard(p: Provider) {
    Privacy.Proper(p.privacyTiers) && p.privacyMode == Privacy.ModeOf(p.privacyTiers)
  }

  ghost predicate SameUpToOrder(p: Provider, q: Provider) {
    && q == p.(privacyTiers := q.privacyTiers)
    && forall t :: t in q.privacyTiers <==> t in p.privacyTiers
  }

  /** A state the market can be in comes back whole, up to the order of a provider's tiers. */
  lemma StandardStateReturns(st: State, snap: Snapshot)
    requires Saves(st, snap) && forall id :: id in st.providers ==> Standard(st.providers[id])
    ensures Loaded(snap).Ok?
    ensures var back := Loaded(snap).value;
            && back.consumers == st.consumers && back.consumerUse == st.consumerUse && back.providerUse == st.providerUse
            && back.providers.Keys == st.providers.Keys
            && (forall id :: id in st.providers ==> SameUpToOrder(st.providers[id], back.providers[id]))
            && (back.keyHashes == st.keyHashes && back.tokenHashes == st.tokenHashes <==> NoOrphans(st))
  {
    forall id | id in st.providers
      ensures Policy(st.providers[id]).Ok? && SameUpToOrder(st.providers[id], Policy(st.providers[id]).value)
    {
      Privacy.NormalizeKeepsTiers(st.providers[id].privacyMode, st.providers[id].privacyTiers);
    }
    RoundTrip(st, snap);
    OwnedIsAll(st.keyHashes, st.consumers.Keys);
    OwnedIsAll(st.tokenHashes, st.providers.Keys);
  }

  lemma OwnedIsAll(hashes: map<string, string>, accounts: set<string>)
    ensures Owned(hashes, accounts) == hashes <==> forall h :: h in hashes ==> hashes[h] in accounts
  {
    if Owned(hashes, accounts) == hashes {
      forall h | h in hashes ensures hashes[h] in accounts {
        assert h in Owned(hashes, accounts);
      }
    }
  }

  /** Whatever the snapshot held, a provider is loaded with a standard policy of the tiers it had, or of its mode's, and is otherwise unchanged. */
  lemma LoadedPolicyIsStandard(p: Provider)
    ensures Policy(p).Ok? ==>
              && Standard(Policy(p).value)
              && Policy(p).value == p.(privacyMode := Policy(p).value.privacyMode, privacyTiers := Policy(p).value.privacyTiers)
    ensures p.privacyTiers != [] && Policy(p).Ok? ==>
              forall t :: t in Policy(p).value.privacyTiers <==> exists u :: u in p.privacyTiers && t == if u == "" then "private" else u
  {
    Privacy.RequestedIsProper(p.privacyMode, p.privacyTiers);
    if p.privacyTiers != [] && Policy(p).Ok? {
      Privacy.ListingIsSorted(Privacy.TierSet(p.privacyTiers));
    }
  }

  /** A second save and load is exact. */
  lemma SecondRoundTripIsExact(st: State, first: Snapshot, second: Snapshot)
    requires Saves(st, first) && forall id :: id in st.providers ==> Standard(st.providers[id])
    requires Loaded(first).Ok? && Saves(Loaded(first).value, second)
    ensures Loaded(second) == Loaded(first)
  {
    RoundTrip(st, first);
    ReloadedIsStable(st);
    RoundTrip(Reloaded(st), second);
  }

  lemma ReloadedIsStable(st: State)
    requires AllPoliciesOk(st.providers) && forall id :: id in st.providers ==> Standard(st.providers[id])
    ensures AllPoliciesOk(Reloaded(st).providers) && Reloaded(Reloaded(st)) == Reloaded(st)
  {
    PoliciesAreStable(st.providers);
    OwnedIsStable(st.keyHashes, st.consumers.Keys);
    OwnedIsStable(st.tokenHashes, st.providers.Keys);
    var back := Reloaded(st);
    assert back.providers.Keys == st.providers.Keys;
  }

  lemma OwnedIsStable(hashes: map<string, string>, accounts: set<string>)
    ensures Owned(Owned(hashes, accounts), accounts) == Owned(hashes, accounts)
  {
  }

  lemma PoliciesAreStable(providers: map<string, Provider>)
    requires AllPoliciesOk(providers) && forall id :: id in providers ==> Standard(providers[id])
    ensures AllPoliciesOk(Policed(providers)) && Policed(Policed(providers)) == Policed(providers)
  {
    forall id | id in providers ensures Policy(Policed(providers)[id]) == Policy(providers[id]) {
      PolicyIsStable(providers[id]);
    }
  }

  lemma PolicyIsStable(p: Provider)
    requires Standard(p) && Policy(p).Ok?
    ensures Policy(Policy(p).value) == Policy(p)
  {
    var q := Policy(p).value;
    Privacy.NormalizeIsIdempotent(p.privacyMode, p.privacyTiers, q.privacyMode);
    Privacy.RequestedIsProper(p.privacyMode, p.privacyTiers);
  }
}
