/** The market object: accounts, secrets, usage, reservations and the store, updated in place. */
module Market {
  import opened Results
  import opened Metering
  import opened Quota
  import C = Credentials
  import D = Persistence
  import P = Privacy

  /** Deleting from a Go map every entry that belongs to an account. */
  method RemoveOwned(m: map<string, string>, id: string) returns (out: map<string, string>)
    ensures out == map s | s in m && m[s] != id :: m[s]
  {
    out := m;
    var rest := m.Keys;
    while rest != {}
      invariant rest <= m.Keys
      invariant out == map s | s in m && (s in rest || m[s] != id) :: m[s]
      decreases rest
    {
      var s :| s in rest;
      if m[s] == id {
        out := out - {s};
      }
      rest := rest - {s};
    }
  }

  /** Provider accounts under their own ids with standard policies, and no token without its account. */
  ghost predicate ProvidersCoherent(providers: map<string, D.Provider>, tokenHashes: map<string, string>) {
    && (forall id :: id in providers ==> providers[id].id == id && D.Standard(providers[id]))
    && (forall h :: h in tokenHashes ==> tokenHashes[h] in providers)
  }

  lemma AddProvider(providers: map<string, D.Provider>, tokenHashes: map<string, string>, p: D.Provider, hash: string)
    requires ProvidersCoherent(providers, tokenHashes) && D.Standard(p)
    ensures ProvidersCoherent(providers[p.id := p], tokenHashes[hash := p.id])
  {
  }

  ghost predicate Keyed(use: map<string, Usage>) {
    forall id :: id in use ==> use[id].accountID == id
  }

  lemma AddUsageKeyed(use: map<string, Usage>, id: string, done: Done, now: int)
    requires Keyed(use)
    ensures Keyed(AddUsage(use, id, done, now))
  {
  }

  datatype Status = Status(reserved: int, remaining: int, exceeded: bool)

  class Market {
    const enabled: bool
    const requireProviderTokens: bool
    const hash: C.Hash
    /** Whether a database or a usage file is configured. */
    const stored: bool

    var consumers: map<string, Consumer>
    var providers: map<string, D.Provider>
    var apiKeys: map<string, string>
    var tokens: map<string, string>
    var apiKeyHashes: map<string, string>
    var tokenHashes: map<string, string>
    var consumerUse: map<string, Usage>
    var providerUse: map<string, Usage>
    var reservedUse: map<string, int>
    var disk: Option<D.Snapshot>

    ghost function TheBook(): Book
      reads this
    {
      Book(consumers, consumerUse, providerUse, reservedUse)
    }

    ghost function TheKeys(): C.Keys
      reads this
    {
      C.Keys(consumers, apiKeys, apiKeyHashes)
    }

    ghost function TheState(): D.State
      reads this
    {
      D.State(consumers, providers, apiKeyHashes, tokenHashes, consumerUse, providerUse)
    }

    /** What every method keeps; it makes every state the market can be in one that a save brings back whole. */
    ghost predicate Valid()
      reads this
    {
      && C.Coherent(TheKeys())
      && ProvidersCoherent(providers, tokenHashes)
      && Keyed(consumerUse) && Keyed(providerUse)
      && Positive(TheBook())
    }

    constructor (enabled: bool, requireProviderTokens: bool, hash: C.Hash, stored: bool)
      ensures Valid() && this.enabled == enabled && this.requireProviderTokens == requireProviderTokens
      ensures this.hash == hash && this.stored == stored && disk == None
      ensures TheState() == D.State(map[], map[], map[], map[], map[], map[]) && reservedUse == map[] && apiKeys == map[]
    {
      this.enabled, this.requireProviderTokens := enabled, requireProviderTokens;
      this.hash, this.stored := hash, stored;
      consumers, providers, apiKeys, tokens := map[], map[], map[], map[];
      apiKeyHashes, tokenHashes := map[], map[];
      consumerUse, providerUse, reservedUse := map[], map[], map[];
      disk := None;
    }

    /** persistLocked: nothing to do without a store, everything at once with one. */
    method Persist(ok: bool) returns (failed: bool)
      requires Keyed(consumerUse) && Keyed(providerUse)
      modifies `disk
      ensures failed == (stored && !ok)
      ensures stored && ok ==> disk.Some? && D.Saves(TheState(), disk.value)
      ensures !(stored && ok) ==> disk == old(disk)
    {
      if !stored { return false; }
      if !ok { return true; }
      var snapshot := D.Save(D.State(consumers, providers, apiKeyHashes, tokenHashes, consumerUse, providerUse));
      disk := Some(snapshot);
      failed := false;
    }

    // ---- Consumers --------------------------------------------------------------------------

    method CreateConsumer(id: string, displayName: string, limit: int, secret: string, ok: bool)
      returns (r: Result<string, C.Error>)
      requires Valid()
      modifies `consumers, `apiKeyHashes, `disk
      ensures Valid()
      ensures r == C.Outcome(old(TheKeys()), C.Create(id, displayName, limit, secret, ok || !stored))
      ensures TheKeys() == C.Effect(old(TheKeys()), hash, C.Create(id, displayName, limit, secret, ok || !stored))
      ensures r.Ok? && stored ==> disk.Some? && D.Saves(TheState(), disk.value)
    {
      if id == "" { return Err(C.InvalidAccount); }
      if id in consumers { return Err(C.AccountExists); }
      C.EffectKeepsCoherent(TheKeys(), hash, C.Create(id, displayName, limit, secret, ok || !stored));
      var failed := AddConsumerAccount(Consumer(id, C.Named(displayName, id), limit, false), hash(secret), ok);
      r := if failed then Err(C.StoreFailed) else Ok(id);
    }

    /** Insert, save, and take the insertion back if the save fails. */
    method AddConsumerAccount(c: Consumer, keyHash: string, ok: bool) returns (failed: bool)
      requires Keyed(consumerUse) && Keyed(providerUse) && c.id !in consumers
      modifies `consumers, `apiKeyHashes, `disk
      ensures failed == (stored && !ok)
      ensures !failed ==> consumers == old(consumers)[c.id := c] && apiKeyHashes == old(apiKeyHashes)[keyHash := c.id]
      ensures failed ==> consumers == old(consumers) && apiKeyHashes == old(apiKeyHashes) - {keyHash}
      ensures !failed && stored ==> disk.Some? && D.Saves(TheState(), disk.value)
    {
      consumers := consumers[c.id := c];
      apiKeyHashes := apiKeyHashes[keyHash := c.id];
      failed := Persist(ok);
      if failed {
        consumers := consumers - {c.id};
        apiKeyHashes := apiKeyHashes - {keyHash};
        assert consumers == old(consumers) && apiKeyHashes == old(apiKeyHashes) - {keyHash};
      }
    }

    /** removeConsumerSecretsLocked: every key of the account goes. */
    method RemoveConsumerSecrets(id: string)
      modifies `apiKeys, `apiKeyHashes
      ensures TheKeys() == C.Revoke(old(TheKeys()), id)
    {
      apiKeys := RemoveOwned(apiKeys, id);
      apiKeyHashes := RemoveOwned(apiKeyHashes, id);
    }

    method RotateConsumerKey(id: string, secret: string, ok: bool) returns (r: Result<string, C.Error>)
      requires Valid()
      modifies `apiKeys, `apiKeyHashes, `disk
      ensures Valid()
      ensures r == C.Outcome(old(TheKeys()), C.Rotate(id, secret, ok || !stored))
      ensures TheKeys() == C.Effect(old(TheKeys()), hash, C.Rotate(id, secret, ok || !stored))
      ensures r.Ok? && stored ==> disk.Some? && D.Saves(TheState(), disk.value)
    {
      C.EffectKeepsCoherent(TheKeys(), hash, C.Rotate(id, secret, ok || !stored));
      if id == "" { return Err(C.InvalidAccount); }
      if id !in consumers { return Err(C.AccountNotFound); }
      if consumers[id].disabled { return Err(C.AccountDisabled); }
      RemoveConsumerSecrets(id);
      apiKeyHashes := apiKeyHashes[hash(secret) := id];
      var failed := Persist(ok);
      r := if failed then Err(C.StoreFailed) else Ok(id);
    }

    method DisableConsumer(id: string, ok: bool) returns (r: Result<string, C.Error>)
      requires Valid()
      modifies `consumers, `apiKeys, `apiKeyHashes, `disk
      ensures Valid()
      ensures r == C.Outcome(old(TheKeys()), C.Disable(id, ok || !stored))
      ensures TheKeys() == C.Effect(old(TheKeys()), hash, C.Disable(id, ok || !stored))
      ensures r.Ok? && stored ==> disk.Some? && D.Saves(TheState(), disk.value)
    {
      C.EffectKeepsCoherent(TheKeys(), hash, C.Disable(id, ok || !stored));
      if id == "" { return Err(C.InvalidAccount); }
      if id !in consumers { return Err(C.AccountNotFound); }
      consumers := consumers[id := consumers[id].(disabled := true)];
      RemoveConsumerSecrets(id);
      var failed := Persist(ok);
      r := if failed then Err(C.StoreFailed) else Ok(id);
    }

    method AuthenticateConsumer(key: string) returns (r: Result<string, C.Error>)
      ensures r == C.Authenticate(TheKeys(), hash, enabled, key)
    {
      if key == "" && !enabled && |apiKeys| == 0 && |apiKeyHashes| == 0 { return Ok("local"); }
      if key in apiKeys {
        var account := apiKeys[key];
        return if account !in consumers || consumers[account].disabled then Err(C.UnauthorizedConsumer) else Ok(account);
      }
      if hash(key) in apiKeyHashes {
        var account := apiKeyHashes[hash(key)];
        return if account !in consumers || consumers[account].disabled then Err(C.UnauthorizedConsumer) else Ok(account);
      }
      r := Err(C.UnauthorizedConsumer);
    }

    // ---- Quota ------------------------------------------------------------------------------

    method CheckConsumerQuota(account: string, additional: int) returns (admitted: bool)
      ensures admitted == Admits(TheBook(), account, additional)
    {
      if account !in consumers || consumers[account].totalTokenLimit <= 0 { return true; }
      var used := additional;
      if account in reservedUse { used := used + reservedUse[account]; }
      if account in consumerUse { used := used + consumerUse[account].totalTokens; }
      if additional == 0 && used >= consumers[account].totalTokenLimit { return false; }
      if additional > 0 && used > consumers[account].totalTokenLimit { return false; }
      admitted := true;
    }

    method ReserveConsumerQuota(account: string, estimate: int) returns (r: Result<Option<Reservation>, ()>)
      requires Valid()
      modifies `reservedUse
      ensures Valid()
      ensures r.Ok? <==> Admits(old(TheBook()), account, Clamp(estimate))
      ensures r.Ok? ==> r.value == Grant(old(TheBook()), account, estimate) && TheBook() == Take(old(TheBook()), r.value)
      ensures r.Err? ==> TheBook() == old(TheBook())
    {
      var tokens := if estimate < 0 then 0 else estimate;
      var admitted := CheckConsumerQuota(account, tokens);
      if !admitted { return Err(()); }
      if tokens == 0 { return Ok(None); }
      if account !in consumers || consumers[account].totalTokenLimit <= 0 { return Ok(None); }
      reservedUse := reservedUse[account := (if account in reservedUse then reservedUse[account] else 0) + tokens];
      r := Ok(Some(Reservation(account, tokens)));
    }

    method ReleaseReservation(grant: Option<Reservation>)
      requires Valid()
      modifies `reservedUse
      ensures Valid() && TheBook() == Release(old(TheBook()), grant)
    {
      if grant.None? || grant.value.tokens <= 0 { return; }
      var account := grant.value.account;
      var current := if account in reservedUse then reservedUse[account] else 0;
      if current <= grant.value.tokens {
        reservedUse := reservedUse - {account};
      } else {
        reservedUse := reservedUse[account := current - grant.value.tokens];
      }
    }

    /** Usage stays recorded in memory even when the save fails. */
    method RecordReserved(grant: Option<Reservation>, consumer: string, provider: string, done: Done, now: int, ok: bool)
      returns (failed: bool)
      requires Valid()
      modifies `consumerUse, `providerUse, `reservedUse, `disk
      ensures Valid() && failed == (stored && !ok)
      ensures TheBook() == Quota.RecordReserved(old(TheBook()), grant, consumer, provider, done, now)
      ensures !failed && stored ==> disk.Some? && D.Saves(TheState(), disk.value)
    {
      ReleaseReservation(grant);
      BumpBoth(consumer, provider, done, now);
      failed := Persist(ok);
    }

    /** Usage of both sides; a request without a provider is charged to the consumer alone. */
    method BumpBoth(consumer: string, provider: string, done: Done, now: int)
      requires Keyed(consumerUse) && Keyed(providerUse)
      modifies `consumerUse, `providerUse
      ensures Keyed(consumerUse) && Keyed(providerUse)
      ensures consumerUse == AddUsage(old(consumerUse), consumer, done, now)
      ensures providerUse == if provider == "" then old(providerUse) else AddUsage(old(providerUse), provider, done, now)
    {
      AddUsageKeyed(consumerUse, consumer, done, now);
      AddUsageKeyed(providerUse, provider, done, now);
      consumerUse := BumpUsage(consumerUse, consumer, done, now);
      if provider != "" {
        providerUse := BumpUsage(providerUse, provider, done, now);
      }
    }

    static method BumpUsage(use: map<string, Usage>, id: string, done: Done, now: int) returns (out: map<string, Usage>)
      ensures out == AddUsage(use, id, done, now)
    {
      var account := if id == "" then "unknown" else id;
      var u := Usage(account, 0, 0, 0, 0, 0);
      if account in use { u := use[account]; }
      u := u.(requests := u.requests + 1, promptTokens := u.promptTokens + done.promptTokens,
              completionTokens := u.completionTokens + done.outputTokens);
      u := u.(totalTokens := u.promptTokens + u.completionTokens, updatedAt := now);
      out := use[account := u];
    }

    /** What a limited consumer is told about its quota. */
    method ConsumerStatus(account: string) returns (s: Status)
      ensures Limited(TheBook(), account) ==>
                s == Status(ReservedTokens(TheBook(), account), Remaining(TheBook(), account), QuotaExceeded(TheBook(), account))
      ensures !Limited(TheBook(), account) ==> s == Status(0, 0, false)
    {
      if account !in consumers || consumers[account].totalTokenLimit <= 0 { return Status(0, 0, false); }
      var used := if account in consumerUse then consumerUse[account].totalTokens else 0;
      var reserved := if account in reservedUse then reservedUse[account] else 0;
      var remaining := consumers[account].totalTokenLimit - used - reserved;
      if remaining < 0 { remaining := 0; }
      s := Status(reserved, remaining, used + reserved >= consumers[account].totalTokenLimit);
    }

    // ---- Providers --------------------------------------------------------------------------

    /** An account's policy is stored normalized, or the account is not created. */
    method CreateProvider(id: string, displayName: string, mode: string, tiers: seq<string>, token: string, ok: bool)
      returns (r: Result<string, C.Error>)
      requires Valid()
      modifies `providers, `tokenHashes, `disk
      ensures Valid()
      ensures r == if id == "" then Err(C.InvalidAccount)
                   else if id in old(providers) then Err(C.AccountExists)
                   else if P.Requested(mode, tiers).Err? then Err(C.InvalidPrivacy)
                   else if ok || !stored then Ok(id)
                   else Err(C.StoreFailed)
      ensures r.Ok? ==>
                var policy := P.Requested(mode, tiers).value;
                && providers == old(providers)[id := D.Provider(id, C.Named(displayName, id), false, P.ModeOf(policy), policy)]
                && tokenHashes == old(tokenHashes)[hash(token) := id]
      ensures r.Ok? && stored ==> disk.Some? && D.Saves(TheState(), disk.value)
      ensures r.Err? ==> providers == old(providers)
      ensures r.Err? ==> tokenHashes == if r.error == C.StoreFailed then old(tokenHashes) - {hash(token)} else old(tokenHashes)
    {
      if id == "" { return Err(C.InvalidAccount); }
      if id in providers { return Err(C.AccountExists); }
      var policy := RequestedTiers(mode, tiers);
      if policy.Err? { return Err(C.InvalidPrivacy); }
      P.RequestedIsProper(mode, tiers);
      var modeName := P.ModeForTiers(policy.value);
      var provider := D.Provider(id, C.Named(displayName, id), false, modeName, policy.value);
      AddProvider(providers, tokenHashes, provider, hash(token));
      var failed := AddProviderAccount(provider, hash(token), ok);
      r := if failed then Err(C.StoreFailed) else Ok(id);
    }

    /** Insert, save, and take the insertion back if the save fails. */
    method AddProviderAccount(p: D.Provider, tokenHash: string, ok: bool) returns (failed: bool)
      requires Keyed(consumerUse) && Keyed(providerUse) && p.id !in providers
      modifies `providers, `tokenHashes, `disk
      ensures failed == (stored && !ok)
      ensures !failed ==> providers == old(providers)[p.id := p] && tokenHashes == old(tokenHashes)[tokenHash := p.id]
      ensures failed ==> providers == old(providers) && tokenHashes == old(tokenHashes) - {tokenHash}
      ensures !failed && stored ==> disk.Some? && D.Saves(TheState(), disk.value)
    {
      providers := providers[p.id := p];
      tokenHashes := tokenHashes[tokenHash := p.id];
      failed := Persist(ok);
      if failed {
        providers := providers - {p.id};
        tokenHashes := tokenHashes - {tokenHash};
        assert providers == old(providers) && tokenHashes == old(tokenHashes) - {tokenHash};
      }
    }

    static method RequestedTiers(mode: string, tiers: seq<string>) returns (r: Result<seq<string>, P.Error>)
      ensures r == P.Requested(mode, tiers)
    {
      if tiers != [] {
        r := P.NormalizeTiers(tiers);
      } else {
        r := P.TiersForMode(mode);
      }
      if r.Err? { r := Err(P.InvalidPrivacy); }
    }

    /** With provider tokens required, a node gets the tiers it claims and its account allows, or is refused. */
    method EnforceProviderPrivacy(provider: string, mode: string, tiers: seq<string>)
      returns (r: Result<(string, seq<string>), P.Error>)
      ensures enabled && requireProviderTokens ==> r == P.Enforced(ActivePolicy(provider), mode, tiers)
      ensures !(enabled && requireProviderTokens) ==>
                r == if P.Requested(mode, tiers).Err? then Err(P.InvalidPrivacy)
                     else Ok((P.ModeOf(P.Requested(mode, tiers).value), P.Requested(mode, tiers).value))
      ensures r.Ok? ==> P.Requested(mode, tiers).Ok? && r.value.1 != [] && r.value.0 == P.ModeOf(r.value.1)
    {
      var requested := RequestedTiers(mode, tiers);
      if requested.Err? { return Err(P.InvalidPrivacy); }
      P.RequestedIsProper(mode, tiers);
      if !enabled || !requireProviderTokens {
        var own := P.ModeForTiers(requested.value);
        return Ok((own, requested.value));
      }
      if provider !in providers || providers[provider].disabled { return Err(P.Unauthorized); }
      var allowed := AllowedTiers(providers[provider]);
      if allowed.Err? { return Err(P.InvalidPrivacy); }
      var effective := Narrow(requested.value, allowed.value);
      if |effective| == 0 { return Err(P.InvalidPrivacy); }
      var name := P.ModeForTiers(effective);
      r := Ok((name, effective));
    }

    static method AllowedTiers(p: D.Provider) returns (r: Result<seq<string>, P.Error>)
      ensures r == P.Allowed(p.privacyMode, p.privacyTiers)
    {
      r := if |p.privacyTiers| == 0 then P.TiersForMode(p.privacyMode) else Ok(p.privacyTiers);
    }

    /** The claimed tiers that are allowed, in claim order. */
    static method Narrow(requested: seq<string>, allowed: seq<string>) returns (effective: seq<string>)
      ensures effective == P.Filter(requested, P.Elements(allowed))
    {
      effective := [];
      for i := 0 to |requested|
        invariant effective == P.Filter(requested[..i], P.Elements(allowed))
      {
        assert requested[..i + 1][..i] == requested[..i];
        if requested[i] in allowed {
          effective := effective + [requested[i]];
        }
      }
      assert requested[..|requested|] == requested;
    }

    /** The policy of an account that may connect nodes. */
    ghost function ActivePolicy(provider: string): Option<P.Policy>
      reads this
    {
      if provider !in providers || providers[provider].disabled then None
      else Some(P.Policy(providers[provider].privacyMode, providers[provider].privacyTiers))
    }
  }

  /** A market comes back from its own store whole: the invariant is what the round trip needs. */
  lemma ValidMarketReturns(m: Market)
    requires m.Valid() && m.stored && m.disk.Some? && D.Saves(m.TheState(), m.disk.value)
    ensures D.Loaded(m.disk.value).Ok?
    ensures var back := D.Loaded(m.disk.value).value;
            && back.consumers == m.consumers && back.keyHashes == m.apiKeyHashes && back.tokenHashes == m.tokenHashes
            && back.consumerUse == m.consumerUse && back.providerUse == m.providerUse
            && back.providers.Keys == m.providers.Keys
            && forall id :: id in m.providers ==> D.SameUpToOrder(m.providers[id], back.providers[id])
  {
    D.StandardStateReturns(m.TheState(), m.disk.value);
  }
}
