/** API keys of consumers: creation, rotation, disabling and authentication, over any history of calls. */
module Credentials {
  import opened Results
  import opened Quota

  /** The part of the market that decides who a key belongs to. */
  datatype Keys = Keys(consumers: map<string, Consumer>, apiKeys: map<string, string>, apiKeyHashes: map<string, string>)

  datatype Error = InvalidAccount | AccountExists | AccountNotFound | AccountDisabled | UnauthorizedConsumer | InvalidPrivacy | StoreFailed

  type Hash = string -> string

  /** `id` is the normalized account id, empty when the raw one is invalid. `saved` is the store's answer. */
  datatype Call =
    | Create(id: string, displayName: string, limit: int, secret: string, saved: bool)
    | Rotate(id: string, secret: string, saved: bool)
    | Disable(id: string, saved: bool)

  function Named(displayName: string, id: string): string {
    if displayName == "" then id else displayName
  }

  /** removeConsumerSecretsLocked. */
  function Revoke(k: Keys, id: string): Keys {
    k.(apiKeys := map s | s in k.apiKeys && k.apiKeys[s] != id :: k.apiKeys[s],
       apiKeyHashes := map s | s in k.apiKeyHashes && k.apiKeyHashes[s] != id :: k.apiKeyHashes[s])
  }

  function Outcome(k: Keys, call: Call): Result<string, Error> {
    if call.id == "" then Err(InvalidAccount)
    else match call
      case Create(id, _, _, _, saved) =>
        if id in k.consumers then Err(AccountExists) else if saved then Ok(id) else Err(StoreFailed)
      case Rotate(id, _, saved) =>
        if id !in k.consumers then Err(AccountNotFound)
        else if k.consumers[id].disabled then Err(AccountDisabled)
        else if saved then Ok(id) else Err(StoreFailed)
      case Disable(id, saved) =>
        if id !in k.consumers then Err(AccountNotFound) else if saved then Ok(id) else Err(StoreFailed)
  }

  /** A failed save rolls a creation back, but leaves a rotation or a disabling in force. */
  function Effect(k: Keys, h: Hash, call: Call): Keys {
    if call.id == "" then k
    else match call
      case Create(id, name, limit, secret, saved) =>
        if id in k.consumers then k
        else if saved then
          k.(consumers := k.consumers[id := Consumer(id, Named(name, id), limit, false)],
             apiKeyHashes := k.apiKeyHashes[h(secret) := id])
        else k.(apiKeyHashes := k.apiKeyHashes - {h(secret)})
      case Rotate(id, secret, _) =>
        if id !in k.consumers || k.consumers[id].disabled then k
        else
          var revoked := Revoke(k, id);
          revoked.(apiKeyHashes := revoked.apiKeyHashes[h(secret) := id])
      case Disable(id, _) =>
        if id !in k.consumers then k
        else Revoke(k.(consumers := k.consumers[id := k.consumers[id].(disabled := true)]), id)
  }

  function After(k: Keys, h: Hash, calls: seq<Call>): Keys {
    if calls == [] then k else Effect(After(k, h, calls[..|calls| - 1]), h, calls[|calls| - 1])
  }

  function Active(k: Keys, id: string): Result<string, Error> {
    if id !in k.consumers || k.consumers[id].disabled then Err(UnauthorizedConsumer) else Ok(id)
  }

  function Authenticate(k: Keys, h: Hash, enabled: bool, key: string): Result<string, Error> {
    if key == "" && !enabled && k.apiKeys == map[] && k.apiKeyHashes == map[] then Ok("local")
    else if key in k.apiKeys then Active(k, k.apiKeys[key])
    else if h(key) in k.apiKeyHashes then Active(k, k.apiKeyHashes[h(key)])
    else Err(UnauthorizedConsumer)
  }

  // ---- Rotation -----------------------------------------------------------------------------

  /** SHA-256 does not collide, and the 24 random bytes of `secret` are new to everybody else. */
  ghost predicate Injective(h: Hash) {
    forall x, y :: h(x) == h(y) ==> x == y
  }

  ghost predicate Spares(call: Call, id: string, secret: string) {
    match call
    case Create(_, _, _, s, _) => s != secret
    case Rotate(other, s, _) => other != id && s != secret
    case Disable(other, _) => other != id
  }

  ghost predicate SoleKey(k: Keys, h: Hash, id: string, secret: string) {
    && id in k.consumers && !k.consumers[id].disabled
    && secret !in k.apiKeys && h(secret) in k.apiKeyHashes && k.apiKeyHashes[h(secret)] == id
    && (forall s :: s in k.apiKeys ==> k.apiKeys[s] != id)
    && (forall s :: s in k.apiKeyHashes && k.apiKeyHashes[s] == id ==> s == h(secret))
  }

  lemma SoleKeyStays(k: Keys, h: Hash, id: string, secret: string, call: Call)
    requires SoleKey(k, h, id, secret) && Injective(h) && Spares(call, id, secret)
    ensures SoleKey(Effect(k, h, call), h, id, secret)
  {
    match call
    case Create(_, _, _, s, _) => assert h(s) == h(secret) ==> s == secret;
    case Rotate(_, s, _) => assert h(s) == h(secret) ==> s == secret;
    case Disable(_, _) =>
  }

  lemma {:induction false} SoleKeyLasts(k: Keys, h: Hash, id: string, secret: string, calls: seq<Call>)
    requires SoleKey(k, h, id, secret) && Injective(h)
    requires forall i :: 0 <= i < |calls| ==> Spares(calls[i], id, secret)
    ensures SoleKey(After(k, h, calls), h, id, secret)
  {
    if calls != [] {
      var n := |calls| - 1;
      SoleKeyLasts(k, h, id, secret, calls[..n]);
      SoleKeyStays(After(k, h, calls[..n]), h, id, secret, calls[n]);
    }
  }

  /**
   After a successful rotation, and through any calls on other accounts, exactly the new key
   authenticates as the account: no older key, whoever issued it, still works.
   */
  lemma RotatedKeyIsTheOnlyKey(k: Keys, h: Hash, id: string, secret: string, calls: seq<Call>, key: string)
    requires Outcome(k, Rotate(id, secret, true)).Ok? && secret !in k.apiKeys && Injective(h)
    requires forall i :: 0 <= i < |calls| ==> Spares(calls[i], id, secret)
    ensures Authenticate(After(Effect(k, h, Rotate(id, secret, true)), h, calls), h, true, key) == Ok(id) <==> key == secret
  {
    var rotated := Effect(k, h, Rotate(id, secret, true));
    assert SoleKey(rotated, h, id, secret);
    SoleKeyLasts(rotated, h, id, secret, calls);
    assert h(key) == h(secret) ==> key == secret;
  }

  /**
   A key just created authenticates as its account, through any calls on other accounts, and no other
   key does; the account has the name and the limit asked for. If the store refused, the key is nobody's.
   */
  lemma CreatedKeyIsTheOnlyKey(k: Keys, h: Hash, id: string, name: string, limit: int, secret: string, calls: seq<Call>, key: string)
    requires Coherent(k) && id != "" && id !in k.consumers && Injective(h)
    requires secret !in k.apiKeys && forall s :: s in k.apiKeys ==> k.apiKeys[s] != id
    requires forall i :: 0 <= i < |calls| ==> Spares(calls[i], id, secret)
    ensures var created := Effect(k, h, Create(id, name, limit, secret, true));
            && (Authenticate(After(created, h, calls), h, true, key) == Ok(id) <==> key == secret)
            && id in created.consumers && created.consumers[id].totalTokenLimit == limit && !created.consumers[id].disabled
            && created.consumers[id].displayName == (if name == "" then id else name)
    ensures Authenticate(Effect(k, h, Create(id, name, limit, secret, false)), h, true, secret) == Err(UnauthorizedConsumer)
  {
    var created := Effect(k, h, Create(id, name, limit, secret, true));
    assert SoleKey(created, h, id, secret);
    SoleKeyLasts(created, h, id, secret, calls);
    assert h(key) == h(secret) ==> key == secret;
  }

  // ---- Disabling ----------------------------------------------------------------------------

  ghost predicate Gone(k: Keys, id: string) {
    id in k.consumers && k.consumers[id].disabled
  }

  lemma {:induction false} GoneForGood(k: Keys, h: Hash, id: string, calls: seq<Call>)
    requires Gone(k, id)
    ensures Gone(After(k, h, calls), id)
  {
    if calls != [] {
      GoneForGood(k, h, id, calls[..|calls| - 1]);
    }
  }

  /** Once disabled, even if the save failed, no later calls and no key bring an account back. */
  lemma DisabledNeverAuthenticates(k: Keys, h: Hash, id: string, saved: bool, calls: seq<Call>, key: string)
    requires id != "" && id in k.consumers
    ensures Authenticate(After(Effect(k, h, Disable(id, saved)), h, calls), h, true, key) != Ok(id)
  {
    GoneForGood(Effect(k, h, Disable(id, saved)), h, id, calls);
  }

  /** The limit of an account is fixed for the life of the process. */
  lemma {:induction false} LimitsAreFixed(k: Keys, h: Hash, id: string, calls: seq<Call>)
    requires id in k.consumers
    ensures id in After(k, h, calls).consumers
    ensures After(k, h, calls).consumers[id].totalTokenLimit == k.consumers[id].totalTokenLimit
  {
    if calls != [] {
      LimitsAreFixed(k, h, id, calls[..|calls| - 1]);
    }
  }

  // ---- What storing relies on ---------------------------------------------------------------

  /** Accounts are stored under their own id, and every hash belongs to an account that exists. */
  ghost predicate Coherent(k: Keys) {
    && (forall id :: id in k.consumers ==> k.consumers[id].id == id)
    && (forall s :: s in k.apiKeyHashes ==> k.apiKeyHashes[s] in k.consumers)
  }

  lemma EffectKeepsCoherent(k: Keys, h: Hash, call: Call)
    requires Coherent(k)
    ensures Coherent(Effect(k, h, call))
  {
  }
}
