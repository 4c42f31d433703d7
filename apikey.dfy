/** `ApiKeyUnit`: issuing, reading, changing and revoking API keys for their
    owner, verifying a presented key, and the two access rules a verified key
    is checked against (permission and calling domain). The key store is the
    `ApiKeyFx` port, here a table of keys in insertion order with `id` as its
    primary key. Times are abstract instants; hashing and key generation are
    parameters. */
module ApiKeys {
  import opened Common

  datatype Permission = Read | Write | Admin

  /** A point in time, as `new Date(...)` compares them. */
  type Instant = int

  datatype ApiKey = ApiKey(
    id: string,
    name: string,
    keyHash: string,
    permissions: seq<Permission>,
    rateLimit: int,
    domains: seq<string>,
    expiresAt: Option<Instant>,
    isActive: bool,
    userId: string,
    lastUsedAt: Option<Instant>,
    createdAt: Instant,
    updatedAt: Instant)

  function KeyIdOf(k: ApiKey): string { k.id }

  datatype CreateKeyInput = CreateKeyInput(
    name: string,
    permissions: seq<Permission>,
    rateLimit: int,
    domains: Option<seq<string>>,
    expiresAt: Option<Instant>)

  datatype UpdateKeyInput = UpdateKeyInput(
    name: Option<string>,
    permissions: Option<seq<Permission>>,
    rateLimit: Option<int>,
    domains: Option<seq<string>>,
    expiresAt: Option<Instant>,
    isActive: Option<bool>)

  /** What the owner sees of a key: everything but its hash, its owner and
      its `updatedAt`. */
  datatype KeyView = KeyView(
    id: string,
    name: string,
    permissions: seq<Permission>,
    rateLimit: int,
    domains: seq<string>,
    expiresAt: Option<Instant>,
    isActive: bool,
    createdAt: Instant,
    lastUsedAt: Option<Instant>)

  /** The response of `createApiKey`: the stored key's columns but its
      hash, and, this once, the plain secret. */
  datatype CreatedKey = CreatedKey(
    id: string,
    name: string,
    key: string,
    permissions: seq<Permission>,
    rateLimit: int,
    domains: seq<string>,
    expiresAt: Option<Instant>,
    isActive: bool,
    userId: string,
    createdAt: Instant,
    updatedAt: Instant,
    lastUsedAt: Option<Instant>)

  function View(k: ApiKey): KeyView {
    KeyView(k.id, k.name, k.permissions, k.rateLimit, k.domains, k.expiresAt, k.isActive, k.createdAt, k.lastUsedAt)
  }

  /** The creation response for a stored key and its secret. */
  function Created(secret: string, k: ApiKey): (r: CreatedKey)
    ensures r.key == secret && r.id == k.id && r.name == k.name && r.userId == k.userId
    ensures r.permissions == k.permissions && r.rateLimit == k.rateLimit && r.domains == k.domains
    ensures r.expiresAt == k.expiresAt && r.isActive == k.isActive && r.lastUsedAt == k.lastUsedAt
    ensures r.createdAt == k.createdAt && r.updatedAt == k.updatedAt
  {
    CreatedKey(k.id, k.name, secret, k.permissions, k.rateLimit, k.domains, k.expiresAt,
               k.isActive, k.userId, k.createdAt, k.updatedAt, k.lastUsedAt)
  }

  /** The response withholds the hash: keys that differ only in their hash
      give the same response. */
  lemma CreatedOmitsHash(secret: string, k: ApiKey, otherHash: string)
    ensures Created(secret, k) == Created(secret, k.(keyHash := otherHash))
  {
  }

  /** The row filter `user_id = ?`. */
  function OwnedBy(userId: string): ApiKey -> bool {
    (k: ApiKey) => k.userId == userId
  }

  /** A key just created by its owner heads that owner's listing, before
      every key created earlier. */
  lemma {:induction false} NewestKeyListedFirst(keys: seq<ApiKey>, k: ApiKey)
    ensures Reverse(Filter(keys + [k], OwnedBy(k.userId))) == [k] + Reverse(Filter(keys, OwnedBy(k.userId)))
  {
    var p := OwnedBy(k.userId);
    FilterAppend(keys, [k], p);
    assert [k][1..] == [];
    assert Filter([k], p) == [k];
    var a := Filter(keys, p);
    var l := Reverse(a + [k]);
    var m := [k] + Reverse(a);
    assert |l| == |m|;
    assert forall i :: 0 <= i < |l| ==> l[i] == m[i];
  }

  function Views(s: seq<ApiKey>): (r: seq<KeyView>)
    ensures |r| == |s|
    ensures forall i :: 0 <= i < |s| ==> r[i] == View(s[i])
    ensures forall k :: k in s ==> View(k) in r
  {
    if |s| == 0 then [] else [View(s[0])] + Views(s[1..])
  }

  const KeyNotFound := NotFound("API key not found")
  const AccessDenied := Authorization("Access denied")
  const InvalidKey := Authentication("Invalid API key")
  const Deactivated := Authentication("API key is deactivated")
  const KeyExpired := Authentication("API key expired")
  const DuplicateKeyId := Unexpected("UNIQUE constraint failed: api_keys.id")

  /** `expiresAt && new Date(expiresAt) < new Date()`. */
  predicate Expired(k: ApiKey, now: Instant) {
    k.expiresAt.Some? && k.expiresAt.value < now
  }

  /** The given columns of an update replace the stored ones. */
  function ApplyKeyUpdate(k: ApiKey, u: UpdateKeyInput, now: Instant): (r: ApiKey)
    ensures r.id == k.id && r.keyHash == k.keyHash && r.userId == k.userId
    ensures r.createdAt == k.createdAt && r.lastUsedAt == k.lastUsedAt && r.updatedAt == now
    ensures u.name.None? ==> r.name == k.name
    ensures u.permissions.None? ==> r.permissions == k.permissions
    ensures u.rateLimit.None? ==> r.rateLimit == k.rateLimit
    ensures u.domains.None? ==> r.domains == k.domains
    ensures u.expiresAt.None? ==> r.expiresAt == k.expiresAt
    ensures u.isActive.None? ==> r.isActive == k.isActive
  {
    k.(name := u.name.GetOr(k.name),
       permissions := u.permissions.GetOr(k.permissions),
       rateLimit := u.rateLimit.GetOr(k.rateLimit),
       domains := u.domains.GetOr(k.domains),
       expiresAt := if u.expiresAt.Some? then u.expiresAt else k.expiresAt,
       isActive := u.isActive.GetOr(k.isActive),
       updatedAt := now)
  }

  // ---------------------------------------------------------------------------
  // Access rules

  /** `checkPermission`: the key holds the permission, or holds `admin`. */
  predicate CheckPermission(k: ApiKey, p: Permission) {
    p in k.permissions || Admin in k.permissions
  }

  /** An `admin` key passes every permission check. */
  lemma AdminGrantsAll(k: ApiKey)
    requires Admin in k.permissions
    ensures forall p :: CheckPermission(k, p)
  {
  }

  /** Granting more permissions never takes one away. */
  lemma PermissionMonotone(k: ApiKey, extra: seq<Permission>, p: Permission)
    requires CheckPermission(k, p)
    ensures CheckPermission(k.(permissions := k.permissions + extra), p)
  {
    if p in k.permissions {
      var i :| 0 <= i < |k.permissions| && k.permissions[i] == p;
      assert (k.permissions + extra)[i] == p;
    } else {
      var i :| 0 <= i < |k.permissions| && k.permissions[i] == Admin;
      assert (k.permissions + extra)[i] == Admin;
    }
  }

  predicate StartsWith(s: string, prefix: string) {
    |prefix| <= |s| && s[..|prefix|] == prefix
  }

  /** The base of a `*.base` entry. */
  function WildcardBase(entry: string): (b: Option<string>)
    ensures b.Some? <==> StartsWith(entry, "*.")
    ensures b.Some? ==> entry == "*." + b.value
  {
    if StartsWith(entry, "*.") then Some(entry[2..]) else None
  }

  /** One entry of the domain list, as written: `*.base` accepts any domain
      that ends with `base`; any other entry accepts only itself. */
  predicate EntryMatches(entry: string, domain: string) {
    match WildcardBase(entry)
    case Some(base) => EndsWith(domain, base)
    case None => domain == entry
  }

  /** `checkDomain`, as written: an empty list accepts everything. */
  predicate CheckDomain(k: ApiKey, domain: string) {
    |k.domains| == 0 || exists i :: 0 <= i < |k.domains| && EntryMatches(k.domains[i], domain)
  }

  /** The intended wildcard rule: `*.base` accepts `base` and its subdomains,
      that is, a suffix `base` only at a label boundary. */
  predicate EntryMatchesStrict(entry: string, domain: string) {
    match WildcardBase(entry)
    case Some(base) => domain == base || EndsWith(domain, "." + base)
    case None => domain == entry
  }

  predicate CheckDomainStrict(k: ApiKey, domain: string) {
    |k.domains| == 0 || exists i :: 0 <= i < |k.domains| && EntryMatchesStrict(k.domains[i], domain)
  }

  /** A key without a domain list is usable from any domain, under both rules. */
  lemma NoDomainsAcceptsAll(k: ApiKey, domain: string)
    requires |k.domains| == 0
    ensures CheckDomain(k, domain) && CheckDomainStrict(k, domain)
  {
  }

  /** Without wildcard entries, both rules accept exactly the listed domains. */
  lemma ExactEntriesOnly(k: ApiKey, domain: string)
    requires |k.domains| > 0
    requires forall i :: 0 <= i < |k.domains| ==> WildcardBase(k.domains[i]).None?
    ensures CheckDomain(k, domain) <==> domain in k.domains
    ensures CheckDomainStrict(k, domain) <==> domain in k.domains
  {
    if domain in k.domains {
      var i :| 0 <= i < |k.domains| && k.domains[i] == domain;
      assert EntryMatches(k.domains[i], domain) && EntryMatchesStrict(k.domains[i], domain);
    }
  }

  /** The intended rule never accepts what the written one rejects. */
  lemma StrictIsNarrower(k: ApiKey, domain: string)
    requires CheckDomainStrict(k, domain)
    ensures CheckDomain(k, domain)
  {
    if |k.domains| > 0 {
      var i :| 0 <= i < |k.domains| && EntryMatchesStrict(k.domains[i], domain);
      var entry := k.domains[i];
      if WildcardBase(entry).Some? {
        var base := WildcardBase(entry).value;
        if domain != base {
          assert domain[|domain| - |base|..] == ("." + base)[1..];
        }
      }
      assert EntryMatches(entry, domain);
    }
  }

  /** Under the intended rule a wildcard match lies at a label boundary: the
      domain is the base itself, or the character before the base is a dot. */
  lemma StrictMatchesAtLabel(base: string, domain: string)
    requires EntryMatchesStrict("*." + base, domain)
    ensures domain == base || (|domain| > |base| && domain[|domain| - |base| - 1] == '.' && EndsWith(domain, base))
  {
    assert WildcardBase("*." + base) == Some(base) by {
      assert ("*." + base)[..2] == "*.";
      assert ("*." + base)[2..] == base;
    }
    if domain != base {
      assert domain[|domain| - |base| - 1..] == "." + base;
      assert domain[|domain| - |base| - 1] == ("." + base)[0];
      assert domain[|domain| - |base|..] == ("." + base)[1..];
    }
  }

  const LookalikeKey := ApiKey("k1", "site", "h", [Read], 1000, ["*.example.com"], None, true, "u1", None, 0, 0)

  lemma LookalikeEntry()
    ensures EntryMatches("*.example.com", "evilexample.com")
    ensures !EntryMatchesStrict("*.example.com", "evilexample.com")
  {
    var entry, domain := "*.example.com", "evilexample.com";
    assert entry[..2] == "*.";
    assert entry[2..] == "example.com";
    assert domain[4..] == "example.com";
    assert domain[3..][0] == 'l';
  }

  /** The written rule accepts `evilexample.com` for `*.example.com`, a
      different registrable domain; the intended rule rejects it. */
  lemma LookalikeDomainAccepted()
    ensures CheckDomain(LookalikeKey, "evilexample.com")
    ensures !CheckDomainStrict(LookalikeKey, "evilexample.com")
  {
    LookalikeEntry();
    assert LookalikeKey.domains[0] == "*.example.com";
  }

  // ---------------------------------------------------------------------------
  // The key store

  class ApiKeyStore {
    var keys: seq<ApiKey>

    ghost predicate Valid()
      reads this
    {
      UniqueKeys(keys, KeyIdOf)
    }

    constructor ()
      ensures Valid() && keys == []
    {
      keys := [];
    }

    predicate HasKeyId(id: string)
      reads this
    {
      exists i :: 0 <= i < |keys| && keys[i].id == id
    }

    method CreateApiKey(k: ApiKey) returns (out: Outcome)
      requires Valid()
      modifies this
      ensures Valid()
      ensures old(HasKeyId(k.id)) ==> out == Fail(DuplicateKeyId) && unchanged(this)
      ensures !old(HasKeyId(k.id)) ==> out == Pass && keys == old(keys) + [k]
    {
      if HasKeyId(k.id) {
        return Fail(DuplicateKeyId);
      }
      keys := keys + [k];
      out := Pass;
    }

    function FindApiKeyById(id: string): (r: Option<ApiKey>)
      reads this
      ensures r.None? <==> !HasKeyId(id)
      ensures r.Some? ==> r.value in keys && r.value.id == id
    {
      First(keys, (k: ApiKey) => k.id == id)
    }

    function FindApiKeyByHash(keyHash: string): (r: Option<ApiKey>)
      reads this
      ensures r.None? <==> forall i :: 0 <= i < |keys| ==> keys[i].keyHash != keyHash
      ensures r.Some? ==> r.value in keys && r.value.keyHash == keyHash
    {
      First(keys, (k: ApiKey) => k.keyHash == keyHash)
    }

    /** `WHERE user_id = ? ORDER BY created_at DESC`: the owner's keys,
        newest first. */
    function FindApiKeysByUserId(userId: string): (r: seq<ApiKey>)
      reads this
      ensures forall i :: 0 <= i < |r| ==> r[i] in keys && r[i].userId == userId
      ensures forall i :: 0 <= i < |keys| && keys[i].userId == userId ==> keys[i] in r
      ensures Reverse(r) == Filter(keys, OwnedBy(userId))
    {
      ReverseReverse(Filter(keys, OwnedBy(userId)));
      Reverse(Filter(keys, OwnedBy(userId)))
    }

    method UpdateApiKey(id: string, u: UpdateKeyInput, now: Instant)
      requires Valid()
      modifies this
      ensures Valid()
      ensures keys == MapWhere(old(keys), (k: ApiKey) => k.id == id, (k: ApiKey) => ApplyKeyUpdate(k, u, now))
    {
      keys := MapWhere(keys, (k: ApiKey) => k.id == id, (k: ApiKey) => ApplyKeyUpdate(k, u, now));
    }

    method DeleteApiKey(id: string)
      requires Valid()
      modifies this
      ensures Valid()
      ensures keys == Filter(old(keys), (k: ApiKey) => k.id != id)
      ensures !HasKeyId(id)
    {
      FilterKeepsUniqueKeys(keys, (k: ApiKey) => k.id != id, KeyIdOf);
      keys := Filter(keys, (k: ApiKey) => k.id != id);
    }

    method UpdateLastUsed(id: string, now: Instant)
      requires Valid()
      modifies this
      ensures Valid()
      ensures keys == MapWhere(old(keys), (k: ApiKey) => k.id == id, (k: ApiKey) => k.(lastUsedAt := Some(now)))
    {
      keys := MapWhere(keys, (k: ApiKey) => k.id == id, (k: ApiKey) => k.(lastUsedAt := Some(now)));
    }
  }

  /** After updating the key of a given id among distinct ids, looking the
      id up finds the updated key. */
  lemma UpdatedKeyFound(before: seq<ApiKey>, id: string, u: UpdateKeyInput, now: Instant, p: int)
    requires UniqueKeys(before, KeyIdOf) && 0 <= p < |before| && before[p].id == id
    ensures First(MapWhere(before, (k: ApiKey) => k.id == id, (k: ApiKey) => ApplyKeyUpdate(k, u, now)), (k: ApiKey) => k.id == id)
            == Some(ApplyKeyUpdate(before[p], u, now))
  {
    var after := MapWhere(before, (k: ApiKey) => k.id == id, (k: ApiKey) => ApplyKeyUpdate(k, u, now));
    var r := First(after, (k: ApiKey) => k.id == id);
    assert after[p] == ApplyKeyUpdate(before[p], u, now);
    assert r.Some?;
    var q :| 0 <= q < |after| && after[q] == r.value && after[q].id == id;
    assert before[q].id == id;
    assert KeyIdOf(before[q]) == KeyIdOf(before[p]);
  }

  // ---------------------------------------------------------------------------
  // The unit

  class ApiKeyUnit {
    const fx: ApiKeyStore

    constructor (fx: ApiKeyStore)
      ensures this.fx == fx
    {
      this.fx := fx;
    }

    /** `createApiKey`, with the generated secret, its hash, the fresh id and
        the clock as parameters. */
    method CreateApiKey(input: CreateKeyInput, userId: string, secret: string, keyHash: string, id: string, now: Instant)
      returns (r: Result<CreatedKey>)
      requires fx.Valid()
      modifies fx
      ensures fx.Valid()
      ensures old(fx.HasKeyId(id)) ==> r == Err(DuplicateKeyId) && unchanged(fx)
      ensures !old(fx.HasKeyId(id)) ==>
                var stored := ApiKey(id, input.name, keyHash, input.permissions, input.rateLimit,
                                     input.domains.GetOr([]), input.expiresAt, true, userId, None, now, now);
                r == Ok(Created(secret, stored)) && fx.keys == old(fx.keys) + [stored]
      ensures r.Ok? ==>
                && r.value.key == secret && r.value.id == id && r.value.userId == userId
                && r.value.name == input.name && r.value.permissions == input.permissions
                && r.value.rateLimit == input.rateLimit
                && r.value.isActive && r.value.lastUsedAt.None?
                && r.value.domains == input.domains.GetOr([])
                && r.value.expiresAt == input.expiresAt
                && r.value.createdAt == now && r.value.updatedAt == now
    {
      var keyData := ApiKey(id, input.name, keyHash, input.permissions, input.rateLimit,
                            input.domains.GetOr([]), input.expiresAt, true, userId, None, now, now);
      var out := fx.CreateApiKey(keyData);
      if out.Fail? {
        return Err(out.error);
      }
      r := Ok(Created(secret, keyData));
    }

    function ListApiKeys(userId: string): (r: seq<KeyView>)
      reads fx
      ensures forall i :: 0 <= i < |r| ==> exists k :: k in fx.keys && k.userId == userId && r[i] == View(k)
      ensures forall k :: k in fx.keys && k.userId == userId ==> View(k) in r
      ensures var s := fx.FindApiKeysByUserId(userId);
              |r| == |s| && forall i :: 0 <= i < |r| ==> r[i] == View(s[i])
    {
      Views(fx.FindApiKeysByUserId(userId))
    }

    /** The guard `getApiKey`, `updateApiKey` and `deleteApiKey` share: the
        key exists, then it belongs to the caller. */
    function OwnedKey(id: string, userId: string): (r: Result<ApiKey>)
      reads fx
      ensures !fx.HasKeyId(id) <==> r == Err(KeyNotFound)
      ensures fx.HasKeyId(id) && fx.FindApiKeyById(id).value.userId != userId <==> r == Err(AccessDenied)
      ensures r.Ok? ==> r.value in fx.keys && r.value.id == id && r.value.userId == userId
    {
      match fx.FindApiKeyById(id)
      case None => Err(KeyNotFound)
      case Some(k) => if k.userId != userId then Err(AccessDenied) else Ok(k)
    }

    /** With distinct ids, the owner guard fails with `Access denied`
        exactly when the stored key of that id belongs to someone else. */
    lemma OwnedKeyDenies(id: string, userId: string, i: int)
      requires fx.Valid() && 0 <= i < |fx.keys| && fx.keys[i].id == id
      ensures OwnedKey(id, userId) == (if fx.keys[i].userId == userId then Ok(fx.keys[i]) else Err(AccessDenied))
    {
      var k := fx.FindApiKeyById(id).value;
      var j :| 0 <= j < |fx.keys| && fx.keys[j] == k;
      assert KeyIdOf(fx.keys[j]) == KeyIdOf(fx.keys[i]);
    }

    function GetApiKey(id: string, userId: string): (r: Result<KeyView>)
      reads fx
      ensures r.Err? <==> OwnedKey(id, userId).Err?
      ensures r.Err? ==> r.error == OwnedKey(id, userId).error
      ensures r.Ok? ==> exists k :: k in fx.keys && k.id == id && k.userId == userId && r.value == View(k)
    {
      match OwnedKey(id, userId)
      case Err(e) => Err(e)
      case Ok(k) => Ok(View(k))
    }

    /** `updateApiKey`: guarded like `getApiKey`; the re-read after the
        update cannot miss, since an update never removes a key. */
    method UpdateApiKey(id: string, input: UpdateKeyInput, userId: string, now: Instant) returns (r: Result<KeyView>)
      requires fx.Valid()
      modifies fx
      ensures fx.Valid()
      ensures old(OwnedKey(id, userId)).Err? ==> r == Err(old(OwnedKey(id, userId)).error) && unchanged(fx)
      ensures old(OwnedKey(id, userId)).Ok? ==>
                && r == Ok(View(ApplyKeyUpdate(old(OwnedKey(id, userId)).value, input, now)))
                && fx.keys == MapWhere(old(fx.keys), (k: ApiKey) => k.id == id, (k: ApiKey) => ApplyKeyUpdate(k, input, now))
    {
      var owned := OwnedKey(id, userId);
      if owned.Err? {
        return Err(owned.error);
      }
      ghost var p :| 0 <= p < |fx.keys| && fx.keys[p] == owned.value;
      UpdatedKeyFound(fx.keys, id, input, now, p);
      fx.UpdateApiKey(id, input, now);
      var updated := fx.FindApiKeyById(id);
      r := Ok(View(updated.value));
    }

    method DeleteApiKey(id: string, userId: string) returns (out: Outcome)
      requires fx.Valid()
      modifies fx
      ensures fx.Valid()
      ensures old(OwnedKey(id, userId)).Err? ==> out == Fail(old(OwnedKey(id, userId)).error) && unchanged(fx)
      ensures old(OwnedKey(id, userId)).Ok? ==> out == Pass && fx.keys == Filter(old(fx.keys), (k: ApiKey) => k.id != id)
    {
      var owned := OwnedKey(id, userId);
      if owned.Err? {
        return Fail(owned.error);
      }
      fx.DeleteApiKey(id);
      out := Pass;
    }

    /** `verifyApiKey`: the key must be known, then active, then unexpired;
        only a key passing all three has its last use recorded. */
    method VerifyApiKey(secret: string, hash: string -> string, now: Instant) returns (r: Result<ApiKey>)
      requires fx.Valid()
      modifies fx
      ensures fx.Valid()
      ensures var found := old(fx.FindApiKeyByHash(hash(secret)));
              && (found.None? ==> r == Err(InvalidKey))
              && (found.Some? && !found.value.isActive ==> r == Err(Deactivated))
              && (found.Some? && found.value.isActive && Expired(found.value, now) ==> r == Err(KeyExpired))
              && (found.Some? && found.value.isActive && !Expired(found.value, now) ==> r == Ok(found.value))
      ensures r.Err? ==> r.error.Authentication? && unchanged(fx)
      ensures r.Ok? ==> fx.keys == MapWhere(old(fx.keys), (k: ApiKey) => k.id == r.value.id, (k: ApiKey) => k.(lastUsedAt := Some(now)))
    {
      var keyHash := hash(secret);
      var keyData := fx.FindApiKeyByHash(keyHash);
      if keyData.None? {
        return Err(InvalidKey);
      }
      if !keyData.value.isActive {
        return Err(Deactivated);
      }
      if Expired(keyData.value, now) {
        return Err(KeyExpired);
      }
      fx.UpdateLastUsed(keyData.value.id, now);
      r := Ok(keyData.value);
    }
  }
}
