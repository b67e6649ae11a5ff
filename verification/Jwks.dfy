/** The JWKS cache of the OIDC authenticator: what one access to the refresh state decides, and the loops
    that turn a provider reply into a cached key set. Times and durations are nanoseconds. */
module JwksCache {
  import opened Basics

  const SECOND: int := 1_000_000_000
  const JWKS_REFRESH_COOLDOWN: int := 30 * SECOND
  const JWKS_REFRESH_COALESCE_WINDOW: int := SECOND
  const JWKS_REFRESH_WAIT_TIMEOUT: int := SECOND
  const DEFAULT_JWKS_TTL: int := 300 * SECOND
  const MAX_JWKS_TTL: int := 3600 * SECOND
  const MAX_JWKS_KEYS: nat := 100

  /** A decoding key is opaque. */
  type DecodingKey = int

  datatype CachedJwks = CachedJwks(keys: map<string, DecodingKey>, compiledAt: int, expiresAt: int)

  datatype RefreshState = RefreshState(lastCompleted: int, retryAfter: Option<int>, coalesceUntil: Option<int>)

  datatype AuthError = UnknownKeyId | JwksRefreshBackoff | JwksRequest | EmptyJwks | TooManyJwksKeys
    | DuplicateKeyId(kid: string)

  predicate Before(now: int, deadline: Option<int>) {
    deadline.Some? && now < deadline.value
  }

  datatype GateDecision = Answer(result: Result<DecodingKey, AuthError>, coalesced: bool) | Fetch

  /** The re-check made while holding the refresh gate. `coalesced` marks an answer
      given because a refresh completed within the last second. */
  function DecideUnderGate(jwks: CachedJwks, refresh: RefreshState, kid: string, now: int): GateDecision {
    if now < jwks.expiresAt && kid in jwks.keys then Answer(Success(jwks.keys[kid]), false)
    else if now < jwks.expiresAt && now - refresh.lastCompleted < JWKS_REFRESH_COOLDOWN
      then Answer(Failure(UnknownKeyId), false)
    else if Before(now, refresh.coalesceUntil) then
      Answer(if kid in jwks.keys then Success(jwks.keys[kid]) else Failure(UnknownKeyId), true)
    else if Before(now, refresh.retryAfter) then Answer(Failure(JwksRefreshBackoff), false)
    else Fetch
  }

  /** Neither a valid key nor a reason to hold back: the set has expired or is thirty seconds old, no refresh has
      completed within the last second, and no backoff is in force. */
  ghost predicate NeedsFetch(jwks: CachedJwks, refresh: RefreshState, kid: string, now: int) {
    && (kid in jwks.keys ==> now >= jwks.expiresAt)
    && (now >= jwks.expiresAt || now >= refresh.lastCompleted + JWKS_REFRESH_COOLDOWN)
    && (refresh.coalesceUntil.Some? ==> now >= refresh.coalesceUntil.value)
    && (refresh.retryAfter.Some? ==> now >= refresh.retryAfter.value)
  }

  /** What a lookup that need not fetch is told. */
  ghost predicate AnswersFromCache(
      jwks: CachedJwks, refresh: RefreshState, kid: string, now: int, result: Result<DecodingKey, AuthError>)
  {
    match result
    case Success(key) =>
      && kid in jwks.keys && key == jwks.keys[kid]
      && (now < jwks.expiresAt || (refresh.coalesceUntil.Some? && now < refresh.coalesceUntil.value))
    case Failure(UnknownKeyId) =>
      || (now < jwks.expiresAt && now < refresh.lastCompleted + JWKS_REFRESH_COOLDOWN && kid !in jwks.keys)
      || (refresh.coalesceUntil.Some? && now < refresh.coalesceUntil.value && kid !in jwks.keys)
    case Failure(JwksRefreshBackoff) =>
      && refresh.retryAfter.Some? && now < refresh.retryAfter.value
      && (now >= jwks.expiresAt || (kid !in jwks.keys && now >= refresh.lastCompleted + JWKS_REFRESH_COOLDOWN))
      && (refresh.coalesceUntil.Some? ==> now >= refresh.coalesceUntil.value)
    case Failure(_) => false
  }

  /** The check under the gate fetches exactly when it has to, and answers anything else from the cache. */
  lemma FetchesExactlyWhenNeeded(jwks: CachedJwks, refresh: RefreshState, kid: string, now: int)
    ensures var decision := DecideUnderGate(jwks, refresh, kid, now);
      && (decision.Fetch? <==> NeedsFetch(jwks, refresh, kid, now))
      && (decision.Answer? ==> AnswersFromCache(jwks, refresh, kid, now, decision.result))
      && (decision.Answer? ==>
            (decision.coalesced <==>
              && now >= Min(jwks.expiresAt, refresh.lastCompleted + JWKS_REFRESH_COOLDOWN)
              && (kid in jwks.keys ==> now >= jwks.expiresAt)
              && refresh.coalesceUntil.Some? && now < refresh.coalesceUntil.value))
  {
  }

  function BeginAttempt(refresh: RefreshState, now: int): RefreshState {
    refresh.(retryAfter := Some(now + JWKS_REFRESH_COOLDOWN))
  }

  function DropAttempt(refresh: RefreshState, retryAfter: int): RefreshState {
    if refresh.retryAfter == Some(retryAfter) then refresh.(retryAfter := None) else refresh
  }

  function CompleteRefresh(now: int): RefreshState {
    RefreshState(now, None, Some(now + JWKS_REFRESH_COALESCE_WINDOW))
  }

  // ----- how long a fetched set stays valid -----

  /** One comma-separated cache-control directive, after parsing. */
  datatype Directive = NoCache | NoStore | MaxAge(seconds: Option<nat>) | OtherDirective

  /** All directives of the readable header values, in order. */
  function Directives(headers: seq<Option<seq<Directive>>>): seq<Directive> {
    if headers == [] then []
    else Directives(headers[..|headers| - 1])
         + (if headers[|headers| - 1].Some? then headers[|headers| - 1].value else [])
  }

  predicate ForbidsCaching(directives: seq<Directive>) {
    NoCache in directives || NoStore in directives
  }

  ghost predicate SmallestMaxAge(directives: seq<Directive>, best: Option<nat>) {
    && (best.Some? ==> MaxAge(best) in directives)
    && forall age: nat | MaxAge(Some(age)) in directives :: best.Some? && best.value <= age
  }

  function SaturatingSub(a: int, b: int): int {
    Max(a - b, 0)
  }

  predicate LargestOf(ages: seq<nat>, age: nat) {
    if ages == [] then age == 0 else age in ages && forall a | a in ages :: a <= age
  }

  /** What is left of the maximum age, five minutes where there is none, after `age` seconds: nothing once that has
      passed, and an hour at most. */
  predicate IsLeftOf(maxAge: Option<nat>, age: nat, ttl: int) {
    var granted := if maxAge.Some? then maxAge.value * SECOND else DEFAULT_JWKS_TTL;
    && (granted <= age * SECOND ==> ttl == 0)
    && (granted > age * SECOND ==>
          && 0 < ttl <= MAX_JWKS_TTL && ttl + age * SECOND <= granted
          && (ttl < MAX_JWKS_TTL ==> ttl + age * SECOND == granted))
  }

  /** `ages` holds the Age header values that parse. A caching ban wins over everything; otherwise the
      smallest max-age, or the default, less the largest age, never beyond an hour. */
  method JwksTtl(headers: seq<Option<seq<Directive>>>, ages: seq<nat>) returns (ttl: int)
    ensures 0 <= ttl <= MAX_JWKS_TTL
    ensures ForbidsCaching(Directives(headers)) ==> ttl == 0
    ensures !ForbidsCaching(Directives(headers)) ==> exists best: Option<nat>, age: nat ::
      SmallestMaxAge(Directives(headers), best) && LargestOf(ages, age) && IsLeftOf(best, age, ttl)
  {
    hide SmallestMaxAge, ForbidsCaching, LargestOf, Directives;
    var maxAge: Option<nat> := None;
    NoDirectivesYet();
    for i := 0 to |headers|
      invariant !ForbidsCaching(Directives(headers[..i]))
      invariant SmallestMaxAge(Directives(headers[..i]), maxAge)
    {
      ghost var seen := Directives(headers[..i]);
      NextHeader(headers, i);
      if headers[i].None? {
        continue;
      }
      var directives := headers[i].value;
      assert seen + directives[..0] == seen;
      for j := 0 to |directives|
        invariant !ForbidsCaching(seen + directives[..j])
        invariant SmallestMaxAge(seen + directives[..j], maxAge)
      {
        assert seen + directives[..j + 1] == (seen + directives[..j]) + [directives[j]];
        if directives[j].NoCache? || directives[j].NoStore? {
          BannedPrefix(headers, i + 1, directives[j]);
          return 0;
        }
        OneMoreDirective(seen + directives[..j], directives[j], maxAge);
        if directives[j].MaxAge? {
          var parsed := directives[j].seconds;
          maxAge := if maxAge.Some? && parsed.Some? then Some(Min(maxAge.value, parsed.value))
                    else if maxAge.None? then parsed else maxAge;
        }
      }
      assert directives[..|directives|] == directives;
    }
    assert headers[..|headers|] == headers;
    var age := LargestAge(ages);
    if maxAge.None? {
      ttl := SaturatingSub(DEFAULT_JWKS_TTL, age * SECOND);
    } else {
      ttl := Min(SaturatingSub(maxAge.value * SECOND, age * SECOND), MAX_JWKS_TTL);
    }
    assert IsLeftOf(maxAge, age, ttl);
  }

  lemma NoDirectivesYet()
    ensures Directives([]) == [] && !ForbidsCaching([]) && SmallestMaxAge([], None)
  {
  }

  lemma NextHeader(headers: seq<Option<seq<Directive>>>, i: nat)
    requires i < |headers|
    ensures Directives(headers[..i + 1])
      == if headers[i].Some? then Directives(headers[..i]) + headers[i].value else Directives(headers[..i])
  {
    assert headers[..i + 1][..i] == headers[..i];
  }

  lemma OneMoreDirective(seen: seq<Directive>, next: Directive, best: Option<nat>)
    requires !ForbidsCaching(seen) && SmallestMaxAge(seen, best) && !next.NoCache? && !next.NoStore?
    ensures !ForbidsCaching(seen + [next])
    ensures SmallestMaxAge(seen + [next],
      if !next.MaxAge? || next.seconds.None? then best
      else if best.None? then next.seconds else Some(Min(best.value, next.seconds.value)))
  {
  }

  /** A directive seen in some headers is still there once the rest are read. */
  lemma {:induction false} BannedPrefix(headers: seq<Option<seq<Directive>>>, i: nat, directive: Directive)
    requires i <= |headers| && directive in Directives(headers[..i])
    ensures directive in Directives(headers)
    ensures directive.NoCache? || directive.NoStore? ==> ForbidsCaching(Directives(headers))
    decreases |headers| - i
  {
    if i == |headers| {
      assert headers[..i] == headers;
    } else {
      assert headers[..i + 1][..i] == headers[..i];
      BannedPrefix(headers, i + 1, directive);
    }
  }

  method LargestAge(ages: seq<nat>) returns (age: nat)
    ensures LargestOf(ages, age)
  {
    age := 0;
    for i := 0 to |ages|
      invariant LargestOf(ages[..i], age)
    {
      assert ages[..i + 1] == ages[..i] + [ages[i]];
      if ages[i] >= age {
        age := ages[i];
      }
    }
    assert ages[..|ages|] == ages;
  }

  // ----- compiling a fetched set -----

  /** `usable` abstracts the algorithm filter and the decoding of the key material. */
  datatype Jwk = Jwk(kid: Option<string>, usable: Option<DecodingKey>)

  predicate Kept(key: Jwk) {
    key.kid.Some? && key.usable.Some?
  }

  predicate HasDuplicate(keys: seq<Jwk>) {
    exists i, j :: 0 <= i < j < |keys| && Kept(keys[i]) && Kept(keys[j]) && keys[i].kid == keys[j].kid
  }

  ghost predicate Compiles(keys: seq<Jwk>, compiled: map<string, DecodingKey>) {
    && (forall i | 0 <= i < |keys| && Kept(keys[i]) ::
          keys[i].kid.value in compiled && compiled[keys[i].kid.value] == keys[i].usable.value)
    && (forall kid | kid in compiled :: exists i :: 0 <= i < |keys| && Kept(keys[i]) && keys[i].kid.value == kid)
  }

  /** Keys without an id or that cannot verify are skipped; a repeated id or an empty result is an error. */
  method CompileJwks(keys: seq<Jwk>, ttl: int, now: int) returns (r: Result<CachedJwks, AuthError>)
    ensures r.Success? <==>
      |keys| <= MAX_JWKS_KEYS && !HasDuplicate(keys) && exists i :: 0 <= i < |keys| && Kept(keys[i])
    ensures r.Success? ==> Compiles(keys, r.value.keys) && r.value.compiledAt == now && r.value.expiresAt == now + ttl
    ensures r.Failure? ==>
      match r.error
      case TooManyJwksKeys => |keys| > MAX_JWKS_KEYS
      case DuplicateKeyId(kid) => |keys| <= MAX_JWKS_KEYS && HasDuplicate(keys)
      case EmptyJwks => forall i | 0 <= i < |keys| :: !Kept(keys[i])
      case _ => false
  {
    hide Compiles, HasDuplicate;
    NoKeysYet();
    if keys == [] {
      return Failure(EmptyJwks);
    }
    if |keys| > MAX_JWKS_KEYS {
      return Failure(TooManyJwksKeys);
    }
    var compiled: map<string, DecodingKey> := map[];
    for i := 0 to |keys|
      invariant Compiles(keys[..i], compiled)
      invariant !HasDuplicate(keys[..i])
    {
      assert keys[..i + 1] == keys[..i] + [keys[i]];
      if keys[i].kid.None? || keys[i].usable.None? {
        SkippedKey(keys[..i], keys[i], compiled);
        continue;
      }
      var kid := keys[i].kid.value;
      if kid in compiled {
        RepeatedKey(keys, i, compiled);
        return Failure(DuplicateKeyId(kid));
      }
      NewKey(keys[..i], keys[i], compiled);
      compiled := compiled[kid := keys[i].usable.value];
    }
    assert keys[..|keys|] == keys;
    CompiledIsEmpty(keys, compiled);
    if compiled == map[] {
      return Failure(EmptyJwks);
    }
    return Success(CachedJwks(compiled, now, now + ttl));
  }

  lemma NoKeysYet()
    ensures Compiles([], map[]) && !HasDuplicate([])
  {
  }

  lemma SkippedKey(seen: seq<Jwk>, key: Jwk, compiled: map<string, DecodingKey>)
    requires Compiles(seen, compiled) && !HasDuplicate(seen) && !Kept(key)
    ensures Compiles(seen + [key], compiled) && !HasDuplicate(seen + [key])
  {
    assert forall m | 0 <= m < |seen| :: (seen + [key])[m] == seen[m];
  }

  lemma NewKey(seen: seq<Jwk>, key: Jwk, compiled: map<string, DecodingKey>)
    requires Compiles(seen, compiled) && !HasDuplicate(seen) && Kept(key) && key.kid.value !in compiled
    ensures Compiles(seen + [key], compiled[key.kid.value := key.usable.value]) && !HasDuplicate(seen + [key])
  {
    assert forall m | 0 <= m < |seen| :: (seen + [key])[m] == seen[m];
    assert (seen + [key])[|seen|] == key;
  }

  lemma RepeatedKey(keys: seq<Jwk>, i: nat, compiled: map<string, DecodingKey>)
    requires i < |keys| && Compiles(keys[..i], compiled) && Kept(keys[i]) && keys[i].kid.value in compiled
    ensures HasDuplicate(keys)
  {
    var m :| 0 <= m < i && Kept(keys[..i][m]) && keys[..i][m].kid.value == keys[i].kid.value;
    assert Kept(keys[m]) && keys[m].kid == keys[i].kid;
  }

  lemma CompiledIsEmpty(keys: seq<Jwk>, compiled: map<string, DecodingKey>)
    requires Compiles(keys, compiled)
    ensures compiled == map[] <==> forall i | 0 <= i < |keys| :: !Kept(keys[i])
  {
    if compiled != map[] {
      var kid :| kid in compiled;
    }
  }
}
