/** Every interleaving of callers that look a key up, refresh the cache behind a one-permit gate, fail,
    and are cancelled, over a clock that only moves forward. */
module JwksRefreshProtocol {
  import opened Basics
  import opened JwksCache

  datatype Caller = Caller(kid: string, at: Point)

  /** Where a caller is. From `GateCheck` to `Releasing` it holds the refresh gate. */
  datatype Point =
    | FastPath
    | WaitingForGate(since: int)
    | GateCheck
    | Starting                                     // may fetch; no await until the attempt has begun
    | Fetching(retryAfter: int)
    | Fetched(retryAfter: int, jwks: CachedJwks)   // waiting for the write lock
    | Written(jwks: CachedJwks)                    // no await until the refresh is completed
    | Unwinding(retryAfter: int)                   // cancelled: the attempt is dropped before the permit
    | Releasing
    | Done

  /** `expiresAt` is that of the set that a successful fetch installed. */
  datatype Outcome = InFlight | Failed | Succeeded(end: int, expiresAt: int) | Abandoned

  /** History: one record per begun fetch. */
  datatype Attempt = Attempt(begin: int, outcome: Outcome)

  /** History: one record per installed key set; `completed` once the refresh state followed. */
  datatype Install = Install(jwks: CachedJwks, completed: Option<int>)

  datatype Reason = Unexpired | Coalesced | JustFetched

  /** History: a key handed to a caller, from install number `install`. */
  datatype Handout = Handout(kid: string, key: DecodingKey, at: int, install: int, reason: Reason)

  datatype State = State(
    now: int,
    keys: CachedJwks,
    refresh: RefreshState,
    gate: Option<nat>,
    callers: seq<Caller>,
    attempts: seq<Attempt>,
    installs: seq<Install>,
    handouts: seq<Handout>)

  function Init(start: int, discovered: CachedJwks, kids: seq<string>): State {
    State(start, discovered, RefreshState(start, None, None), None,
          seq(|kids|, i requires 0 <= i < |kids| => Caller(kids[i], FastPath)),
          [], [Install(discovered, Some(start))], [])
  }

  /** What compiling a fetched set guarantees about its lifetime (see `JwksTtl` and `CompileJwks`). */
  predicate ValidJwks(jwks: CachedJwks) {
    jwks.compiledAt <= jwks.expiresAt <= jwks.compiledAt + MAX_JWKS_TTL
  }

  datatype Step =
    | Tick(elapsed: nat)
    | ReadFast(i: nat)
    | GateTimeout(i: nat)
    | AcquireGate(i: nat)
    | CheckGate(i: nat)
    | Begin(i: nat)
    | FetchFails(i: nat)
    | FetchReturns(i: nat, keys: map<string, DecodingKey>, ttl: nat)
    | Write(i: nat)
    | Complete(i: nat)
    | Cancel(i: nat)
    | DropArmedAttempt(i: nat)
    | Release(i: nat)

  predicate Enabled(s: State, step: Step) {
    step.Tick? ||
    (step.i < |s.callers| &&
      var at := s.callers[step.i].at;
      match step
      case ReadFast(_) => at.FastPath?
      case GateTimeout(_) => at.WaitingForGate? && s.now >= at.since + JWKS_REFRESH_WAIT_TIMEOUT
      case AcquireGate(_) => at.WaitingForGate? && s.gate.None?
      case CheckGate(_) => at.GateCheck?
      case Begin(_) => at.Starting?
      case FetchFails(_) => at.Fetching?
      case FetchReturns(_, _, ttl) => at.Fetching? && ttl <= MAX_JWKS_TTL
      case Write(_) => at.Fetched?
      case Complete(_) => at.Written?
      case Cancel(_) => at.FastPath? || at.WaitingForGate? || at.GateCheck? || at.Fetching? || at.Fetched?
      case DropArmedAttempt(_) => at.Unwinding?
      case Release(_) => at.Releasing?)
  }

  function Move(s: State, i: nat, at: Point): State
    requires i < |s.callers|
  {
    s.(callers := s.callers[i := s.callers[i].(at := at)])
  }

  function Hand(s: State, kid: string, key: DecodingKey, reason: Reason): State {
    s.(handouts := s.handouts + [Handout(kid, key, s.now, |s.installs| - 1, reason)])
  }

  /** The record of the fetch that is under way is the last one. */
  function EndAttempt(attempts: seq<Attempt>, outcome: Outcome): seq<Attempt> {
    if attempts == [] then []
    else attempts[|attempts| - 1 := attempts[|attempts| - 1].(outcome := outcome)]
  }

  function EndInstall(installs: seq<Install>, install: Install): seq<Install> {
    if installs == [] then [] else installs[|installs| - 1 := install]
  }

  function Apply(s: State, step: Step): State
    requires Enabled(s, step)
  {
    match step
    case Tick(elapsed) => s.(now := s.now + elapsed)
    case ReadFast(i) =>
      var kid := s.callers[i].kid;
      if s.now < s.keys.expiresAt && kid in s.keys.keys
      then Hand(Move(s, i, Done), kid, s.keys.keys[kid], Unexpired)
      else Move(s, i, WaitingForGate(s.now))
    case GateTimeout(i) => Move(s, i, Done)
    case AcquireGate(i) => Move(s, i, GateCheck).(gate := Some(i))
    case CheckGate(i) =>
      var kid := s.callers[i].kid;
      (match DecideUnderGate(s.keys, s.refresh, kid, s.now)
       case Answer(Success(key), coalesced) =>
         Hand(Move(s, i, Releasing), kid, key, if coalesced then Coalesced else Unexpired)
       case Answer(Failure(_), _) => Move(s, i, Releasing)
       case Fetch => Move(s, i, Starting))
    case Begin(i) =>
      Move(s, i, Fetching(s.now + JWKS_REFRESH_COOLDOWN)).(
        refresh := BeginAttempt(s.refresh, s.now), attempts := s.attempts + [Attempt(s.now, InFlight)])
    case FetchFails(i) => Move(s, i, Releasing).(attempts := EndAttempt(s.attempts, Failed))
    case FetchReturns(i, keys, ttl) =>
      Move(s, i, Fetched(s.callers[i].at.retryAfter, CachedJwks(keys, s.now, s.now + ttl)))
    case Write(i) =>
      var jwks := s.callers[i].at.jwks;
      Move(s, i, Written(jwks)).(keys := jwks, installs := s.installs + [Install(jwks, None)])
    case Complete(i) =>
      var kid, jwks := s.callers[i].kid, s.callers[i].at.jwks;
      var completed := Move(s, i, Releasing).(
        refresh := CompleteRefresh(s.now),
        attempts := EndAttempt(s.attempts, Succeeded(s.now, jwks.expiresAt)),
        installs := EndInstall(s.installs, Install(jwks, Some(s.now))));
      if kid in jwks.keys then Hand(completed, kid, jwks.keys[kid], JustFetched) else completed
    case Cancel(i) =>
      (match s.callers[i].at
       case Fetching(r) => Move(s, i, Unwinding(r)).(attempts := EndAttempt(s.attempts, Abandoned))
       case Fetched(r, _) => Move(s, i, Unwinding(r)).(attempts := EndAttempt(s.attempts, Abandoned))
       case GateCheck => Move(s, i, Releasing)
       case _ => Move(s, i, Done))
    case DropArmedAttempt(i) =>
      Move(s, i, Releasing).(refresh := DropAttempt(s.refresh, s.callers[i].at.retryAfter))
    case Release(i) => Move(s, i, Done).(gate := None)
  }

  // ----- the invariant -----

  predicate HoldsGate(at: Point) {
    !at.FastPath? && !at.WaitingForGate? && !at.Done?
  }

  predicate Refreshing(at: Point) {
    at.Fetching? || at.Fetched? || at.Written?
  }

  /** The point of the caller that holds the gate; `Done` when nobody does. */
  function Holder(s: State): Point {
    if s.gate.Some? && s.gate.value < |s.callers| then s.callers[s.gate.value].at else Done
  }

  ghost predicate GateExclusive(s: State) {
    && (s.gate.Some? ==> s.gate.value < |s.callers|)
    && forall i | 0 <= i < |s.callers| :: HoldsGate(s.callers[i].at) <==> s.gate == Some(i)
  }

  /** At most the last fetch is in flight, exactly while the gate holder refreshes. The backoff is that of
      the running or unwinding attempt; with neither, it is exactly the last fetch's own if that failed. */
  ghost predicate BackoffAccounted(s: State) {
    var n, at := |s.attempts|, Holder(s);
    && (forall i | 0 <= i < n :: s.attempts[i].outcome.InFlight? ==> i == n - 1 && Refreshing(at))
    && (Refreshing(at) || at.Unwinding? ==>
          n > 0 && s.refresh.retryAfter == Some(s.attempts[n - 1].begin + JWKS_REFRESH_COOLDOWN))
    && (Refreshing(at) ==> s.attempts[n - 1].outcome.InFlight?)
    && (at.Fetching? || at.Fetched? || at.Unwinding? ==> s.refresh.retryAfter == Some(at.retryAfter))
    && (at.Unwinding? ==> s.attempts[n - 1].outcome.Abandoned?)
    && (!Refreshing(at) && !at.Unwinding? ==>
          s.refresh.retryAfter == if n > 0 && s.attempts[n - 1].outcome.Failed?
                                  then Some(s.attempts[n - 1].begin + JWKS_REFRESH_COOLDOWN) else None)
    && (at.Starting? ==> !Before(s.now, s.refresh.retryAfter) && !Before(s.now, s.refresh.coalesceUntil))
  }

  ghost predicate AttemptsSpaced(attempts: seq<Attempt>, now: int, coalesceUntil: Option<int>) {
    && (forall i | 0 <= i < |attempts| :: attempts[i].begin <= now)
    && (forall i, j | 0 <= i < j < |attempts| :: Spaced(attempts[i], attempts[j]))
    && (forall i | 0 <= i < |attempts| && attempts[i].outcome.Succeeded? ::
          && attempts[i].begin <= attempts[i].outcome.end <= now
          && coalesceUntil.Some? && coalesceUntil.value >= attempts[i].outcome.end + JWKS_REFRESH_COALESCE_WINDOW)
  }

  /** What an earlier fetch imposes on a later one. */
  predicate Spaced(earlier: Attempt, later: Attempt) {
    match earlier.outcome
    case Failed => later.begin >= earlier.begin + JWKS_REFRESH_COOLDOWN
    case Succeeded(end, _) => later.begin >= end + JWKS_REFRESH_COALESCE_WINDOW
    case _ => later.begin >= earlier.begin
  }

  predicate StateOf(installs: seq<Install>, refresh: RefreshState) {
    && installs != []
    && var last := installs[|installs| - 1];
    && last.completed == Some(refresh.lastCompleted)
    && refresh.coalesceUntil ==
       if |installs| == 1 then None else Some(refresh.lastCompleted + JWKS_REFRESH_COALESCE_WINDOW)
  }

  /** Keys and refresh state belong to the same refresh, except between the two writes of one holder. */
  ghost predicate CacheCoherent(s: State) {
    var n := |s.installs|;
    && n > 0 && s.keys == s.installs[n - 1].jwks
    && (forall k | 0 <= k < n :: ValidJwks(s.installs[k].jwks) && s.installs[k].jwks.compiledAt <= s.now)
    && (forall k | 0 <= k < n && s.installs[k].completed.Some? ::
          s.installs[k].jwks.compiledAt <= s.installs[k].completed.value <= s.now)
    && (forall k | 0 <= k < n - 1 :: s.installs[k].completed.Some?)
    && (Holder(s).Fetched? ==> ValidJwks(Holder(s).jwks) && Holder(s).jwks.compiledAt <= s.now)
    && if Holder(s).Written?
       then n > 1 && s.installs[n - 1] == Install(Holder(s).jwks, None) && StateOf(s.installs[..n - 1], s.refresh)
       else StateOf(s.installs, s.refresh)
  }

  /** How long an installed set keeps every caller from fetching: unknown key ids are refused meanwhile. */
  function RefusesUntil(expiresAt: int, completed: int): int {
    Min(expiresAt, completed + JWKS_REFRESH_COOLDOWN)
  }

  /** The set that refuses until `until` is in force, or that time has passed; the fetches from the one at
      position `from` on began no earlier. */
  ghost predicate SparedUntil(s: State, until: int, from: nat) {
    && (until <= s.now
        || (!Refreshing(Holder(s)) && until == RefusesUntil(s.keys.expiresAt, s.refresh.lastCompleted)))
    && forall j | from <= j < |s.attempts| :: s.attempts[j].begin >= until
  }

  predicate WasInstalled(outcome: Outcome, installs: seq<Install>)
    requires outcome.Succeeded?
  {
    exists k :: 0 <= k < |installs| && installs[k].completed == Some(outcome.end)
                && installs[k].jwks.expiresAt == outcome.expiresAt
  }

  /** Every completed refresh, and the discovery before the first one, holds later fetches back. */
  ghost predicate ProviderSpared(s: State) {
    && (Holder(s).Starting? ==> RefusesUntil(s.keys.expiresAt, s.refresh.lastCompleted) <= s.now)
    && s.installs != [] && s.installs[0].completed.Some?
    && SparedUntil(s, RefusesUntil(s.installs[0].jwks.expiresAt, s.installs[0].completed.value), 0)
    && forall i | 0 <= i < |s.attempts| && s.attempts[i].outcome.Succeeded? ::
         && WasInstalled(s.attempts[i].outcome, s.installs)
         && SparedUntil(s, RefusesUntil(s.attempts[i].outcome.expiresAt, s.attempts[i].outcome.end), i + 1)
  }

  predicate Justified(h: Handout, installs: seq<Install>) {
    && 0 <= h.install < |installs|
    && var install := installs[h.install];
       && h.kid in install.jwks.keys && install.jwks.keys[h.kid] == h.key
       && install.jwks.compiledAt <= h.at
       && match h.reason
          case Unexpired => h.at < install.jwks.expiresAt
          case Coalesced =>
            install.completed.Some?
            && install.completed.value <= h.at < install.completed.value + JWKS_REFRESH_COALESCE_WINDOW
          case JustFetched => install.completed == Some(h.at)
  }

  ghost predicate HandoutsJustified(s: State) {
    forall k | 0 <= k < |s.handouts| :: Justified(s.handouts[k], s.installs)
  }

  ghost predicate Coherent(s: State) {
    GateExclusive(s) && BackoffAccounted(s) && AttemptsSpaced(s.attempts, s.now, s.refresh.coalesceUntil)
    && CacheCoherent(s) && HandoutsJustified(s) && ProviderSpared(s)
  }

  lemma InitCoherent(start: int, discovered: CachedJwks, kids: seq<string>)
    requires ValidJwks(discovered) && discovered.compiledAt <= start
    ensures Coherent(Init(start, discovered, kids))
  {
  }

  lemma StepKeepsGate(s: State, step: Step)
    requires GateExclusive(s) && Enabled(s, step)
    ensures GateExclusive(Apply(s, step))
  {
  }

  lemma StepKeepsBackoff(s: State, step: Step)
    requires GateExclusive(s) && BackoffAccounted(s) && Enabled(s, step)
    ensures BackoffAccounted(Apply(s, step))
  {
    StepKeepsGate(s, step);
    if step.Tick? || !HoldsGate(s.callers[step.i].at) {
      OutsiderKeepsBackoff(s, step);
    } else {
      assert s.gate == Some(step.i) && Holder(s) == s.callers[step.i].at;
      HolderKeepsBackoff(s, step);
    }
  }

  lemma OutsiderKeepsBackoff(s: State, step: Step)
    requires GateExclusive(s) && BackoffAccounted(s) && Enabled(s, step)
      && (step.Tick? || !HoldsGate(s.callers[step.i].at))
    ensures BackoffAccounted(Apply(s, step))
  {
    var s' := Apply(s, step);
    assert s'.attempts == s.attempts && s'.refresh == s.refresh;
    assert Holder(s') == if step.AcquireGate? then GateCheck else Holder(s);
  }

  lemma HolderKeepsBackoff(s: State, step: Step)
    requires GateExclusive(s) && BackoffAccounted(s) && Enabled(s, step) && !step.Tick?
    requires s.gate == Some(step.i) && HoldsGate(s.callers[step.i].at)
    ensures BackoffAccounted(Apply(s, step))
  {
    var s' := Apply(s, step);
    assert Holder(s') == s'.callers[step.i].at || s'.gate.None?;
  }

  lemma StepKeepsSpacing(s: State, step: Step)
    requires GateExclusive(s) && BackoffAccounted(s) && Enabled(s, step)
    requires AttemptsSpaced(s.attempts, s.now, s.refresh.coalesceUntil)
    ensures var s' := Apply(s, step); AttemptsSpaced(s'.attempts, s'.now, s'.refresh.coalesceUntil)
  {
    var s' := Apply(s, step);
    assert !step.Tick? && HoldsGate(s.callers[step.i].at) ==> Holder(s) == s.callers[step.i].at;
    if step.Begin? {
      NewAttemptIsSpaced(s);
    } else if step.FetchFails? {
      EndedAttemptIsSpaced(s.attempts, s.now, s.refresh.coalesceUntil, Failed, s.refresh.coalesceUntil);
    } else if step.Complete? {
      EndedAttemptIsSpaced(
        s.attempts, s.now, s.refresh.coalesceUntil, Succeeded(s.now, s.callers[step.i].at.jwks.expiresAt),
        s'.refresh.coalesceUntil);
    } else if step.Cancel? && Refreshing(s.callers[step.i].at) {
      EndedAttemptIsSpaced(s.attempts, s.now, s.refresh.coalesceUntil, Abandoned, s.refresh.coalesceUntil);
    } else {
      assert s'.attempts == s.attempts && s'.refresh.coalesceUntil == s.refresh.coalesceUntil;
    }
  }

  /** Passing the check under the gate means every earlier fetch is far enough in the past. */
  lemma NewAttemptIsSpaced(s: State)
    requires BackoffAccounted(s) && AttemptsSpaced(s.attempts, s.now, s.refresh.coalesceUntil) && Holder(s).Starting?
    ensures AttemptsSpaced(s.attempts + [Attempt(s.now, InFlight)], s.now, s.refresh.coalesceUntil)
  {
    var n := |s.attempts|;
    forall i | 0 <= i < n ensures Spaced(s.attempts[i], Attempt(s.now, InFlight)) {
      if i < n - 1 {
        assert Spaced(s.attempts[i], s.attempts[n - 1]);
      }
    }
  }

  lemma EndedAttemptIsSpaced(
      attempts: seq<Attempt>, now: int, before: Option<int>, outcome: Outcome, after: Option<int>)
    requires attempts != [] && AttemptsSpaced(attempts, now, before)
    requires if outcome.Succeeded? then outcome.end == now && after == Some(now + JWKS_REFRESH_COALESCE_WINDOW)
             else before == after
    ensures AttemptsSpaced(EndAttempt(attempts, outcome), now, after)
  {
    var ended := EndAttempt(attempts, outcome);
    forall i, j | 0 <= i < j < |ended| ensures Spaced(ended[i], ended[j]) {
      assert Spaced(attempts[i], attempts[j]);
    }
  }

  /** No step but the two writes of a gate holder touches the keys, the last completion or the
      coalescing window. */
  lemma OnlyTwoWritesTouchCache(s: State, step: Step)
    requires GateExclusive(s) && Enabled(s, step) && !step.Write? && !step.Complete?
    ensures var s' := Apply(s, step);
      && s'.keys == s.keys && s'.installs == s.installs && s'.now >= s.now
      && s'.refresh.lastCompleted == s.refresh.lastCompleted
      && s'.refresh.coalesceUntil == s.refresh.coalesceUntil
      && (Holder(s').Written? || Holder(s).Written? ==> Holder(s') == Holder(s))
      && (Holder(s').Fetched? && Holder(s) != Holder(s') ==>
            ValidJwks(Holder(s').jwks) && Holder(s').jwks.compiledAt == s.now)
  {
    StepKeepsGate(s, step);
  }

  lemma StepKeepsCache(s: State, step: Step)
    requires GateExclusive(s) && CacheCoherent(s) && Enabled(s, step)
    ensures CacheCoherent(Apply(s, step))
  {
    StepKeepsGate(s, step);
    if step.Write? {
      WriteKeepsCache(s, step.i);
    } else if step.Complete? {
      CompleteKeepsCache(s, step.i);
    } else {
      OnlyTwoWritesTouchCache(s, step);
    }
  }

  lemma WriteKeepsCache(s: State, i: nat)
    requires GateExclusive(s) && CacheCoherent(s) && Enabled(s, Write(i))
    ensures CacheCoherent(Apply(s, Write(i)))
  {
    var s' := Apply(s, Write(i));
    assert s.gate == Some(i) && Holder(s) == s.callers[i].at && Holder(s') == Written(Holder(s).jwks);
    assert s'.installs[..|s'.installs| - 1] == s.installs;
  }

  lemma CompleteKeepsCache(s: State, i: nat)
    requires GateExclusive(s) && CacheCoherent(s) && Enabled(s, Complete(i))
    ensures CacheCoherent(Apply(s, Complete(i)))
  {
    var s' := Apply(s, Complete(i));
    assert s.gate == Some(i) && Holder(s) == s.callers[i].at && Holder(s') == Releasing;
    assert s'.refresh == CompleteRefresh(s.now);
    assert s'.keys == s.keys;
  }

  lemma StepKeepsHandouts(s: State, step: Step)
    requires GateExclusive(s) && CacheCoherent(s) && HandoutsJustified(s) && Enabled(s, step)
    ensures HandoutsJustified(Apply(s, step))
  {
    var s' := Apply(s, step);
    assert !step.Tick? && HoldsGate(s.callers[step.i].at) ==> Holder(s) == s.callers[step.i].at;
    InstallsOnlyGrow(s, step);
    if |s'.handouts| > |s.handouts| {
      NewHandoutIsJustified(s, step);
    }
  }

  lemma InstallsOnlyGrow(s: State, step: Step)
    requires GateExclusive(s) && CacheCoherent(s) && Enabled(s, step)
    ensures forall h: Handout | Justified(h, s.installs) :: Justified(h, Apply(s, step).installs)
    ensures s.handouts <= Apply(s, step).handouts && |Apply(s, step).handouts| <= |s.handouts| + 1
  {
    assert !step.Tick? && HoldsGate(s.callers[step.i].at) ==> Holder(s) == s.callers[step.i].at;
  }

  lemma NewHandoutIsJustified(s: State, step: Step)
    requires GateExclusive(s) && CacheCoherent(s) && Enabled(s, step)
    requires |Apply(s, step).handouts| == |s.handouts| + 1
    ensures Justified(Apply(s, step).handouts[|s.handouts|], Apply(s, step).installs)
  {
    assert step.ReadFast? || step.CheckGate? || step.Complete?;
    assert !step.ReadFast? ==> Holder(s) == s.callers[step.i].at;
  }

  /** Whoever passes the check under the gate finds that the set in force refuses no longer. */
  lemma StarterIsNotRefused(s: State, step: Step)
    requires GateExclusive(s) && Enabled(s, step)
    requires Holder(s).Starting? ==> RefusesUntil(s.keys.expiresAt, s.refresh.lastCompleted) <= s.now
    ensures var s' := Apply(s, step);
      Holder(s').Starting? ==> RefusesUntil(s'.keys.expiresAt, s'.refresh.lastCompleted) <= s'.now
  {
    StepKeepsGate(s, step);
    var s' := Apply(s, step);
    if step.Write? || step.Complete? {
      assert s.gate == Some(step.i) && Holder(s') == s'.callers[step.i].at;
    } else {
      OnlyTwoWritesTouchCache(s, step);
    }
  }

  lemma StepKeepsSparedUntil(s: State, step: Step, until: int, from: nat)
    requires GateExclusive(s) && Enabled(s, step) && SparedUntil(s, until, from)
    requires Holder(s).Starting? ==> RefusesUntil(s.keys.expiresAt, s.refresh.lastCompleted) <= s.now
    ensures SparedUntil(Apply(s, step), until, from)
  {
    var s' := Apply(s, step);
    StepKeepsGate(s, step);
    assert !step.Tick? && HoldsGate(s.callers[step.i].at) ==> Holder(s) == s.callers[step.i].at;
    if !step.Write? && !step.Complete? && !step.Begin? {
      OnlyTwoWritesTouchCache(s, step);
      OnlyBeginBegins(s, step);
    }
  }

  /** Apart from `Begin`, no step begins a fetch or changes when one began. */
  lemma OnlyBeginBegins(s: State, step: Step)
    requires GateExclusive(s) && Enabled(s, step) && !step.Begin?
    ensures var s' := Apply(s, step);
      && |s'.attempts| == |s.attempts|
      && (forall j | 0 <= j < |s.attempts| :: s'.attempts[j].begin == s.attempts[j].begin)
      && (Refreshing(Holder(s')) ==> Refreshing(Holder(s)))
  {
    StepKeepsGate(s, step);
  }

  lemma StepKeepsProviderSpared(s: State, step: Step)
    requires GateExclusive(s) && CacheCoherent(s) && ProviderSpared(s) && Enabled(s, step)
    ensures ProviderSpared(Apply(s, step))
  {
    hide SparedUntil, RefusesUntil;
    var s' := Apply(s, step);
    StarterIsNotRefused(s, step);
    FirstInstallStays(s, step);
    StepKeepsSparedUntil(s, step, RefusesUntil(s.installs[0].jwks.expiresAt, s.installs[0].completed.value), 0);
    forall i | 0 <= i < |s'.attempts| && s'.attempts[i].outcome.Succeeded?
      ensures WasInstalled(s'.attempts[i].outcome, s'.installs)
      ensures SparedUntil(s', RefusesUntil(s'.attempts[i].outcome.expiresAt, s'.attempts[i].outcome.end), i + 1)
    {
      if i < |s.attempts| && s'.attempts[i].outcome == s.attempts[i].outcome {
        InstalledStays(s, step, s.attempts[i].outcome);
        StepKeepsSparedUntil(
          s, step, RefusesUntil(s.attempts[i].outcome.expiresAt, s.attempts[i].outcome.end), i + 1);
      } else {
        CompletedSetIsInForce(s, step, i);
      }
    }
  }

  lemma FirstInstallStays(s: State, step: Step)
    requires GateExclusive(s) && CacheCoherent(s) && Enabled(s, step)
    ensures Apply(s, step).installs != []
    ensures s.installs[0].completed.Some? ==> Apply(s, step).installs[0] == s.installs[0]
  {
    assert !step.Tick? && HoldsGate(s.callers[step.i].at) ==> Holder(s) == s.callers[step.i].at;
  }

  lemma InstalledStays(s: State, step: Step, outcome: Outcome)
    requires GateExclusive(s) && CacheCoherent(s) && Enabled(s, step)
    requires outcome.Succeeded? && WasInstalled(outcome, s.installs)
    ensures WasInstalled(outcome, Apply(s, step).installs)
  {
    assert !step.Tick? && HoldsGate(s.callers[step.i].at) ==> Holder(s) == s.callers[step.i].at;
    var k :| 0 <= k < |s.installs| && s.installs[k].completed == Some(outcome.end)
             && s.installs[k].jwks.expiresAt == outcome.expiresAt;
    assert Apply(s, step).installs[k] == s.installs[k];
  }

  /** A fetch that has just succeeded is the last one, and its set is in force. */
  lemma CompletedSetIsInForce(s: State, step: Step, i: nat)
    requires GateExclusive(s) && CacheCoherent(s) && Enabled(s, step) && i < |Apply(s, step).attempts|
    requires Apply(s, step).attempts[i].outcome.Succeeded?
    requires i < |s.attempts| ==> Apply(s, step).attempts[i].outcome != s.attempts[i].outcome
    ensures var s', outcome := Apply(s, step), Apply(s, step).attempts[i].outcome;
      && WasInstalled(outcome, s'.installs)
      && SparedUntil(s', RefusesUntil(outcome.expiresAt, outcome.end), i + 1)
  {
    assert step.Complete?;
    assert s.gate == Some(step.i) && Holder(s) == s.callers[step.i].at;
    var s' := Apply(s, step);
    assert Holder(s') == Releasing;
    assert s'.installs[|s'.installs| - 1] == Install(Holder(s).jwks, Some(s.now));
  }

  lemma StepKeepsCoherent(s: State, step: Step)
    requires Coherent(s) && Enabled(s, step)
    ensures Coherent(Apply(s, step))
  {
    StepKeepsGate(s, step);
    StepKeepsBackoff(s, step);
    StepKeepsSpacing(s, step);
    StepKeepsCache(s, step);
    StepKeepsHandouts(s, step);
    StepKeepsProviderSpared(s, step);
  }

  // ----- runs -----

  predicate Legal(s: State, steps: seq<Step>)
    decreases |steps|
  {
    steps == [] || (Enabled(s, steps[0]) && Legal(Apply(s, steps[0]), steps[1..]))
  }

  function Execute(s: State, steps: seq<Step>): State
    requires Legal(s, steps)
    decreases |steps|
  {
    if steps == [] then s else Execute(Apply(s, steps[0]), steps[1..])
  }

  /** Some run leads here from a start with a discovered key set. */
  ghost predicate Reachable(s: State) {
    exists start: int, discovered: CachedJwks, kids: seq<string>, steps: seq<Step> ::
      ReachedBy(start, discovered, kids, steps, s)
  }

  ghost predicate ReachedBy(start: int, discovered: CachedJwks, kids: seq<string>, steps: seq<Step>, s: State) {
    && ValidJwks(discovered) && discovered.compiledAt <= start
    && Legal(Init(start, discovered, kids), steps) && Execute(Init(start, discovered, kids), steps) == s
  }

  lemma {:induction false} RunStaysCoherent(s: State, steps: seq<Step>)
    requires Coherent(s) && Legal(s, steps)
    ensures Coherent(Execute(s, steps))
    decreases |steps|
  {
    hide Coherent, Enabled, Apply;
    if steps != [] {
      StepKeepsCoherent(s, steps[0]);
      RunStaysCoherent(Apply(s, steps[0]), steps[1..]);
    }
  }

  lemma ReachableIsCoherent(s: State)
    requires Reachable(s)
    ensures Coherent(s)
  {
    hide Coherent, Legal, Execute, Init;
    var start, discovered, kids, steps :| ReachedBy(start, discovered, kids, steps, s);
    InitCoherent(start, discovered, kids);
    RunStaysCoherent(Init(start, discovered, kids), steps);
  }

  // ----- refresh spacing -----

  function Completed(attempts: seq<Attempt>): nat {
    if attempts == [] then 0
    else Completed(attempts[..|attempts| - 1]) + (if attempts[|attempts| - 1].outcome.Abandoned? then 0 else 1)
  }

  /** One fetch at most is in flight; after a failed fetch nothing begins for thirty seconds; after a successful
      one nothing begins until the set it installed has expired or is thirty seconds old; and any two fetches that
      were not cancelled begin at least a second apart. */
  lemma FetchesAreSpaced(s: State, i: nat, j: nat)
    requires Reachable(s) && i < j < |s.attempts|
    ensures !s.attempts[i].outcome.InFlight?
    ensures s.attempts[i].outcome.Failed? ==> s.attempts[j].begin >= s.attempts[i].begin + JWKS_REFRESH_COOLDOWN
    ensures s.attempts[i].outcome.Succeeded? ==>
      var end, expiresAt := s.attempts[i].outcome.end, s.attempts[i].outcome.expiresAt;
      && WasInstalled(s.attempts[i].outcome, s.installs)
      && s.attempts[j].begin >= end + JWKS_REFRESH_COALESCE_WINDOW
      && (s.attempts[j].begin >= expiresAt || s.attempts[j].begin >= end + JWKS_REFRESH_COOLDOWN)
    ensures !s.attempts[i].outcome.Abandoned? ==> s.attempts[j].begin >= s.attempts[i].begin + SECOND
  {
    hide Reachable, WasInstalled;
    ReachableIsCoherent(s);
    assert Spaced(s.attempts[i], s.attempts[j]);
  }

  /** No fetch at all begins until the discovered set has expired or is thirty seconds old. */
  lemma DiscoveryHoldsFetchesBack(start: int, discovered: CachedJwks, kids: seq<string>, steps: seq<Step>, j: nat)
    requires ValidJwks(discovered) && discovered.compiledAt <= start && Legal(Init(start, discovered, kids), steps)
    requires j < |Execute(Init(start, discovered, kids), steps).attempts|
    ensures var begin := Execute(Init(start, discovered, kids), steps).attempts[j].begin;
      begin >= discovered.expiresAt || begin >= start + JWKS_REFRESH_COOLDOWN
  {
    InitCoherent(start, discovered, kids);
    RunStaysCoherent(Init(start, discovered, kids), steps);
    FirstInstallNeverChanges(Init(start, discovered, kids), steps);
  }

  lemma {:induction false} FirstInstallNeverChanges(s: State, steps: seq<Step>)
    requires Coherent(s) && Legal(s, steps)
    ensures s.installs != [] && Execute(s, steps).installs != []
    ensures Execute(s, steps).installs[0] == s.installs[0]
    decreases |steps|
  {
    hide Enabled, Apply;
    if steps != [] {
      FirstInstallStays(s, steps[0]);
      StepKeepsCoherent(s, steps[0]);
      FirstInstallNeverChanges(Apply(s, steps[0]), steps[1..]);
    }
  }

  /** Every fetch in `[i, m)` that was not cancelled holds fetch `k` back by a second. */
  lemma {:induction false} LaterFetchWaits(attempts: seq<Attempt>, i: nat, m: nat, k: nat)
    requires i <= m <= k < |attempts|
    requires forall a, b | 0 <= a < b < |attempts| ::
      attempts[b].begin >= attempts[a].begin + (if attempts[a].outcome.Abandoned? then 0 else SECOND)
    ensures attempts[k].begin - attempts[i].begin >= Completed(attempts[i..m]) * SECOND
    decreases m
  {
    if m > i {
      assert attempts[i..m][..m - 1 - i] == attempts[i..m - 1];
      LaterFetchWaits(attempts, i, m - 1, m - 1);
    }
  }

  /** A window of `t` nanoseconds holds at most one fetch per whole second, and one more, not counting
      those that were cancelled. */
  lemma WindowHoldsFewFetches(s: State, i: nat, j: nat, t: nat)
    requires Reachable(s) && i <= j < |s.attempts| && s.attempts[j].begin - s.attempts[i].begin <= t
    ensures Completed(s.attempts[i..j + 1]) <= t / SECOND + 1
  {
    hide Reachable;
    ReachableIsCoherent(s);
    forall a, b | 0 <= a < b < |s.attempts|
      ensures s.attempts[b].begin >= s.attempts[a].begin + (if s.attempts[a].outcome.Abandoned? then 0 else SECOND)
    {
      assert Spaced(s.attempts[a], s.attempts[b]);
    }
    LaterFetchWaits(s.attempts, i, j, j);
    assert s.attempts[i..j + 1][..j - i] == s.attempts[i..j];
  }

  // ----- freshness -----

  /** Every key handed out is the entry for its id in an installed set, and was handed out while that set
      was unexpired, within a second of its refresh, or by the caller that had just fetched it. */
  lemma HandedKeysAreFresh(s: State, k: nat)
    requires Reachable(s) && k < |s.handouts|
    ensures var h := s.handouts[k];
      0 <= h.install < |s.installs| &&
      var install := s.installs[h.install];
      && h.kid in install.jwks.keys && h.key == install.jwks.keys[h.kid]
      && (|| h.at < install.jwks.expiresAt <= install.jwks.compiledAt + MAX_JWKS_TTL
          || (install.completed.Some? && install.completed.value <= h.at < install.completed.value + SECOND))
      && (install.completed.Some? ==> h.at < install.completed.value + MAX_JWKS_TTL)
  {
    hide Reachable;
    ReachableIsCoherent(s);
    assert Justified(s.handouts[k], s.installs);
  }

  // ----- cancellation -----

  /** Caller `i` was cancelled in `s` during its fetch and holds the gate still: it is about to drop its attempt,
      or has dropped it and with it its backoff; otherwise keys and refresh state are those of `s`. */
  ghost predicate Unwound(s: State, s': State, i: nat) {
    && i < |s'.callers| && s'.gate == Some(i) && GateExclusive(s')
    && s'.keys == s.keys && s'.installs == s.installs && s.handouts <= s'.handouts
    && s'.attempts == EndAttempt(s.attempts, Abandoned)
    && match s'.callers[i].at
       case Unwinding(retryAfter) => s.refresh.retryAfter == Some(retryAfter) && s'.refresh == s.refresh
       case Releasing => s'.refresh == s.refresh.(retryAfter := None)
       case _ => false
  }

  lemma StepKeepsUnwound(s: State, s': State, i: nat, step: Step)
    requires Unwound(s, s', i) && Enabled(s', step) && step != Release(i)
    ensures Unwound(s, Apply(s', step), i)
    ensures Apply(s', step).callers[i].at.Releasing? <==> s'.callers[i].at.Releasing? || step == DropArmedAttempt(i)
  {
    StepKeepsGate(s', step);
  }

  lemma {:induction false} RunKeepsUnwound(s: State, s': State, i: nat, steps: seq<Step>)
    requires Unwound(s, s', i) && Legal(s', steps) && Release(i) !in steps
    ensures Unwound(s, Execute(s', steps), i)
    ensures Execute(s', steps).callers[i].at.Releasing? <==>
              s'.callers[i].at.Releasing? || DropArmedAttempt(i) in steps
    decreases |steps|
  {
    hide Unwound, Enabled, Apply;
    if steps != [] {
      StepKeepsUnwound(s, s', i, steps[0]);
      RunKeepsUnwound(s, Apply(s', steps[0]), i, steps[1..]);
    }
  }

  /** A caller that has begun a fetch is cancelled, and others look up, wait, time out and are cancelled before it
      has released the gate: nobody passes the gate, keys and refresh state stay as they were but for the backoff,
      the backoff is gone when the gate is free, and the caller can always go on. */
  lemma CancellationIsTransparent(s: State, i: nat, steps: seq<Step>)
    requires Reachable(s) && i < |s.callers| && (s.callers[i].at.Fetching? || s.callers[i].at.Fetched?)
    requires Legal(Apply(s, Cancel(i)), steps) && Release(i) !in steps
    ensures var s' := Execute(Apply(s, Cancel(i)), steps);
      && Unwound(s, s', i) && i < |s'.callers|
      && (if DropArmedAttempt(i) in steps then Enabled(s', Release(i)) else Enabled(s', DropArmedAttempt(i)))
      && (Enabled(s', Release(i)) ==>
            var free := Apply(s', Release(i));
            && free.gate.None? && free.refresh == s.refresh.(retryAfter := None)
            && free.keys == s.keys && free.installs == s.installs && StateOf(free.installs, free.refresh))
  {
    hide Reachable;
    ReachableIsCoherent(s);
    CancelBeginsUnwinding(s, i);
    hide Apply;
    RunKeepsUnwound(s, Apply(s, Cancel(i)), i, steps);
    ReleaseFrees(s, Execute(Apply(s, Cancel(i)), steps), i);
  }

  lemma CancelBeginsUnwinding(s: State, i: nat)
    requires Coherent(s) && i < |s.callers| && (s.callers[i].at.Fetching? || s.callers[i].at.Fetched?)
    ensures Enabled(s, Cancel(i)) && Unwound(s, Apply(s, Cancel(i)), i)
    ensures Apply(s, Cancel(i)).callers[i].at.Unwinding? && StateOf(s.installs, s.refresh)
  {
    StepKeepsGate(s, Cancel(i));
    assert s.gate == Some(i) && Holder(s) == s.callers[i].at;
  }

  lemma ReleaseFrees(s: State, s': State, i: nat)
    requires Unwound(s, s', i) && StateOf(s.installs, s.refresh)
    ensures s'.callers[i].at.Unwinding? ==> Enabled(s', DropArmedAttempt(i)) && !Enabled(s', Release(i))
    ensures s'.callers[i].at.Releasing? ==>
      && Enabled(s', Release(i))
      && var free := Apply(s', Release(i));
         && free.gate.None? && free.refresh == s.refresh.(retryAfter := None)
         && free.keys == s.keys && free.installs == s.installs && StateOf(free.installs, free.refresh)
  {
  }

  /** No live backoff is overwritten when an attempt begins, so none is lost when it is dropped. */
  lemma AttemptsOverwriteNoLiveBackoff(s: State, i: nat)
    requires Reachable(s) && Enabled(s, Begin(i))
    ensures !Before(s.now, s.refresh.retryAfter) && !Before(s.now, s.refresh.coalesceUntil)
  {
    hide Reachable;
    ReachableIsCoherent(s);
    assert Holder(s) == s.callers[i].at;
  }

  /** Whenever the gate is free, so in particular after any cancellation, the backoff in force is exactly
      that of the last begun fetch if it failed, and otherwise there is none; and the keys and the refresh
      state are those of one and the same completed refresh. */
  lemma FreeGateShowsWholeRefresh(s: State)
    requires Reachable(s) && s.gate.None?
    ensures var n := |s.attempts|;
      s.refresh.retryAfter == if n > 0 && s.attempts[n - 1].outcome.Failed?
                              then Some(s.attempts[n - 1].begin + JWKS_REFRESH_COOLDOWN) else None
    ensures s.installs != [] && s.keys == s.installs[|s.installs| - 1].jwks && StateOf(s.installs, s.refresh)
  {
    hide Reachable;
    ReachableIsCoherent(s);
    assert Holder(s) == Done;
    assert BackoffAccounted(s) && CacheCoherent(s);
  }

  // ----- the authenticator -----

  /** The shared cells behind the authenticator. Each critical section is one method; `s` and `i` name, for the
      contracts, any state of the protocol that the cells show and the caller that makes the access. */
  class OidcAuthenticator {
    var keys: CachedJwks
    var refreshState: RefreshState

    constructor (initial: CachedJwks, refreshCompleted: int)
      ensures forall kids: seq<string> :: Shows(Init(refreshCompleted, initial, kids))
    {
      keys := initial;
      refreshState := RefreshState(refreshCompleted, None, None);
    }

    ghost predicate Shows(s: State)
      reads this
    {
      keys == s.keys && refreshState == s.refresh
    }

    method CheckUnderGate(kid: string, now: int) returns (decision: GateDecision)
      ensures decision == DecideUnderGate(keys, refreshState, kid, now)
      ensures decision.Fetch? <==> NeedsFetch(keys, refreshState, kid, now)
      ensures decision.Answer? ==> AnswersFromCache(keys, refreshState, kid, now, decision.result)
    {
      FetchesExactlyWhenNeeded(keys, refreshState, kid, now);
      if now < keys.expiresAt {
        if kid in keys.keys {
          return Answer(Success(keys.keys[kid]), false);
        }
        if now - refreshState.lastCompleted < JWKS_REFRESH_COOLDOWN {
          return Answer(Failure(UnknownKeyId), false);
        }
      }
      if refreshState.coalesceUntil.Some? && now < refreshState.coalesceUntil.value {
        var found := if kid in keys.keys then Success(keys.keys[kid]) else Failure(UnknownKeyId);
        return Answer(found, true);
      }
      if refreshState.retryAfter.Some? && now < refreshState.retryAfter.value {
        return Answer(Failure(JwksRefreshBackoff), false);
      }
      return Fetch;
    }

    method Begin(now: int, ghost s: State, ghost i: nat) returns (attempt: RefreshAttempt)
      requires Shows(s) && Enabled(s, Step.Begin(i)) && now == s.now
      modifies this`refreshState
      ensures Shows(Apply(s, Step.Begin(i))) && Before(now, refreshState.retryAfter)
      ensures fresh(attempt) && attempt.owner == this && attempt.clearOnDrop
      ensures Apply(s, Step.Begin(i)).callers[i].at == Fetching(attempt.retryAfter)
    {
      var retryAfter := now + JWKS_REFRESH_COOLDOWN;
      refreshState := refreshState.(retryAfter := Some(retryAfter));
      attempt := new RefreshAttempt(this, retryAfter);
    }

    method Install(jwks: CachedJwks, ghost s: State, ghost i: nat)
      requires Shows(s) && Enabled(s, Write(i)) && jwks == s.callers[i].at.jwks
      modifies this`keys
      ensures Shows(Apply(s, Write(i)))
    {
      keys := jwks;
    }

    method Complete(now: int, ghost s: State, ghost i: nat)
      requires Shows(s) && Enabled(s, Step.Complete(i)) && now == s.now
      modifies this`refreshState
      ensures Shows(Apply(s, Step.Complete(i)))
      ensures Before(now, refreshState.coalesceUntil) && !Before(now, refreshState.retryAfter)
    {
      refreshState := refreshState.(lastCompleted := now);
      refreshState := refreshState.(retryAfter := None);
      refreshState := refreshState.(coalesceUntil := Some(now + JWKS_REFRESH_COALESCE_WINDOW));
    }

    /** How a lookup that passes the gate at `now` ends: with the key from the fetched set, which is installed then;
        with the error of the fetch, which leaves a backoff; or cancelled, without a trace but for the backoff of
        an earlier fetch. */
    ghost predicate Ends(
        before: CachedJwks, refresh: RefreshState, kid: string, now: int, waits: Waits, ending: Ending,
        result: Option<Result<DecodingKey, AuthError>>)
      reads this
    {
      var begun := now + waits.toBegin;
      var returned := begun + waits.fetching;
      var completed := returned + waits.toWrite + waits.toComplete;
      match ending
      case Fails(error) =>
        && result == Some(Failure(error)) && keys == before
        && refreshState == refresh.(retryAfter := Some(begun + JWKS_REFRESH_COOLDOWN))
      case Returns(fetched, ttl) =>
        && result == Some(if kid in fetched then Success(fetched[kid]) else Failure(UnknownKeyId))
        && keys == CachedJwks(fetched, returned, returned + ttl)
        && refreshState == RefreshState(completed, None, Some(completed + JWKS_REFRESH_COALESCE_WINDOW))
      case _ => result.None? && keys == before && refreshState == refresh.(retryAfter := None)
    }

    /** A whole lookup by caller `i` that finds the gate free and meets nobody on its way is a run of the protocol,
        whatever the cells hold, however long it waits and however its fetch ends. It fetches exactly when it has
        to; what it is told, and what it leaves in the cells, follows. */
    method VerificationKey(kid: string, start: int, waits: Waits, ending: Ending, ghost s: State, ghost i: nat)
      returns (result: Option<Result<DecodingKey, AuthError>>, ghost steps: seq<Step>)
      requires Shows(s) && s.gate.None? && i < |s.callers| && s.callers[i] == Caller(kid, FastPath) && start == s.now
      requires Plausible(ending)
      modifies this
      ensures Legal(s, steps) && Shows(Execute(s, steps)) && Finished(s, Execute(s, steps), i)
      ensures HandsOut(s, Execute(s, steps), kid, result)
      ensures Step.Begin(i) in steps <==>
        && (kid in old(keys).keys ==> start >= old(keys).expiresAt)
        && NeedsFetch(old(keys), old(refreshState), kid, start + waits.forGate)
      ensures if Step.Begin(i) in steps
        then Ends(old(keys), old(refreshState), kid, start + waits.forGate, waits, ending, result)
        else
          && result.Some? && keys == old(keys) && refreshState == old(refreshState)
          && if start < keys.expiresAt && kid in keys.keys then result.value == Success(keys.keys[kid])
             else AnswersFromCache(keys, refreshState, kid, start + waits.forGate, result.value)
    {
      hide Legal, Execute, NeedsFetch, AnswersFromCache;
      steps := [];
      EmptyRun(s);
      RunExtends(s, steps, ReadFast(i));
      steps := steps + [ReadFast(i)];
      if start < keys.expiresAt && kid in keys.keys {
        return Some(Success(keys.keys[kid])), steps;
      }
      RunExtends(s, steps, Tick(waits.forGate));
      steps := steps + [Tick(waits.forGate)];
      RunExtends(s, steps, AcquireGate(i));
      steps := steps + [AcquireGate(i)];
      result, steps := PassGate(kid, start + waits.forGate, waits, ending, s, steps, i);
    }

    /** The part of a lookup that holds the gate. */
    method PassGate(
        kid: string, now: int, waits: Waits, ending: Ending, ghost s: State, ghost done: seq<Step>, ghost i: nat)
      returns (result: Option<Result<DecodingKey, AuthError>>, ghost steps: seq<Step>)
      requires Legal(s, done) && Shows(Execute(s, done)) && Execute(s, done).now == now && Step.Begin(i) !in done
      requires Under(s, Execute(s, done), i, Caller(kid, GateCheck))
      requires Plausible(ending)
      modifies this
      ensures Legal(s, steps) && Shows(Execute(s, steps)) && Finished(s, Execute(s, steps), i)
      ensures HandsOut(s, Execute(s, steps), kid, result)
      ensures Step.Begin(i) in steps <==> NeedsFetch(old(keys), old(refreshState), kid, now)
      ensures if Step.Begin(i) in steps
        then Ends(old(keys), old(refreshState), kid, now, waits, ending, result)
        else
          && keys == old(keys) && refreshState == old(refreshState)
          && result.Some? && AnswersFromCache(keys, refreshState, kid, now, result.value)
    {
      hide Legal, Execute, NeedsFetch, AnswersFromCache;
      var decision := CheckUnderGate(kid, now);
      RunExtends(s, done, CheckGate(i));
      steps := done + [CheckGate(i)];
      if decision.Answer? {
        RunExtends(s, steps, Release(i));
        return Some(decision.result), steps + [Release(i)];
      }
      result, steps := Refresh(kid, now, waits, ending, s, steps, i);
    }

    method Refresh(
        kid: string, now: int, waits: Waits, ending: Ending, ghost s: State, ghost done: seq<Step>, ghost i: nat)
      returns (result: Option<Result<DecodingKey, AuthError>>, ghost steps: seq<Step>)
      requires Legal(s, done) && Shows(Execute(s, done)) && Execute(s, done).now == now
      requires Under(s, Execute(s, done), i, Caller(kid, Starting))
      requires Plausible(ending)
      modifies this
      ensures Legal(s, steps) && Shows(Execute(s, steps)) && Finished(s, Execute(s, steps), i)
      ensures HandsOut(s, Execute(s, steps), kid, result)
      ensures Step.Begin(i) in steps && Ends(old(keys), old(refreshState), kid, now, waits, ending, result)
    {
      hide Legal, Execute;
      RunExtends(s, done, Tick(waits.toBegin));
      steps := done + [Tick(waits.toBegin)];
      var attempt := Begin(now + waits.toBegin, Execute(s, steps), i);
      RunExtends(s, steps, Step.Begin(i));
      steps := steps + [Step.Begin(i)];
      RunExtends(s, steps, Tick(waits.fetching));
      steps := steps + [Tick(waits.fetching)];
      ghost var begun := steps;
      assert begun[|done| + 1] == Step.Begin(i);
      match ending {
        case Fails(error) =>
          steps := Fail(attempt, s, steps, i);
          result := Some(Failure(error));
        case CancelledInFetch =>
          steps := Abandon(attempt, Execute(s, steps).callers[i].at, s, steps, i);
          result := None;
        case CancelledBeforeWrite(fetched, ttl) =>
          RunExtends(s, steps, FetchReturns(i, fetched, ttl));
          steps := steps + [FetchReturns(i, fetched, ttl)];
          steps := Abandon(attempt, Execute(s, steps).callers[i].at, s, steps, i);
          result := None;
        case Returns(fetched, ttl) =>
          var at := now + waits.toBegin + waits.fetching;
          RunExtends(s, steps, FetchReturns(i, fetched, ttl));
          steps := steps + [FetchReturns(i, fetched, ttl)];
          steps := Conclude(kid, CachedJwks(fetched, at, at + ttl), at, waits, attempt, s, steps, i);
          result := Some(if kid in fetched then Success(fetched[kid]) else Failure(UnknownKeyId));
      }
      assert begun <= steps && steps[|done| + 1] == Step.Begin(i);
    }

    /** The backoff is retained. */
    method Fail(attempt: RefreshAttempt, ghost s: State, ghost done: seq<Step>, ghost i: nat)
      returns (ghost steps: seq<Step>)
      requires Legal(s, done) && Shows(Execute(s, done))
      requires i < |s.callers| && Under(s, Execute(s, done), i, s.callers[i].(at := Fetching(attempt.retryAfter)))
      requires attempt.owner == this
      modifies this, attempt
      ensures Legal(s, steps) && Shows(Execute(s, steps)) && Finished(s, Execute(s, steps), i)
      ensures done <= steps && Execute(s, steps).handouts == s.handouts
      ensures keys == old(keys) && refreshState == old(refreshState)
    {
      hide Legal, Execute;
      RunExtends(s, done, FetchFails(i));
      steps := done + [FetchFails(i)];
      attempt.Disarm();
      attempt.Drop(Execute(s, steps), i);
      RunExtends(s, steps, Release(i));
      steps := steps + [Release(i)];
    }

    /** The future is dropped: first the armed attempt, then the permit. */
    method Abandon(attempt: RefreshAttempt, ghost at: Point, ghost s: State, ghost done: seq<Step>, ghost i: nat)
      returns (ghost steps: seq<Step>)
      requires Legal(s, done) && Shows(Execute(s, done))
      requires i < |s.callers| && Under(s, Execute(s, done), i, s.callers[i].(at := at))
      requires (at.Fetching? || at.Fetched?) && at.retryAfter == attempt.retryAfter
      requires refreshState.retryAfter == Some(attempt.retryAfter)
      requires attempt.owner == this && attempt.clearOnDrop
      modifies this
      ensures Legal(s, steps) && Shows(Execute(s, steps)) && Finished(s, Execute(s, steps), i)
      ensures done <= steps && Execute(s, steps).handouts == s.handouts
      ensures keys == old(keys) && refreshState == old(refreshState).(retryAfter := None)
    {
      hide Legal, Execute;
      RunExtends(s, done, Cancel(i));
      steps := done + [Cancel(i)];
      attempt.Drop(Execute(s, steps), i);
      RunExtends(s, steps, DropArmedAttempt(i));
      steps := steps + [DropArmedAttempt(i)];
      RunExtends(s, steps, Release(i));
      steps := steps + [Release(i)];
    }

    /** The two writes after a successful fetch. */
    method Conclude(kid: string, jwks: CachedJwks, now: int, waits: Waits, attempt: RefreshAttempt,
                    ghost s: State, ghost done: seq<Step>, ghost i: nat)
      returns (ghost steps: seq<Step>)
      requires Legal(s, done) && Shows(Execute(s, done)) && Execute(s, done).now == now
      requires Under(s, Execute(s, done), i, Caller(kid, Fetched(attempt.retryAfter, jwks)))
      requires attempt.owner == this
      modifies this, attempt
      ensures Legal(s, steps) && Shows(Execute(s, steps)) && Finished(s, Execute(s, steps), i)
      ensures HandsOut(s, Execute(s, steps), kid,
                       Some(if kid in jwks.keys then Success(jwks.keys[kid]) else Failure(UnknownKeyId)))
      ensures done <= steps && keys == jwks
      ensures var completed := now + waits.toWrite + waits.toComplete;
        refreshState == RefreshState(completed, None, Some(completed + JWKS_REFRESH_COALESCE_WINDOW))
    {
      hide Legal, Execute;
      RunExtends(s, done, Tick(waits.toWrite));
      steps := done + [Tick(waits.toWrite)];
      Install(jwks, Execute(s, steps), i);
      RunExtends(s, steps, Write(i));
      steps := steps + [Write(i)];
      RunExtends(s, steps, Tick(waits.toComplete));
      steps := steps + [Tick(waits.toComplete)];
      Complete(now + waits.toWrite + waits.toComplete, Execute(s, steps), i);
      RunExtends(s, steps, Step.Complete(i));
      steps := steps + [Step.Complete(i)];
      attempt.Disarm();
      attempt.Drop(Execute(s, steps), i);
      RunExtends(s, steps, Release(i));
      steps := steps + [Release(i)];
    }
  }

  class RefreshAttempt {
    const owner: OidcAuthenticator
    const retryAfter: int
    var clearOnDrop: bool

    constructor (owner: OidcAuthenticator, retryAfter: int)
      ensures this.owner == owner && this.retryAfter == retryAfter && clearOnDrop
    {
      this.owner := owner;
      this.retryAfter := retryAfter;
      clearOnDrop := true;
    }

    /** `retain_backoff` and `complete` both disarm the attempt and then drop it. */
    method Disarm()
      modifies this
      ensures !clearOnDrop
    {
      clearOnDrop := false;
    }

    /** Dropping an armed attempt is the step of its caller that unwinds; a disarmed one changes nothing. */
    method Drop(ghost s: State, ghost i: nat)
      requires clearOnDrop ==>
        owner.Shows(s) && Enabled(s, DropArmedAttempt(i)) && s.callers[i].at == Unwinding(retryAfter)
      modifies owner`refreshState
      ensures clearOnDrop ==>
        owner.Shows(Apply(s, DropArmedAttempt(i))) && owner.refreshState.retryAfter != Some(retryAfter)
      ensures !clearOnDrop || old(owner.refreshState).retryAfter != Some(retryAfter) ==>
        owner.refreshState == old(owner.refreshState)
    {
      if !clearOnDrop {
        return;
      }
      if owner.refreshState.retryAfter == Some(retryAfter) {
        owner.refreshState := owner.refreshState.(retryAfter := None);
      }
    }
  }

  /** How long a call waits: for the gate, then until its fetch begins, and so on. */
  datatype Waits = Waits(forGate: nat, toBegin: nat, fetching: nat, toWrite: nat, toComplete: nat)

  /** How the fetch of a call ends. */
  datatype Ending =
    | Fails(error: AuthError)
    | Returns(keys: map<string, DecodingKey>, ttl: nat)
    | CancelledInFetch
    | CancelledBeforeWrite(keys: map<string, DecodingKey>, ttl: nat)

  predicate Cancelled(ending: Ending) {
    ending.CancelledInFetch? || ending.CancelledBeforeWrite?
  }

  predicate Plausible(ending: Ending) {
    ending.Returns? || ending.CancelledBeforeWrite? ==> ending.ttl <= MAX_JWKS_TTL
  }

  /** Caller `i` of `s` has come to hold the gate, and nothing else has moved or been handed out. */
  predicate Under(s: State, s': State, i: nat, caller: Caller) {
    && i < |s.callers| && s.callers[i].kid == caller.kid
    && s'.gate == Some(i) && s'.callers == s.callers[i := caller] && s'.handouts == s.handouts
  }

  predicate Finished(s: State, s': State, i: nat) {
    i < |s.callers| && s'.gate.None? && s'.callers == s.callers[i := s.callers[i].(at := Done)]
  }

  /** A key is handed out exactly when the call succeeds, and it is the one returned. */
  predicate HandsOut(s: State, s': State, kid: string, result: Option<Result<DecodingKey, AuthError>>) {
    if result.Some? && result.value.Success? then
      && |s'.handouts| == |s.handouts| + 1 && s'.handouts[..|s.handouts|] == s.handouts
      && s'.handouts[|s.handouts|].kid == kid && s'.handouts[|s.handouts|].key == result.value.value
    else s'.handouts == s.handouts
  }

  lemma EmptyRun(s: State)
    ensures Legal(s, []) && Execute(s, []) == s
  {
  }

  lemma {:induction false} RunExtends(s: State, steps: seq<Step>, step: Step)
    requires Legal(s, steps) && Enabled(Execute(s, steps), step)
    ensures Legal(s, steps + [step]) && Execute(s, steps + [step]) == Apply(Execute(s, steps), step)
    decreases |steps|
  {
    hide Enabled, Apply;
    if steps == [] {
      assert [] + [step] == [step] && [step][1..] == [];
    } else {
      assert (steps + [step])[1..] == steps[1..] + [step];
      RunExtends(Apply(s, steps[0]), steps[1..], step);
    }
  }
}
