/** The session use case (src/senasa_pipeline/application/use_cases/ensure_senasa_session.py):
    reuse the cached SENASA session after one successful probe, otherwise obtain an AFIP
    token/sign, log in, validate with a bounded retry, and either save the new session
    or mark the cache inactive. The clock is a parameter (`now`, integer seconds, read
    once); the pauses of `time.sleep` are recorded rather than taken. The provider and
    the consumer are scripted: the script says what each call returns or raises. */
module EnsureSession {
  import opened Wrappers
  import opened SessionStore
  import AuthFakes

  datatype Status = AlreadyActive | Refreshed | Error

  datatype EnsureSessionResult = EnsureSessionResult(status: Status, expiresAt: Option<int>, message: string)

  const CachedMessage := "Valid session from store"
  const RefreshedMessage := "Session refreshed via AFIP token/sign"
  const ValidationFailedMessage := "Post-login validation failed after retries"
  const DefaultTtlHours := 12
  const MaxRetries := 3
  const InitialDelay: real := 1.0
  const BackoffFactor: real := 1.5

  /** `f"Login failed: {e}"` */
  function LoginFailedMessage(e: string): string {
    "Login failed: " + e
  }

  /** One `validate_session` call: true, false, or an exception with its message. */
  datatype Probe = Valid | Invalid | Raises(message: string)

  /** `cookies and expires_at and expires_at > now and is_active` */
  predicate SessionExists(s: SessionRecord, now: int) {
    s.cookies != map[] && s.expiresAt.Some? && s.expiresAt.value > now && s.isActive
  }

  /** The pause before retry number i + 1: the initial delay, multiplied by 1.5 after
      each pause. */
  function Backoff(delay: real, i: nat): real {
    if i == 0 then delay else Backoff(delay, i - 1) * BackoffFactor
  }

  /** The offset, below n, of the first probe from index `start` on that answers true. */
  function FirstValid(probe: nat -> Probe, start: nat, n: int): (r: Option<nat>)
    ensures r.Some? ==> r.value < n && probe(start + r.value) == Valid
    ensures r.Some? ==> forall j :: start <= j < start + r.value ==> probe(j) != Valid
    ensures r.None? <==> forall j :: start <= j < start + n ==> probe(j) != Valid
    decreases if n > 0 then n else 0
  {
    if n <= 0 then None
    else if probe(start) == Valid then Some(0)
    else
      match FirstValid(probe, start + 1, n - 1)
      case None => None
      case Some(k) => Some(k + 1)
  }

  /** The number of probes `_validate_with_retry` makes. */
  function RetryProbes(probe: nat -> Probe, start: nat, maxRetries: int): nat {
    match FirstValid(probe, start, maxRetries)
    case Some(k) => k + 1
    case None => if maxRetries > 0 then maxRetries else 0
  }

  /** The pauses `_validate_with_retry` takes: one after every failed attempt but the last. */
  function RetrySleeps(probe: nat -> Probe, start: nat, maxRetries: int, delay: real): (s: seq<real>)
    ensures |s| == match FirstValid(probe, start, maxRetries)
                   case Some(k) => k
                   case None => if maxRetries > 1 then maxRetries - 1 else 0
    ensures forall i :: 0 <= i < |s| ==> s[i] == Backoff(delay, i)
  {
    var n := match FirstValid(probe, start, maxRetries)
             case Some(k) => k
             case None => if maxRetries > 1 then maxRetries - 1 else 0;
    seq(n, i requires 0 <= i => Backoff(delay, i))
  }

  /** What the provider's `get_token_sign` returns or raises, what the consumer's probes
      answer (the i-th call answers `probe(i)`), what its login raises (None: it returns)
      and the cookies a successful login leaves it with. */
  datatype Scripts = Scripts(
    provider: Result<(string, string), string>,
    probe: nat -> Probe,
    login: Option<string>,
    cookiesAfterLogin: map<string, string>)

  /** Everything `execute` leaves behind: its result, the store's record, the consumer's
      probe count and cookies, and the calls made. */
  datatype Observed = Observed(
    result: EnsureSessionResult,
    store: SessionRecord,
    probeCalls: nat,
    providerCalls: nat,
    logins: seq<(string, string)>,
    cookies: map<string, string>,
    sleeps: seq<real>)

  /** `execute`, from the stored record, the clock reading, the ttl in seconds, the
      scripts, the probes already made and the consumer's cookies. */
  function EnsureRun(s: SessionRecord, now: int, ttl: int, c: Scripts, probes: nat, cookies: map<string, string>): (o: Observed)
    ensures o.providerCalls <= 1 && |o.logins| <= o.providerCalls && o.probeCalls >= probes
    ensures o.result.status == AlreadyActive <==> o.providerCalls == 0
    ensures o.result.expiresAt.Some? <==> o.result.status != Error
    ensures o.result.status == AlreadyActive ==> o.store == s && o.result.expiresAt == s.expiresAt
  {
    if SessionExists(s, now) && c.probe(probes) == Valid then
      Observed(EnsureSessionResult(AlreadyActive, s.expiresAt, CachedMessage), s, probes + 1, 0, [], cookies, [])
    else
      FreshLogin(s, now, ttl, c, if SessionExists(s, now) then probes + 1 else probes, cookies)
  }

  /** The fresh-login path of `execute`, once the cached session has been set aside. */
  function FreshLogin(s: SessionRecord, now: int, ttl: int, c: Scripts, p: nat, cookies: map<string, string>): (o: Observed)
    ensures o.providerCalls == 1 && o.result.status != AlreadyActive
    ensures o.logins == (if c.provider.Success? then [c.provider.value] else [])
    ensures p <= o.probeCalls <= p + MaxRetries
    ensures o.result.status == Refreshed ==>
      o.result.expiresAt == Some(now + ttl) && o.store == SessionRecord(c.cookiesAfterLogin, Some(now + ttl), true)
    ensures o.result.status == Error ==> o.result.expiresAt == None && o.store == Inactive(s)
  {
    match c.provider
    case Failure(e) =>
      Observed(EnsureSessionResult(Error, None, LoginFailedMessage(e)), Inactive(s), p, 1, [], cookies, [])
    case Success(ts) =>
      match c.login
      case Some(e) =>
        Observed(EnsureSessionResult(Error, None, LoginFailedMessage(e)), Inactive(s), p, 1, [ts], cookies, [])
      case None =>
        var newExp := now + ttl;
        var probesAfter := p + RetryProbes(c.probe, p, MaxRetries);
        var sleeps := RetrySleeps(c.probe, p, MaxRetries, InitialDelay);
        if FirstValid(c.probe, p, MaxRetries).None? then
          Observed(EnsureSessionResult(Error, None, ValidationFailedMessage), Inactive(s),
                   probesAfter, 1, [ts], c.cookiesAfterLogin, sleeps)
        else
          Observed(EnsureSessionResult(Refreshed, Some(newExp), RefreshedMessage), Saved(s, c.cookiesAfterLogin, newExp),
                   probesAfter, 1, [ts], c.cookiesAfterLogin, sleeps)
  }

  /** When the first true probe is at offset k: k + 1 probes and k pauses. */
  lemma RetryStopsAt(probe: nat -> Probe, start: nat, n: int, k: nat, delay: real, pauses: seq<real>)
    requires k < n && probe(start + k) == Valid
    requires forall j :: start <= j < start + k ==> probe(j) != Valid
    requires |pauses| == k && forall i :: 0 <= i < k ==> pauses[i] == Backoff(delay, i)
    ensures FirstValid(probe, start, n) == Some(k)
    ensures RetryProbes(probe, start, n) == k + 1
    ensures RetrySleeps(probe, start, n, delay) == pauses
  {
    var r := FirstValid(probe, start, n);
    assert r.Some?;
  }

  /** When no probe of the n answers true: n probes and n - 1 pauses (none if n <= 0). */
  lemma RetryExhausted(probe: nat -> Probe, start: nat, n: int, delay: real, pauses: seq<real>)
    requires forall j :: start <= j < start + n ==> probe(j) != Valid
    requires |pauses| == (if n > 1 then n - 1 else 0) && forall i :: 0 <= i < |pauses| ==> pauses[i] == Backoff(delay, i)
    ensures FirstValid(probe, start, n).None?
    ensures RetryProbes(probe, start, n) == if n > 0 then n else 0
    ensures RetrySleeps(probe, start, n, delay) == pauses
  {
  }

  // ---------- properties of execute ----------

  /** A live cached session that passes its probe is returned as it is: one probe, no
      provider call, no login, the store untouched. */
  lemma CachedSessionReused(s: SessionRecord, now: int, ttl: int, c: Scripts, probes: nat, cookies: map<string, string>)
    requires SessionExists(s, now) && c.probe(probes) == Valid
    ensures var o := EnsureRun(s, now, ttl, c, probes, cookies);
      o.result == EnsureSessionResult(AlreadyActive, s.expiresAt, CachedMessage) &&
      o.providerCalls == 0 && o.logins == [] && o.store == s && o.probeCalls == probes + 1
  {
  }

  /** Without a live cached session nothing is probed before the provider is asked, and
      the result is never ALREADY_ACTIVE. */
  lemma StaleSessionNotProbed(s: SessionRecord, now: int, ttl: int, c: Scripts, probes: nat, cookies: map<string, string>)
    requires !SessionExists(s, now)
    ensures var o := EnsureRun(s, now, ttl, c, probes, cookies);
      o.result.status != AlreadyActive && o.providerCalls == 1 &&
      o.probeCalls == probes + (if c.provider.Success? && c.login.None? then RetryProbes(c.probe, probes, MaxRetries) else 0)
  {
  }

  /** A cached probe that answers false or raises is swallowed: the fresh login follows. */
  lemma FailedProbeFallsThrough(s: SessionRecord, now: int, ttl: int, c: Scripts, probes: nat, cookies: map<string, string>)
    requires SessionExists(s, now) && c.probe(probes) != Valid
    ensures var o := EnsureRun(s, now, ttl, c, probes, cookies);
      o.result.status != AlreadyActive && o.providerCalls == 1 &&
      (c.provider.Success? ==> o.logins == [c.provider.value])
  {
  }

  /** The post-login validation probes at most three times and stops at the first true;
      it pauses only between attempts, each pause 1.5 times the one before. */
  lemma ValidationBounded(s: SessionRecord, now: int, ttl: int, c: Scripts, probes: nat, cookies: map<string, string>)
    ensures var o := EnsureRun(s, now, ttl, c, probes, cookies);
      var p := if SessionExists(s, now) then probes + 1 else probes;
      o.result.status != AlreadyActive ==>
        p <= o.probeCalls <= p + MaxRetries && |o.sleeps| <= MaxRetries - 1 &&
        (|o.sleeps| > 0 ==> o.sleeps[0] == InitialDelay) &&
        (forall i :: 0 < i < |o.sleeps| ==> o.sleeps[i] == o.sleeps[i - 1] * BackoffFactor)
    ensures var o := EnsureRun(s, now, ttl, c, probes, cookies);
      var p := if SessionExists(s, now) then probes + 1 else probes;
      o.result.status == Refreshed ==>
        c.probe(o.probeCalls - 1) == Valid && (forall j :: p <= j < o.probeCalls - 1 ==> c.probe(j) != Valid)
  {
    var o := EnsureRun(s, now, ttl, c, probes, cookies);
    var p := if SessionExists(s, now) then probes + 1 else probes;
    if o.result.status != AlreadyActive && c.provider.Success? && c.login.None? {
      var sl := RetrySleeps(c.probe, p, MaxRetries, InitialDelay);
      assert o.sleeps == sl;
      assert o.probeCalls == p + RetryProbes(c.probe, p, MaxRetries);
      forall i | 0 < i < |sl|
        ensures sl[i] == sl[i - 1] * BackoffFactor
      {
        assert sl[i] == Backoff(InitialDelay, i);
      }
    }
  }

  /** REFRESHED saves the consumer's post-login cookies with expiry now + ttl, returns
      that expiry, and leaves the store active. */
  lemma RefreshedSavesSession(s: SessionRecord, now: int, ttl: int, c: Scripts, probes: nat, cookies: map<string, string>)
    ensures var o := EnsureRun(s, now, ttl, c, probes, cookies);
      o.result.status == Refreshed ==>
        o.result.expiresAt == Some(now + ttl) &&
        o.store == SessionRecord(o.cookies, Some(now + ttl), true) && o.cookies == c.cookiesAfterLogin &&
        c.provider.Success? && o.logins == [c.provider.value]
  {
  }

  /** Every ERROR carries no expiry and leaves the store marked inactive with its cookies
      and expiry as they were. */
  lemma ErrorMarksInactive(s: SessionRecord, now: int, ttl: int, c: Scripts, probes: nat, cookies: map<string, string>)
    ensures var o := EnsureRun(s, now, ttl, c, probes, cookies);
      o.result.status == Error ==>
        o.result.expiresAt == None && o.store == Inactive(s) &&
        (o.result.message == ValidationFailedMessage <==> c.provider.Success? && c.login.None?)
  {
    var o := EnsureRun(s, now, ttl, c, probes, cookies);
    if o.result.status == Error && !(c.provider.Success? && c.login.None?) {
      var e := if c.provider.Failure? then c.provider.error else c.login.value;
      assert o.result.message == LoginFailedMessage(e);
      assert LoginFailedMessage(e)[0] == 'L' && ValidationFailedMessage[0] == 'P';
    }
  }

  /** The round trip of `execute`: straight after a REFRESHED, a second call within the
      ttl whose probe answers true returns ALREADY_ACTIVE with the same expiry, asks the
      provider nothing and leaves the store as the first call saved it. This needs the
      login to have left some cookies and the ttl to be positive. */
  lemma RefreshedThenAlreadyActive(s: SessionRecord, now: int, now2: int, ttl: int, c: Scripts, c2: Scripts,
                                   probes: nat, cookies: map<string, string>)
    requires var o := EnsureRun(s, now, ttl, c, probes, cookies);
      o.result.status == Refreshed && o.cookies != map[] && now <= now2 < now + ttl && c2.probe(o.probeCalls) == Valid
    ensures var o := EnsureRun(s, now, ttl, c, probes, cookies);
      var o2 := EnsureRun(o.store, now2, ttl, c2, o.probeCalls, o.cookies);
      o2.result.status == AlreadyActive && o2.result.expiresAt == o.result.expiresAt &&
      o2.providerCalls == 0 && o2.logins == [] && o2.store == o.store && o2.probeCalls == o.probeCalls + 1
  {
    RefreshedSavesSession(s, now, ttl, c, probes, cookies);
  }

  /** The round trip fails when the login leaves the consumer without cookies: the saved
      session does not count as existing, so the second call never returns ALREADY_ACTIVE. */
  lemma {:induction false} EmptyCookiesNotReused(s: SessionRecord, now: int, now2: int, ttl: int, c: Scripts, c2: Scripts,
                                                 probes: nat, cookies: map<string, string>)
    requires var o := EnsureRun(s, now, ttl, c, probes, cookies);
      o.result.status == Refreshed && o.cookies == map[]
    ensures var o := EnsureRun(s, now, ttl, c, probes, cookies);
      var o2 := EnsureRun(o.store, now2, ttl, c2, o.probeCalls, o.cookies);
      o2.result.status != AlreadyActive && o2.providerCalls == 1
  {
    RefreshedSavesSession(s, now, ttl, c, probes, cookies);
    var o := EnsureRun(s, now, ttl, c, probes, cookies);
    assert !SessionExists(o.store, now2);
    StaleSessionNotProbed(o.store, now2, ttl, c2, o.probeCalls, o.cookies);
  }

  /** Exactly one of the three statuses, each with its own message. */
  lemma StatusesExhaustive(s: SessionRecord, now: int, ttl: int, c: Scripts, probes: nat, cookies: map<string, string>)
    ensures var o := EnsureRun(s, now, ttl, c, probes, cookies);
      (o.result.status == AlreadyActive <==> SessionExists(s, now) && c.probe(probes) == Valid) &&
      (o.result.status == Refreshed <==>
         !(SessionExists(s, now) && c.probe(probes) == Valid) && c.provider.Success? && c.login.None? &&
         FirstValid(c.probe, if SessionExists(s, now) then probes + 1 else probes, MaxRetries).Some?)
  {
  }

  // ---------- the scripted collaborators ----------

  class ScriptedProvider {
    const outcome: Result<(string, string), string>
    var called: nat

    constructor (outcome: Result<(string, string), string>)
      ensures this.outcome == outcome && called == 0
    {
      this.outcome := outcome;
      called := 0;
    }

    method GetTokenSign() returns (r: Result<(string, string), string>)
      modifies this
      ensures r == outcome && called == old(called) + 1
    {
      called := called + 1;
      r := outcome;
    }
  }

  class ScriptedConsumer {
    const probe: nat -> Probe
    const loginOutcome: Option<string>
    const cookiesAfterLogin: map<string, string>
    var cookies: map<string, string>
    var probeCalls: nat
    var logins: seq<(string, string)>

    constructor (probe: nat -> Probe, loginOutcome: Option<string>, cookies: map<string, string>, cookiesAfterLogin: map<string, string>)
      ensures this.probe == probe && this.loginOutcome == loginOutcome && this.cookiesAfterLogin == cookiesAfterLogin
      ensures this.cookies == cookies && probeCalls == 0 && logins == []
    {
      this.probe := probe;
      this.loginOutcome := loginOutcome;
      this.cookies := cookies;
      this.cookiesAfterLogin := cookiesAfterLogin;
      probeCalls := 0;
      logins := [];
    }

    method ValidateSession() returns (r: Probe)
      modifies this
      ensures r == probe(old(probeCalls)) && probeCalls == old(probeCalls) + 1
      ensures cookies == old(cookies) && logins == old(logins)
    {
      r := probe(probeCalls);
      probeCalls := probeCalls + 1;
    }

    method LoginWithTokenSign(token: string, sign: string) returns (r: Option<string>)
      modifies this
      ensures r == loginOutcome && logins == old(logins) + [(token, sign)] && probeCalls == old(probeCalls)
      ensures cookies == if loginOutcome.None? then cookiesAfterLogin else old(cookies)
    {
      logins := logins + [(token, sign)];
      r := loginOutcome;
      if loginOutcome.None? {
        cookies := cookiesAfterLogin;
      }
    }
  }

  /** The retry loop of the validation: up to maxRetries probes, stopping at the first
      true, with the pauses it takes between attempts. */
  method ProbeWithRetry(consumer: ScriptedConsumer, maxRetries: int, delay: real) returns (ok: bool, pauses: seq<real>)
    modifies consumer
    ensures ok <==> FirstValid(consumer.probe, old(consumer.probeCalls), maxRetries).Some?
    ensures consumer.probeCalls == old(consumer.probeCalls) + RetryProbes(consumer.probe, old(consumer.probeCalls), maxRetries)
    ensures pauses == RetrySleeps(consumer.probe, old(consumer.probeCalls), maxRetries, delay)
    ensures consumer.cookies == old(consumer.cookies) && consumer.logins == old(consumer.logins)
  {
    ghost var start := consumer.probeCalls;
    var d := delay;
    pauses := [];
    var attempt := 0;
    ok := false;
    while attempt < maxRetries
      invariant 0 <= attempt <= (if maxRetries > 0 then maxRetries else 0)
      invariant consumer.probeCalls == start + attempt
      invariant forall j :: start <= j < start + attempt ==> consumer.probe(j) != Valid
      invariant |pauses| == (if attempt == maxRetries && attempt > 0 then attempt - 1 else attempt)
      invariant forall i :: 0 <= i < |pauses| ==> pauses[i] == Backoff(delay, i)
      invariant d == Backoff(delay, |pauses|)
      invariant consumer.cookies == old(consumer.cookies) && consumer.logins == old(consumer.logins)
    {
      var answer := consumer.ValidateSession();
      if answer == Valid {
        ok := true;
        break;
      }
      if attempt < maxRetries - 1 {
        pauses := pauses + [d];
        d := d * BackoffFactor;
      }
      attempt := attempt + 1;
    }
    if ok {
      RetryStopsAt(consumer.probe, start, maxRetries, attempt, delay, pauses);
    } else {
      RetryExhausted(consumer.probe, start, maxRetries, delay, pauses);
    }
  }

  // ---------- the use case ----------

  class EnsureSenasaSessionUseCase {
    const store: InMemorySessionStore
    const provider: ScriptedProvider
    const consumer: ScriptedConsumer
    const ttl: int
    /** The pauses taken, in seconds. */
    var slept: seq<real>

    constructor (store: InMemorySessionStore, provider: ScriptedProvider, consumer: ScriptedConsumer, ttlHours: int := DefaultTtlHours)
      ensures this.store == store && this.provider == provider && this.consumer == consumer
      ensures ttl == ttlHours * 3600 && slept == []
    {
      this.store := store;
      this.provider := provider;
      this.consumer := consumer;
      ttl := ttlHours * 3600;
      slept := [];
    }

    function ScriptsOf(): Scripts {
      Scripts(provider.outcome, consumer.probe, consumer.loginOutcome, consumer.cookiesAfterLogin)
    }

    method ValidateWithRetry(maxRetries: int := MaxRetries, delay: real := InitialDelay) returns (ok: bool)
      modifies this, consumer
      ensures ok <==> FirstValid(consumer.probe, old(consumer.probeCalls), maxRetries).Some?
      ensures consumer.probeCalls == old(consumer.probeCalls) + RetryProbes(consumer.probe, old(consumer.probeCalls), maxRetries)
      ensures slept == old(slept) + RetrySleeps(consumer.probe, old(consumer.probeCalls), maxRetries, delay)
      ensures consumer.cookies == old(consumer.cookies) && consumer.logins == old(consumer.logins)
    {
      var pauses;
      ok, pauses := ProbeWithRetry(consumer, maxRetries, delay);
      slept := slept + pauses;
    }

    method Execute(now: int) returns (r: EnsureSessionResult)
      modifies this, store, provider, consumer
      ensures var o := EnsureRun(old(store.State()), now, ttl, ScriptsOf(), old(consumer.probeCalls), old(consumer.cookies));
        r == o.result && store.State() == o.store &&
        consumer.probeCalls == o.probeCalls && provider.called == old(provider.called) + o.providerCalls &&
        consumer.logins == old(consumer.logins) + o.logins && consumer.cookies == o.cookies &&
        slept == old(slept) + o.sleeps
    {
      var reused, expiresAt := ReuseCachedSession(now);
      if reused {
        return EnsureSessionResult(AlreadyActive, expiresAt, CachedMessage);
      }
      r := LoginAndValidate(now);
    }

    /** The first half of `execute`: load the stored session and, when it is live, probe
        it once. */
    method ReuseCachedSession(now: int) returns (reused: bool, expiresAt: Option<int>)
      modifies consumer
      ensures reused <==> SessionExists(store.State(), now) && consumer.probe(old(consumer.probeCalls)) == Valid
      ensures expiresAt == store.State().expiresAt
      ensures consumer.probeCalls == old(consumer.probeCalls) + if SessionExists(store.State(), now) then 1 else 0
      ensures consumer.cookies == old(consumer.cookies) && consumer.logins == old(consumer.logins)
    {
      var cookies, isActive;
      cookies, expiresAt, isActive := store.Load();
      reused := false;
      if cookies != map[] && expiresAt.Some? && expiresAt.value > now && isActive {
        var answer := consumer.ValidateSession();
        reused := answer == Valid;
      }
    }

    /** The `try` block of `execute`: the fresh login and its validation. */
    method LoginAndValidate(now: int) returns (r: EnsureSessionResult)
      modifies this, store, provider, consumer
      ensures var o := FreshLogin(old(store.State()), now, ttl, ScriptsOf(), old(consumer.probeCalls), old(consumer.cookies));
        r == o.result && store.State() == o.store &&
        consumer.probeCalls == o.probeCalls && provider.called == old(provider.called) + o.providerCalls &&
        consumer.logins == old(consumer.logins) + o.logins && consumer.cookies == o.cookies &&
        slept == old(slept) + o.sleeps
    {
      var tokenSign := provider.GetTokenSign();
      if tokenSign.Failure? {
        store.MarkInactive();
        return EnsureSessionResult(Error, None, LoginFailedMessage(tokenSign.error));
      }
      var (token, sign) := tokenSign.value;
      var loginError := consumer.LoginWithTokenSign(token, sign);
      if loginError.Some? {
        store.MarkInactive();
        return EnsureSessionResult(Error, None, LoginFailedMessage(loginError.value));
      }
      var newExp := now + ttl;
      var validated := ValidateWithRetry(MaxRetries, InitialDelay);
      if !validated {
        store.MarkInactive();
        return EnsureSessionResult(Error, None, ValidationFailedMessage);
      }
      store.Save(consumer.cookies, newExp);
      r := EnsureSessionResult(Refreshed, Some(newExp), RefreshedMessage);
    }
  }

  // ---------- the unit tests' scenarios ----------

  /** The probe answers of a fresh FakeConsumer(valid_first): the first call answers
      valid_first, every later call true. */
  function FakeConsumerProbes(validFirst: bool): nat -> Probe {
    (i: nat) => if i == 0 && !validFirst then Invalid else Valid
  }

  /** A fresh FakeConsumer answers its first two probes as FakeConsumerProbes says. */
  method FakeConsumerFollowsScript(validFirst: bool) returns (first: bool, second: bool)
    ensures first == (FakeConsumerProbes(validFirst)(0) == Valid)
    ensures second == (FakeConsumerProbes(validFirst)(1) == Valid)
  {
    var fake := new AuthFakes.FakeConsumer(validFirst);
    first := fake.ValidateSession();
    second := fake.ValidateSession();
  }

  /** A store saved with {"k": "v"} expiring six hours ahead, and a consumer whose first
      probe answers true: ALREADY_ACTIVE with that expiry, and no provider call. */
  method AlreadyActiveScenario(now: int) returns (r: EnsureSessionResult, providerCalls: nat)
    ensures r.status == AlreadyActive && r.expiresAt == Some(now + 6 * 3600) && providerCalls == 0
  {
    var store := new InMemorySessionStore();
    store.Save(map["k" := "v"], now + 6 * 3600);
    var provider := new ScriptedProvider(Success(("tok", "sig")));
    var consumer := new ScriptedConsumer(FakeConsumerProbes(true), None, map["cookie" := "value"], map["session" := "abc"]);
    var uc := new EnsureSenasaSessionUseCase(store, provider, consumer);
    assert "k" in store.cookies;
    assert SessionExists(store.State(), now);
    assert uc.ScriptsOf().probe(0) == Valid;
    r := uc.Execute(now);
    providerCalls := provider.called;
  }

  /** An empty store, a provider handing out ("T", "S") and a consumer whose first probe
      answers false: REFRESHED after two probes, with the login's cookies saved. */
  method RefreshedWhenInvalidScenario(now: int) returns (r: EnsureSessionResult, probeCalls: nat, saved: SessionRecord)
    ensures r.status == Refreshed && r.expiresAt == Some(now + 12 * 3600) && probeCalls == 2
    ensures saved == SessionRecord(map["session" := "abc"], Some(now + 12 * 3600), true)
  {
    var store := new InMemorySessionStore();
    var provider := new ScriptedProvider(Success(("T", "S")));
    var consumer := new ScriptedConsumer(FakeConsumerProbes(false), None, map["cookie" := "value"], map["session" := "abc"]);
    var uc := new EnsureSenasaSessionUseCase(store, provider, consumer);
    r := uc.Execute(now);
    assert FirstValid(FakeConsumerProbes(false), 0, MaxRetries) == Some(1);
    probeCalls := consumer.probeCalls;
    saved := store.State();
  }
}
