/** The process-wide access-token cache of Backend/Utils/Auth.js: two
    module-level variables, `accessToken` and `tokenExpiresAt`, read and
    overwritten by `getAccessToken`. The clock reading and the reply of the
    token endpoint are parameters. */
module Auth {
  import opened Wrappers

  /** The fields of a token-endpoint reply the cache reads: `access_token`
      and `expires_in` (seconds). */
  datatype Grant = Grant(accessToken: string, expiresIn: int)

  /** The values of the two module-level variables. */
  datatype CacheState = CacheState(accessToken: string, tokenExpiresAt: int)

  /** The state at module load: an empty token that expired at time 0. */
  const Initial := CacheState("", 0)

  /** The cached token is handed out: it is non-empty and `now` lies strictly
      before its expiry (milliseconds). */
  predicate Reusable(st: CacheState, now: int) {
    st.accessToken != "" && now < st.tokenExpiresAt
  }

  /** The effect of one call: the state afterwards, what the call returns,
      and whether it asked the token endpoint. */
  datatype Step = Step(next: CacheState, result: Outcome<string>, fetched: bool)

  /** One call of getAccessToken at clock reading `now`; `grant` is what the
      token endpoint would answer if it were asked. */
  function GetToken(st: CacheState, now: int, grant: Outcome<Grant>): Step {
    if Reusable(st, now) then Step(st, Ok(st.accessToken), false)
    else
      match grant
      case Failed => Step(st, Failed, true)
      case Ok(g) =>
        var next := CacheState(g.accessToken, now + g.expiresIn * 1000);
        Step(next, Ok(next.accessToken), true)
  }

  /** The first call after start-up always asks the token endpoint. */
  lemma FirstCallFetches(now: int, grant: Outcome<Grant>)
    ensures GetToken(Initial, now, grant).fetched
  {
  }

  /** A reusable token is returned as it is, without a fetch and without a
      change of state. */
  lemma CachedTokenReturned(st: CacheState, now: int, grant: Outcome<Grant>)
    requires Reusable(st, now)
    ensures GetToken(st, now, grant) == Step(st, Ok(st.accessToken), false)
  {
  }

  /** Otherwise a successful fetch overwrites both fields, with the expiry
      counted from the clock reading taken before the fetch, and returns
      the new token. */
  lemma RefreshStoresGrant(st: CacheState, now: int, g: Grant)
    requires !Reusable(st, now)
    ensures var s := GetToken(st, now, Ok(g));
      s.fetched && s.next == CacheState(g.accessToken, now + g.expiresIn * 1000)
      && s.result == Ok(g.accessToken)
  {
  }

  /** Expiry is strict: at exactly the expiry time the token is fetched again. */
  lemma ExpiryIsStrict(st: CacheState, grant: Outcome<Grant>)
    ensures GetToken(st, st.tokenExpiresAt, grant).fetched
  {
  }

  /** A failed fetch fails the call and leaves both fields as they were. */
  lemma FailedFetchKeepsState(st: CacheState, now: int)
    requires !Reusable(st, now)
    ensures GetToken(st, now, Failed) == Step(st, Failed, true)
  {
  }

  /** An empty token is never reused, so the call after fetching one fetches
      again, however far the expiry lies ahead. */
  lemma EmptyTokenRefetched(st: CacheState, now: int, expiresIn: int, later: int, grant: Outcome<Grant>)
    requires !Reusable(st, now)
    ensures var s := GetToken(st, now, Ok(Grant("", expiresIn)));
      GetToken(s.next, later, grant).fetched
  {
  }

  /** A sequence of calls, each with its clock reading and the reply the
      token endpoint would give it. */
  datatype Call = Call(now: int, grant: Outcome<Grant>)

  /** The state after the calls, made one after another. */
  function After(st: CacheState, calls: seq<Call>): CacheState
    decreases |calls|
  {
    if calls == [] then st
    else After(GetToken(st, calls[0].now, calls[0].grant).next, calls[1..])
  }

  /** The number of calls that ask the token endpoint. */
  function Fetches(st: CacheState, calls: seq<Call>): nat
    decreases |calls|
  {
    if calls == [] then 0
    else
      var s := GetToken(st, calls[0].now, calls[0].grant);
      (if s.fetched then 1 else 0) + Fetches(s.next, calls[1..])
  }

  /** While the cached token stays reusable, no call fetches and the state
      stays put. */
  lemma {:induction false} NoFetchWhileReusable(st: CacheState, calls: seq<Call>)
    requires forall k :: 0 <= k < |calls| ==> Reusable(st, calls[k].now)
    ensures Fetches(st, calls) == 0 && After(st, calls) == st
    decreases |calls|
  {
    if calls != [] {
      NoFetchWhileReusable(st, calls[1..]);
    }
  }

  /** One fetch serves every later call inside the lifetime of the token it
      stored: calls made one after another issue at most one fetch, and
      exactly one when the first call found nothing reusable. */
  lemma {:induction false} OneFetchPerLifetime(st: CacheState, calls: seq<Call>)
    requires calls != []
    requires var first := GetToken(st, calls[0].now, calls[0].grant).next;
      forall k :: 1 <= k < |calls| ==> Reusable(first, calls[k].now)
    ensures Fetches(st, calls) == if Reusable(st, calls[0].now) then 0 else 1
  {
    var first := GetToken(st, calls[0].now, calls[0].grant).next;
    var rest := calls[1..];
    assert forall k :: 0 <= k < |rest| ==> Reusable(first, rest[k].now) by {
      forall k | 0 <= k < |rest| ensures Reusable(first, rest[k].now) {
        assert rest[k] == calls[k + 1];
      }
    }
    NoFetchWhileReusable(first, rest);
  }

  /** The cache object. Its methods keep it in step with GetToken. */
  class TokenCache {
    var accessToken: string
    var tokenExpiresAt: int

    function State(): CacheState
      reads this
    {
      CacheState(accessToken, tokenExpiresAt)
    }

    /** `let accessToken = ""; let tokenExpiresAt = 0;` */
    constructor ()
      ensures State() == Initial
    {
      accessToken := "";
      tokenExpiresAt := 0;
    }

    /** getAccessToken, with the clock reading taken at entry and the reply
        the token endpoint gives if it is asked. `fetched` tells whether it
        was asked. */
    method GetAccessToken(now: int, grant: Outcome<Grant>) returns (token: Outcome<string>, fetched: bool)
      modifies this
      ensures GetToken(old(State()), now, grant) == Step(State(), token, fetched)
      ensures fetched <==> !Reusable(old(State()), now)
      ensures !fetched ==> token == Ok(old(accessToken)) && unchanged(this)
      ensures fetched && grant.Failed? ==> token == Failed && unchanged(this)
      ensures fetched && grant.Ok? ==>
        accessToken == grant.value.accessToken
        && tokenExpiresAt == now + grant.value.expiresIn * 1000
        && token == Ok(accessToken)
    {
      if accessToken != "" && now < tokenExpiresAt {
        return Ok(accessToken), false;
      }
      if grant.Failed? {
        return Failed, true;
      }
      accessToken := grant.value.accessToken;
      tokenExpiresAt := now + grant.value.expiresIn * 1000;
      return Ok(accessToken), true;
    }
  }
}
