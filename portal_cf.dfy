/** The Portal CF provider (src/senasa_pipeline/infrastructure/adapters/afip/portal_cf_provider.py):
    four GETs against the AFIP portal, a single retry when the authorization body is not
    JSON, and a check that token and sign are truthy. The JSON values are returned as
    they are. */
module PortalCf {
  import opened Wrappers
  import opened Http

  const Base := "https://portalcf.cloud.afip.gob.ar/portal"
  const AppUrl := Base + "/app/"
  const ServiciosUrl := Base + "/servicios"
  const NoTokenSign := "AFIP Portal: token/sign no disponibles"

  function DescriptorUrl(cuit: string): string {
    Base + "/api/servicios/" + cuit + "/servicio/senasa_traapi"
  }

  function AuthorizationUrl(cuit: string): string {
    DescriptorUrl(cuit) + "/autorizacion"
  }

  function Get(url: string, headers: map<string, string>): Request {
    Request(GET, url, map[], headers, true)
  }

  const JsonHeaders := map["Accept" := "application/json"]

  /** The four requests of a run, in the order they are sent. */
  function OpeningRequests(cuit: string): seq<Request> {
    [Get(AppUrl, map["Accept" := "text/html,application/xhtml+xml"]),
     Get(ServiciosUrl, map[]),
     Get(DescriptorUrl(cuit), JsonHeaders),
     Get(AuthorizationUrl(cuit), JsonHeaders)]
  }

  /** The requests of the retry after a non-JSON authorization body. */
  function RetryRequests(cuit: string): seq<Request> {
    [Get(AppUrl, map[]), Get(AuthorizationUrl(cuit), JsonHeaders)]
  }

  /** `data.get("token")` and `data.get("sign")`, both of which must be truthy. */
  function CheckTokenSign(data: map<string, Json>): (r: Result<(Json, Json), Error>)
    ensures r.Success? <==> "token" in data && "sign" in data && Truthy(data["token"]) && Truthy(data["sign"])
    ensures r.Success? ==> r.value == (data["token"], data["sign"])
    ensures r.Failure? ==> r.error == RuntimeError(NoTokenSign)
  {
    if "token" in data && "sign" in data && Truthy(data["token"]) && Truthy(data["sign"])
    then Success((data["token"], data["sign"]))
    else Failure(RuntimeError(NoTokenSign))
  }

  /** The JSON object carried by the reply to the last request of `trace`, if any. */
  function Parsed(respond: Responder, trace: seq<Request>): Option<map<string, Json>>
    requires trace != []
  {
    match respond(trace)
    case Failure(_) => None
    case Success(resp) => resp.json
  }

  /** The retry after a non-JSON authorization body: refresh the app, GET the
      authorization again, and fail with a decode error when that body is not JSON
      either. */
  function AuthorizationRetry(respond: Responder, t: Transport, cuit: string): (run: Run<(Json, Json)>)
    ensures run.transport.trace == t.trace + RetryRequests(cuit)[..1] ||
            run.transport.trace == t.trace + RetryRequests(cuit)
    ensures run.result.Success? ==>
      Parsed(respond, run.transport.trace).Some? &&
      CheckTokenSign(Parsed(respond, run.transport.trace).value) == run.result
    ensures (|run.transport.trace| == |t.trace| + 2 && respond(run.transport.trace).Success? &&
             Parsed(respond, run.transport.trace).None?) ==> run.result == Failure(JsonDecodeError)
  {
    var (t2, r2) := Exchange(respond, t, Get(AppUrl, map[]));
    if r2.Failure? then Run(t2, Failure(r2.error))
    else
      var (t3, r3) := Exchange(respond, t2, Get(AuthorizationUrl(cuit), JsonHeaders));
      assert t3.trace == t.trace + RetryRequests(cuit);
      match r3
      case Failure(e) => Run(t3, Failure(e))
      case Success(auth2) =>
        match auth2.json
        case None => Run(t3, Failure(JsonDecodeError))
        case Some(data) => Run(t3, CheckTokenSign(data))
  }

  /** From the authorization GET on: parse its body, and when that fails refresh the app
      and GET the authorization once more, whose parse failure propagates. */
  function AuthorizationPart(respond: Responder, t: Transport, cuit: string): (run: Run<(Json, Json)>)
    ensures run.transport.trace == t.trace + RetryRequests(cuit)[1..] ||
            run.transport.trace == t.trace + RetryRequests(cuit)[1..] + RetryRequests(cuit)[..1] ||
            run.transport.trace == t.trace + RetryRequests(cuit)[1..] + RetryRequests(cuit)
    ensures |run.transport.trace| == |t.trace| + 1 && respond(run.transport.trace).Success? ==>
      Parsed(respond, run.transport.trace).Some?
    ensures run.result.Success? ==>
      Parsed(respond, run.transport.trace).Some? &&
      CheckTokenSign(Parsed(respond, run.transport.trace).value) == run.result
    ensures |run.transport.trace| == |t.trace| + 3 && respond(run.transport.trace).Success? ==>
      Parsed(respond, t.trace + RetryRequests(cuit)[1..]).None? &&
      (Parsed(respond, run.transport.trace).None? ==> run.result == Failure(JsonDecodeError))
  {
    var (t1, r1) := Exchange(respond, t, Get(AuthorizationUrl(cuit), JsonHeaders));
    assert t1.trace == t.trace + RetryRequests(cuit)[1..];
    match r1
    case Failure(e) => Run(t1, Failure(e))
    case Success(auth) =>
      match auth.json
      case Some(data) => Run(t1, CheckTokenSign(data))
      case None => AuthorizationRetry(respond, t1, cuit)
  }

  /** `get_token_sign`: the app page, the services page and the service descriptor, whose
      reply is not read, then the authorization. */
  function PortalCfRun(respond: Responder, t: Transport, cuit: string): (run: Run<(Json, Json)>)
    ensures t.trace < run.transport.trace && |run.transport.trace| <= |t.trace| + 6
    ensures run.transport.trace[|t.trace|] == OpeningRequests(cuit)[0]
    ensures run.result.Success? ==> Truthy(run.result.value.0) && Truthy(run.result.value.1)
  {
    var reqs := OpeningRequests(cuit);
    var (t1, r1) := Exchange(respond, t, reqs[0]);
    if r1.Failure? then Run(t1, Failure(r1.error))
    else
      var (t2, r2) := Exchange(respond, t1, reqs[1]);
      if r2.Failure? then Run(t2, Failure(r2.error))
      else
        var (t3, r3) := Exchange(respond, t2, reqs[2]);
        if r3.Failure? then Run(t3, Failure(r3.error))
        else AuthorizationPart(respond, t3, cuit)
  }

  /** Requests go out in the order app, services, descriptor, authorization; a JSON
      authorization reply ends the run there, a non-JSON one causes exactly one app
      refresh and one more authorization GET, and nothing else is ever sent. */
  lemma PortalCfRequestOrder(respond: Responder, t: Transport, cuit: string)
    ensures var run := PortalCfRun(respond, t, cuit);
      var openTrace := t.trace + OpeningRequests(cuit);
      t.trace < run.transport.trace &&
      (run.transport.trace <= openTrace || run.transport.trace == openTrace + RetryRequests(cuit)[..1] ||
       run.transport.trace == openTrace + RetryRequests(cuit)) &&
      (openTrace <= run.transport.trace && respond(openTrace).Success? ==>
         (Parsed(respond, openTrace).Some? <==> run.transport.trace == openTrace))
  {
    var reqs := OpeningRequests(cuit);
    var t1 := Exchange(respond, t, reqs[0]).0;
    var t2 := Exchange(respond, t1, reqs[1]).0;
    var t3 := Exchange(respond, t2, reqs[2]).0;
    assert t3.trace == t.trace + reqs[..3];
    assert t3.trace + RetryRequests(cuit)[1..] == t.trace + reqs;
  }

  /** On success the token and sign are the truthy values of the last authorization
      reply, unchanged; a second non-JSON authorization body is a decode error. */
  lemma PortalCfOutcome(respond: Responder, t: Transport, cuit: string)
    ensures var run := PortalCfRun(respond, t, cuit);
      run.result.Success? ==>
        Parsed(respond, run.transport.trace).Some? &&
        var data := Parsed(respond, run.transport.trace).value;
        "token" in data && "sign" in data && Truthy(data["token"]) && Truthy(data["sign"]) &&
        run.result.value == (data["token"], data["sign"])
    ensures var run := PortalCfRun(respond, t, cuit);
      var all := t.trace + OpeningRequests(cuit) + RetryRequests(cuit);
      run.transport.trace == all && respond(all).Success? && Parsed(respond, all).None? ==>
        run.result == Failure(JsonDecodeError)
  {
    var reqs := OpeningRequests(cuit);
    var t1 := Exchange(respond, t, reqs[0]).0;
    var t2 := Exchange(respond, t1, reqs[1]).0;
    var t3 := Exchange(respond, t2, reqs[2]).0;
    assert t3.trace == t.trace + reqs[..3];
    assert t3.trace + RetryRequests(cuit)[1..] + RetryRequests(cuit) == t.trace + reqs + RetryRequests(cuit);
  }

  /** The retry reads the server only on traces longer than the one it starts from, and
      never reads the cookie jar. */
  lemma AuthorizationRetryReadsLater(respond: Responder, respond2: Responder, t: Transport, u: Transport, cuit: string)
    requires t.trace == u.trace
    requires forall tr :: |tr| > |t.trace| ==> respond(tr) == respond2(tr)
    ensures AuthorizationRetry(respond, t, cuit).result == AuthorizationRetry(respond2, u, cuit).result
    ensures AuthorizationRetry(respond, t, cuit).transport.trace == AuthorizationRetry(respond2, u, cuit).transport.trace
  {
    var (t2, r2) := Exchange(respond, t, Get(AppUrl, map[]));
    var (u2, q2) := Exchange(respond2, u, Get(AppUrl, map[]));
    assert respond(t2.trace) == respond2(u2.trace);
    if r2.Success? {
      var t3 := Exchange(respond, t2, Get(AuthorizationUrl(cuit), JsonHeaders)).0;
      assert respond(t3.trace) == respond2(t3.trace);
    }
  }

  /** The authorization part reads the server only on traces longer than the one it
      starts from, and never reads the cookie jar. */
  lemma AuthorizationPartReadsLater(respond: Responder, respond2: Responder, t: Transport, u: Transport, cuit: string)
    requires t.trace == u.trace
    requires forall tr :: |tr| > |t.trace| ==> respond(tr) == respond2(tr)
    ensures AuthorizationPart(respond, t, cuit).result == AuthorizationPart(respond2, u, cuit).result
    ensures AuthorizationPart(respond, t, cuit).transport.trace == AuthorizationPart(respond2, u, cuit).transport.trace
  {
    var (t1, r1) := Exchange(respond, t, Get(AuthorizationUrl(cuit), JsonHeaders));
    var (u1, q1) := Exchange(respond2, u, Get(AuthorizationUrl(cuit), JsonHeaders));
    assert respond(t1.trace) == respond2(u1.trace);
    if r1.Success? && r1.value.json.None? {
      AuthorizationRetryReadsLater(respond, respond2, t1, u1, cuit);
    }
  }

  /** The service descriptor is fetched but never read: two servers that differ only in
      their answer to it lead to the same result and the same requests. */
  lemma DescriptorNeverInspected(respond: Responder, respond2: Responder, t: Transport, cuit: string)
    requires var descriptorTrace := t.trace + OpeningRequests(cuit)[..3];
      respond(descriptorTrace).Success? && respond2(descriptorTrace).Success? &&
      forall tr :: tr != descriptorTrace ==> respond(tr) == respond2(tr)
    ensures PortalCfRun(respond, t, cuit).result == PortalCfRun(respond2, t, cuit).result
    ensures PortalCfRun(respond, t, cuit).transport.trace == PortalCfRun(respond2, t, cuit).transport.trace
  {
    var reqs := OpeningRequests(cuit);
    var avoid := t.trace + reqs[..3];
    var a := t.trace + [reqs[0]];
    var b := a + [reqs[1]];
    assert |a| < |avoid| && |b| < |avoid|;
    assert respond(a) == respond2(a);
    assert respond(b) == respond2(b);
    var (t1, r1) := Exchange(respond, t, reqs[0]);
    var (u1, q1) := Exchange(respond2, t, reqs[0]);
    if r1.Success? {
      var (t2, r2) := Exchange(respond, t1, reqs[1]);
      var (u2, q2) := Exchange(respond2, u1, reqs[1]);
      if r2.Success? {
        var t3 := Exchange(respond, t2, reqs[2]).0;
        var u3 := Exchange(respond2, u2, reqs[2]).0;
        assert t3.trace == avoid == u3.trace;
        forall tr | |tr| > |t3.trace|
          ensures respond(tr) == respond2(tr)
        {
          assert tr != avoid;
        }
        AuthorizationPartReadsLater(respond, respond2, t3, u3, cuit);
      }
    }
  }

  class PortalCFProvider {
    const http: HttpClient
    const cuit: string

    constructor (http: HttpClient, cuit: string)
      ensures this.http == http && this.cuit == cuit
    {
      this.http := http;
      this.cuit := cuit;
    }

    method GetTokenSign() returns (r: Result<(Json, Json), Error>)
      modifies http
      ensures Run(http.State(), r) == PortalCfRun(http.respond, old(http.State()), cuit)
    {
      var _ :- http.Send(OpeningRequests(cuit)[0]);
      var _ :- http.Send(OpeningRequests(cuit)[1]);
      var _ :- http.Send(OpeningRequests(cuit)[2]);
      var auth :- http.Send(OpeningRequests(cuit)[3]);
      var data: map<string, Json>;
      if auth.json.Some? {
        data := auth.json.value;
      } else {
        var _ :- http.Send(RetryRequests(cuit)[0]);
        var auth2 :- http.Send(RetryRequests(cuit)[1]);
        if auth2.json.None? {
          return Failure(JsonDecodeError);
        }
        data := auth2.json.value;
      }
      r := CheckTokenSign(data);
    }
  }
}
