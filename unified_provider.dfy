/** The unified AFIP provider (src/senasa_pipeline/infrastructure/adapters/afip/unified_provider.py):
    the JSF login first, and the Portal CF web API as a fallback when JSF raises or
    yields no token/sign. Portal CF replies are read as JSON; the JSON values of the
    token and the sign are returned as they are, so the result is a pair of Json (the
    JSF path gives two strings). */
module UnifiedAfip {
  import opened Wrappers
  import opened Http
  import opened Markup
  import opened AfipJsf

  const UnifiedInitialFailure := "AFIP JSF: No se pudo extraer ViewState o action inicial"
  const UnifiedPasswordPageFailure := "AFIP JSF: No se pudo extraer ViewState o action de password"
  const ServiceUnavailable := "Portal CF: servicio senasa_traapi no disponible para el CUIT"
  const NoAuthorization := "Portal CF: no se obtuvo token/sign de autorización para SENASA"

  const PortalCfBase := "https://portalcf.cloud.afip.gob.ar"
  const AppUrl := PortalCfBase + "/portal/app/"
  const ServiciosUrl := PortalCfBase + "/portal/servicios"
  const ServiceName := "senasa_traapi"
  const JsonAccept := "application/json, text/plain, */*"

  function ServiceUrl(cuit: string): string {
    PortalCfBase + "/portal/api/servicios/" + cuit + "/servicio/senasa_traapi"
  }

  function AuthorizationUrl(cuit: string): string {
    ServiceUrl(cuit) + "/autorizacion"
  }

  function OpenAppRequest(): Request {
    Request(GET, AppUrl, map[],
            map["Accept" := "text/html,application/xhtml+xml,application/xml;q=0.9,image/avif,image/webp,image/apng,*/*;q=0.8"],
            true)
  }

  /** A GET with no headers. */
  function PlainGet(url: string): Request {
    Request(GET, url, map[], map[], true)
  }

  /** The JSON GET of the portal API: the first attempt is marked as an XMLHttpRequest,
      the retry is not. */
  function ApiGet(url: string, ajax: bool): Request {
    var headers := map["Accept" := JsonAccept, "Referer" := AppUrl];
    Request(GET, url, map[], if ajax then headers["X-Requested-With" := "XMLHttpRequest"] else headers, true)
  }

  /** `_post_password` of the unified provider: the action, token and sign of form
      "myform" (else the first form), or the all-empty triple when there is no form or
      the action, the token value or the sign value is missing or empty. */
  function UnifiedTokenSign(doc: Document): (r: (string, string, string))
    ensures r == ("", "", "") || (r.0 != "" && r.1 != "" && r.2 != "")
    ensures doc.forms == [] ==> r == ("", "", "")
    ensures r.1 != "" ==>
      var f := FindFormByNameOrFirst(doc.forms, "myform").value;
      TruthyAction(f) == Some(r.0) &&
      FindInput(f.inputs, "token").Some? && FindInput(f.inputs, "token").value.value == Some(r.1) &&
      FindInput(f.inputs, "sign").Some? && FindInput(f.inputs, "sign").value.value == Some(r.2)
    ensures doc.forms != [] ==>
      var f := FindFormByNameOrFirst(doc.forms, "myform").value;
      TruthyAction(f).Some? && NonEmptyValue(FindInput(f.inputs, "token")) && NonEmptyValue(FindInput(f.inputs, "sign"))
      ==> r.1 != ""
  {
    match FindFormByNameOrFirst(doc.forms, "myform")
    case None => ("", "", "")
    case Some(f) =>
      var action := TruthyAction(f);
      var token := FindInput(f.inputs, "token");
      var sign := FindInput(f.inputs, "sign");
      if action.None? || !NonEmptyValue(token) || !NonEmptyValue(sign) then ("", "", "")
      else (action.value, token.value.value.value, sign.value.value.value)
  }

  /** `inp and inp.get("value")`: the input exists and has a non-empty value. */
  predicate NonEmptyValue(inp: Option<Input>) {
    inp.Some? && inp.value.value.Some? && inp.value.value.value != ""
  }

  function UnifiedPasswordStep(respond: Responder, t: Transport, cuit: string, password: string, s: Step, referer: string)
    : (run: Run<(string, string, string)>)
    ensures run.transport.trace == t.trace + [PasswordRequest(cuit, password, s, referer)]
    ensures run.result.Success? <==> Reply(respond, run.transport.trace).Success?
    ensures run.result.Success? ==> run.result.value == UnifiedTokenSign(Reply(respond, run.transport.trace).value.doc)
  {
    var (t1, r) := Exchange(respond, t, PasswordRequest(cuit, password, s, referer));
    match r
    case Failure(e) => Run(t1, Failure(e))
    case Success(resp) => Run(t1, Success(UnifiedTokenSign(resp.doc)))
  }

  /** The JSF steps after the login page: the CUIT POST built from its step `s1`, then
      the password POST built from the CUIT page's step, with `s1`'s action as Referer. */
  function UnifiedAfterLogin(respond: Responder, urljoin: UrlJoin, t: Transport, cuit: string, password: string, s1: Step)
    : (run: Run<(string, string, string)>)
    ensures t.trace + [CuitRequest(cuit, s1)] <= run.transport.trace
    ensures |run.transport.trace| <= |t.trace| + 2
    ensures run.result.Success? ==>
      |run.transport.trace| == |t.trace| + 2 && Reply(respond, run.transport.trace).Success? &&
      run.result.value == UnifiedTokenSign(Reply(respond, run.transport.trace).value.doc)
  {
    var r2 := FormStep(respond, urljoin, t, CuitRequest(cuit, s1), UnifiedPasswordPageFailure);
    match r2.result
    case Failure(e) => Run(r2.transport, Failure(e))
    case Success(s2) => UnifiedPasswordStep(respond, r2.transport, cuit, password, s2, s1.action)
  }

  /** The JSF attempt, the body of the `try` in `get_token_sign`. */
  function JsfAttempt(respond: Responder, urljoin: UrlJoin, t: Transport, cuit: string, password: string)
    : (run: Run<(string, string, string)>)
    ensures t.trace < run.transport.trace && 1 <= Added(t, run.transport) <= 3
    ensures run.transport.trace[|t.trace|] == InitialRequest()
    ensures run.result.Success? ==> Added(t, run.transport) == 3
    ensures run.result.Success? ==>
      Reply(respond, run.transport.trace).Success? &&
      run.result.value == UnifiedTokenSign(Reply(respond, run.transport.trace).value.doc)
  {
    var r1 := FormStep(respond, urljoin, t, InitialRequest(), UnifiedInitialFailure);
    match r1.result
    case Failure(e) => Run(r1.transport, Failure(e))
    case Success(s1) => UnifiedAfterLogin(respond, urljoin, r1.transport, cuit, password, s1)
  }

  /** The attempt yielded a usable token and sign. */
  predicate JsfDelivered(attempt: Run<(string, string, string)>) {
    attempt.result.Success? && attempt.result.value.1 != "" && attempt.result.value.2 != ""
  }

  /** The JSON object the reply to the last request of `trace` carries, if any. */
  function ParsedReply(respond: Responder, trace: seq<Request>): Option<map<string, Json>>
    requires trace != []
  {
    match Reply(respond, trace)
    case Failure(_) => None
    case Success(resp) => resp.json
  }

  /** The requests after a non-JSON descriptor body: /portal/app/, /portal/servicios
      and a second descriptor GET, whose non-JSON body gives `{}`. */
  function ServiceInfoRetry(respond: Responder, t: Transport, cuit: string): (run: Run<map<string, Json>>)
    ensures var retry := [PlainGet(AppUrl), PlainGet(ServiciosUrl), ApiGet(ServiceUrl(cuit), false)];
      exists k :: 1 <= k <= 3 && run.transport.trace == t.trace + retry[..k]
    ensures run.result.Success? ==>
      run.transport.trace == t.trace + [PlainGet(AppUrl), PlainGet(ServiciosUrl), ApiGet(ServiceUrl(cuit), false)] &&
      run.result.value == ParsedReply(respond, run.transport.trace).GetOr(map[])
  {
    var retry := [PlainGet(AppUrl), PlainGet(ServiciosUrl), ApiGet(ServiceUrl(cuit), false)];
    var (t2, r2) := Exchange(respond, t, PlainGet(AppUrl));
    assert t2.trace == t.trace + retry[..1];
    if r2.Failure? then Run(t2, Failure(r2.error))
    else
      var (t3, r3) := Exchange(respond, t2, PlainGet(ServiciosUrl));
      assert t3.trace == t.trace + retry[..2];
      if r3.Failure? then Run(t3, Failure(r3.error))
      else
        var (t4, r4) := Exchange(respond, t3, ApiGet(ServiceUrl(cuit), false));
        assert t4.trace == t.trace + retry[..3];
        match r4
        case Failure(e) => Run(t4, Failure(e))
        case Success(resp4) => Run(t4, Success(resp4.json.GetOr(map[])))
  }

  /** `_portal_get_service_info`: one descriptor GET, and when its body is not JSON, a
      visit to /portal/app/ and /portal/servicios and a second descriptor GET, whose
      non-JSON body gives `{}`. Connection failures propagate. */
  function ServiceInfoRun(respond: Responder, t: Transport, cuit: string): (run: Run<map<string, Json>>)
    ensures t.trace < run.transport.trace && 1 <= Added(t, run.transport) <= 4
    ensures run.transport.trace[|t.trace|] == ApiGet(ServiceUrl(cuit), true)
    ensures run.result.Success? ==> Added(t, run.transport) == 1 || Added(t, run.transport) == 4
    ensures forall k :: |t.trace| <= k < |run.transport.trace| ==> run.transport.trace[k].url in {ServiceUrl(cuit), AppUrl, ServiciosUrl}
    ensures Added(t, run.transport) == 1 ==>
      match Reply(respond, run.transport.trace)
      case Failure(m) => run.result == Failure(TransportError(m))
      case Success(resp) => resp.json.Some? && run.result == Success(resp.json.value)
    ensures run.result.Success? && Added(t, run.transport) == 4 ==>
      run.transport.trace[|t.trace| + 1..] == [PlainGet(AppUrl), PlainGet(ServiciosUrl), ApiGet(ServiceUrl(cuit), false)] &&
      run.result.value == ParsedReply(respond, run.transport.trace).GetOr(map[])
  {
    var (t1, r1) := Exchange(respond, t, ApiGet(ServiceUrl(cuit), true));
    match r1
    case Failure(e) => Run(t1, Failure(e))
    case Success(resp1) =>
      if resp1.json.Some? then Run(t1, Success(resp1.json.value))
      else
        var run := ServiceInfoRetry(respond, t1, cuit);
        assert run.transport.trace[|t1.trace|..] == run.transport.trace[|t.trace| + 1..];
        run
  }

  /** The check in `get_token_sign`: a non-empty service description whose "servicio"
      (default `{}`) names senasa_traapi. A "servicio" that is not an object has no
      `.get`, which raises. */
  function ServiceAvailable(info: map<string, Json>): (r: Result<bool, Error>)
    ensures info == map[] ==> r == Success(false)
    ensures r == Success(true) <==>
      "servicio" in info && info["servicio"].JObj? &&
      "serviceName" in info["servicio"].fields && info["servicio"].fields["serviceName"] == JStr(ServiceName)
    ensures r.Failure? ==> r.error == AttributeError
  {
    if info == map[] then Success(false)
    else
      var servicio := if "servicio" in info then info["servicio"] else JObj(map[]);
      match servicio
      case JObj(f) => Success("serviceName" in f && f["serviceName"] == JStr(ServiceName))
      case _ => Failure(AttributeError)
  }

  /** `_portal_get_authorization`: the authorization GET, and when its body is not JSON a
      visit to /portal/servicios and a second GET whose parse failure propagates; then
      both "token" and "sign" must be keys of the data (their values are not checked). */
  function AuthorizationRun(respond: Responder, t: Transport, cuit: string): (run: Run<(Json, Json)>)
    ensures t.trace < run.transport.trace && 1 <= Added(t, run.transport) <= 3
    ensures run.transport.trace[|t.trace|] == ApiGet(AuthorizationUrl(cuit), true)
    ensures Added(t, run.transport) == 3 ==>
      run.transport.trace[|t.trace| + 1..] == [PlainGet(ServiciosUrl), ApiGet(AuthorizationUrl(cuit), false)]
    ensures run.result.Success? <==>
      var data := ParsedReply(respond, run.transport.trace);
      data.Some? && "token" in data.value && "sign" in data.value
    ensures run.result.Success? ==>
      var data := ParsedReply(respond, run.transport.trace).value;
      run.result.value == (data["token"], data["sign"])
  {
    var (t1, r1) := Exchange(respond, t, ApiGet(AuthorizationUrl(cuit), true));
    match r1
    case Failure(e) => Run(t1, Failure(e))
    case Success(resp1) =>
      if resp1.json.Some? then Run(t1, CheckAuthorization(resp1.json.value))
      else
        var (t2, r2) := Exchange(respond, t1, PlainGet(ServiciosUrl));
        if r2.Failure? then Run(t2, Failure(r2.error))
        else
          var (t3, r3) := Exchange(respond, t2, ApiGet(AuthorizationUrl(cuit), false));
          match r3
          case Failure(e) => Run(t3, Failure(e))
          case Success(resp3) =>
            match resp3.json
            case None => Run(t3, Failure(JsonDecodeError))
            case Some(data) => Run(t3, CheckAuthorization(data))
  }

  function CheckAuthorization(data: map<string, Json>): (r: Result<(Json, Json), Error>)
    ensures r.Success? <==> "token" in data && "sign" in data
    ensures r.Success? ==> r.value == (data["token"], data["sign"])
    ensures r.Failure? ==> r.error == RuntimeError(NoAuthorization)
  {
    if data == map[] || "token" !in data || "sign" !in data then Failure(RuntimeError(NoAuthorization))
    else Success((data["token"], data["sign"]))
  }

  /** The Portal CF fallback: open the app, read the service description, check it,
      then ask for the authorization. Nothing here is caught. */
  function PortalFallback(respond: Responder, t: Transport, cuit: string): (run: Run<(Json, Json)>)
    ensures t.trace < run.transport.trace
    ensures run.transport.trace[|t.trace|] == OpenAppRequest()
  {
    var (t1, r1) := Exchange(respond, t, OpenAppRequest());
    if r1.Failure? then Run(t1, Failure(r1.error))
    else
      var info := ServiceInfoRun(respond, t1, cuit);
      match info.result
      case Failure(e) => Run(info.transport, Failure(e))
      case Success(m) =>
        match ServiceAvailable(m)
        case Failure(e) => Run(info.transport, Failure(e))
        case Success(ok) =>
          if !ok then Run(info.transport, Failure(RuntimeError(ServiceUnavailable)))
          else AuthorizationRun(respond, info.transport, cuit)
  }

  /** `get_token_sign`: the JSF attempt, whose exceptions are swallowed; its token and
      sign when both are non-empty, otherwise the Portal CF fallback. */
  function UnifiedRun(respond: Responder, urljoin: UrlJoin, t: Transport, cuit: string, password: string)
    : (run: Run<(Json, Json)>)
    ensures t.trace < run.transport.trace
    ensures run.transport.trace[|t.trace|] == InitialRequest()
  {
    var jsf := JsfAttempt(respond, urljoin, t, cuit, password);
    if JsfDelivered(jsf) then Run(jsf.transport, Success((JStr(jsf.result.value.1), JStr(jsf.result.value.2))))
    else PortalFallback(respond, jsf.transport, cuit)
  }

  /** A JSF success ends the run: its token and sign are returned as strings and no
      Portal CF request follows the three JSF requests. */
  lemma JsfSuccessSkipsPortal(respond: Responder, urljoin: UrlJoin, t: Transport, cuit: string, password: string)
    requires JsfDelivered(JsfAttempt(respond, urljoin, t, cuit, password))
    ensures var run := UnifiedRun(respond, urljoin, t, cuit, password);
      var ts := JsfAttempt(respond, urljoin, t, cuit, password).result.value;
      Added(t, run.transport) == 3 && run.result == Success((JStr(ts.1), JStr(ts.2))) &&
      ts.1 == UnifiedTokenSign(Reply(respond, run.transport.trace).value.doc).1
  {
    var jsf := JsfAttempt(respond, urljoin, t, cuit, password);
    assert UnifiedRun(respond, urljoin, t, cuit, password) == Run(jsf.transport, Success((JStr(jsf.result.value.1), JStr(jsf.result.value.2))));
  }

  /** Any JSF exception or an empty token/sign leads to the fallback: the JSF requests
      are followed at once by the Portal CF app page. */
  lemma JsfFailureFallsBack(respond: Responder, urljoin: UrlJoin, t: Transport, cuit: string, password: string)
    requires !JsfDelivered(JsfAttempt(respond, urljoin, t, cuit, password))
    ensures var jsf := JsfAttempt(respond, urljoin, t, cuit, password);
      var run := UnifiedRun(respond, urljoin, t, cuit, password);
      jsf.transport.trace < run.transport.trace && run.transport.trace[|jsf.transport.trace|] == OpenAppRequest()
  {
  }

  /** Both JSF POSTs send the configured CUIT: the CUIT POST carries the login page's
      step, the password POST goes to the action the CUIT page supplied, with its
      ViewState, and names the CUIT action URL as Referer. */
  lemma UnifiedPasswordStepUsesCuitPage(respond: Responder, urljoin: UrlJoin, t: Transport, cuit: string, password: string)
    ensures var run := JsfAttempt(respond, urljoin, t, cuit, password);
      var tr := run.transport.trace; var n := |t.trace|;
      Added(t, run.transport) == 3 ==>
        StepAfter(respond, urljoin, tr, n).Some? && StepAfter(respond, urljoin, tr, n + 1).Some? &&
        tr[n + 1] == CuitRequest(cuit, StepAfter(respond, urljoin, tr, n).value) &&
        tr[n + 2] == PasswordRequest(cuit, password, StepAfter(respond, urljoin, tr, n + 1).value, tr[n + 1].url) &&
        tr[n + 1].data["F1:username"] == cuit && tr[n + 2].data["F1:username"] == cuit
  {
    var run := JsfAttempt(respond, urljoin, t, cuit, password);
    var n := |t.trace|;
    var r1 := FormStep(respond, urljoin, t, InitialRequest(), UnifiedInitialFailure);
    FormStepHandsOn(respond, urljoin, t, InitialRequest(), UnifiedInitialFailure);
    if r1.result.Success? {
      var s1 := r1.result.value;
      assert run == UnifiedAfterLogin(respond, urljoin, r1.transport, cuit, password, s1);
      StepAfterPrefix(respond, urljoin, r1.transport.trace, run.transport.trace, n);
      var r2 := FormStep(respond, urljoin, r1.transport, CuitRequest(cuit, s1), UnifiedPasswordPageFailure);
      FormStepHandsOn(respond, urljoin, r1.transport, CuitRequest(cuit, s1), UnifiedPasswordPageFailure);
      if r2.result.Success? {
        assert run == UnifiedPasswordStep(respond, r2.transport, cuit, password, r2.result.value, s1.action);
        StepAfterPrefix(respond, urljoin, r2.transport.trace, run.transport.trace, n + 1);
        assert run.transport.trace[n + 1] == CuitRequest(cuit, s1);
        RequestsCarryUsername(cuit, password, s1, r2.result.value, s1.action);
      }
    }
  }

  /** The service check as the fallback performs it after opening the app. */
  predicate ServiceCheckPasses(respond: Responder, t: Transport, cuit: string) {
    var (t1, r1) := Exchange(respond, t, OpenAppRequest());
    r1.Success? &&
    var info := ServiceInfoRun(respond, t1, cuit);
    info.result.Success? && ServiceAvailable(info.result.value) == Success(true)
  }

  lemma AuthorizationUrlIsLongest(cuit: string)
    ensures |AuthorizationUrl(cuit)| > |ServiceUrl(cuit)| > |ServiciosUrl| > |AppUrl|
  {
  }

  /** The fallback requests the authorization only once the service check has passed;
      when it fails the run ends in an error. */
  lemma FallbackGatesAuthorization(respond: Responder, t: Transport, cuit: string)
    ensures var run := PortalFallback(respond, t, cuit);
      !ServiceCheckPasses(respond, t, cuit) ==>
        run.result.Failure? &&
        forall k :: |t.trace| <= k < |run.transport.trace| ==> run.transport.trace[k].url != AuthorizationUrl(cuit)
  {
    var run := PortalFallback(respond, t, cuit);
    if !ServiceCheckPasses(respond, t, cuit) {
      AuthorizationUrlIsLongest(cuit);
      var n := |t.trace|;
      var (t1, r1) := Exchange(respond, t, OpenAppRequest());
      if r1.Success? {
        var info := ServiceInfoRun(respond, t1, cuit);
        assert run.transport == info.transport;
        forall k | n <= k < |run.transport.trace|
          ensures run.transport.trace[k].url != AuthorizationUrl(cuit)
        {
          if k > n {
            assert run.transport.trace[k].url in {ServiceUrl(cuit), AppUrl, ServiciosUrl};
          }
        }
      }
    }
  }

  /** Two non-JSON service descriptions give `{}`, which the check rejects. */
  lemma NonJsonServiceInfoRaises(respond: Responder, t: Transport, cuit: string)
    requires var (t1, _) := Exchange(respond, t, OpenAppRequest());
      var info := ServiceInfoRun(respond, t1, cuit);
      Reply(respond, t1.trace).Success? && info.result.Success? && ParsedReply(respond, info.transport.trace).None?
    ensures PortalFallback(respond, t, cuit).result == Failure(RuntimeError(ServiceUnavailable))
  {
  }

  /** A server none of whose replies carries a JSON body: how the fallback sees every
      server, since the port's HttpResponse has no `json` method and each `resp.json()`
      raises. */
  ghost predicate NoJsonReplies(respond: Responder) {
    forall tr: seq<Request> :: respond(tr).Success? ==> respond(tr).value.json.None?
  }

  /** As written: with no JSON reply the fallback can never pass the service check, so it
      fails without ever asking for the authorization. */
  lemma NoJsonFallbackNeverAuthorizes(respond: Responder, t: Transport, cuit: string)
    requires NoJsonReplies(respond)
    ensures var run := PortalFallback(respond, t, cuit);
      run.result.Failure? &&
      forall k :: |t.trace| <= k < |run.transport.trace| ==> run.transport.trace[k].url != AuthorizationUrl(cuit)
  {
    var (t1, r1) := Exchange(respond, t, OpenAppRequest());
    if r1.Success? {
      var info := ServiceInfoRun(respond, t1, cuit);
      if info.result.Success? {
        var tr := info.transport.trace;
        assert respond(tr).Success? ==> respond(tr).value.json.None?;
        assert info.result.value == map[];
      }
    }
    FallbackGatesAuthorization(respond, t, cuit);
  }

  /** As intended: once the descriptor reply parses to a service description naming
      senasa_traapi, the fallback goes straight on to the authorization GET. */
  lemma JsonDescriptorReachesAuthorization(respond: Responder, t: Transport, cuit: string, info: map<string, Json>)
    requires respond(t.trace + [OpenAppRequest()]).Success?
    requires var tr := t.trace + [OpenAppRequest(), ApiGet(ServiceUrl(cuit), true)];
      respond(tr).Success? && respond(tr).value.json == Some(info)
    requires "servicio" in info && info["servicio"].JObj? &&
             "serviceName" in info["servicio"].fields && info["servicio"].fields["serviceName"] == JStr(ServiceName)
    ensures var run := PortalFallback(respond, t, cuit);
      |run.transport.trace| > |t.trace| + 2 &&
      run.transport.trace[|t.trace| + 2] == ApiGet(AuthorizationUrl(cuit), true) &&
      run == AuthorizationRun(respond, Exchange(respond, Exchange(respond, t, OpenAppRequest()).0, ApiGet(ServiceUrl(cuit), true)).0, cuit)
  {
    var (t1, r1) := Exchange(respond, t, OpenAppRequest());
    var (t2, r2) := Exchange(respond, t1, ApiGet(ServiceUrl(cuit), true));
    assert t2.trace == t.trace + [OpenAppRequest(), ApiGet(ServiceUrl(cuit), true)];
    var infoRun := ServiceInfoRun(respond, t1, cuit);
    assert infoRun == Run(t2, Success(info));
    assert ServiceAvailable(info) == Success(true);
  }

  class UnifiedAfipProvider {
    const http: HttpClient
    const cuit: string
    const password: string
    const urljoin: UrlJoin

    constructor (http: HttpClient, cuit: string, password: string, urljoin: UrlJoin)
      ensures this.http == http && this.cuit == cuit && this.password == password && this.urljoin == urljoin
    {
      this.http := http;
      this.cuit := cuit;
      this.password := password;
      this.urljoin := urljoin;
    }

    method PostPassword(s: Step, referer: string) returns (r: Result<(string, string, string), Error>)
      modifies http
      ensures Run(http.State(), r) == UnifiedPasswordStep(http.respond, old(http.State()), cuit, password, s, referer)
    {
      var resp := http.Send(PasswordRequest(cuit, password, s, referer));
      if resp.Failure? {
        return Failure(resp.error);
      }
      r := Success(UnifiedTokenSign(resp.value.doc));
    }

    method TryJsf() returns (r: Result<(string, string, string), Error>)
      modifies http
      ensures Run(http.State(), r) == JsfAttempt(http.respond, urljoin, old(http.State()), cuit, password)
    {
      var s1 :- SubmitFormStep(http, urljoin, InitialRequest(), UnifiedInitialFailure);
      var s2 :- SubmitFormStep(http, urljoin, CuitRequest(cuit, s1), UnifiedPasswordPageFailure);
      r := PostPassword(s2, s1.action);
    }

    method PortalGetServiceInfo() returns (r: Result<map<string, Json>, Error>)
      modifies http
      ensures Run(http.State(), r) == ServiceInfoRun(http.respond, old(http.State()), cuit)
    {
      var resp :- http.Send(ApiGet(ServiceUrl(cuit), true));
      if resp.json.Some? {
        return Success(resp.json.value);
      }
      var _ :- http.Send(PlainGet(AppUrl));
      var _ :- http.Send(PlainGet(ServiciosUrl));
      var resp2 :- http.Send(ApiGet(ServiceUrl(cuit), false));
      r := Success(resp2.json.GetOr(map[]));
    }

    method PortalGetAuthorization() returns (r: Result<(Json, Json), Error>)
      modifies http
      ensures Run(http.State(), r) == AuthorizationRun(http.respond, old(http.State()), cuit)
    {
      var resp :- http.Send(ApiGet(AuthorizationUrl(cuit), true));
      var data: map<string, Json>;
      if resp.json.Some? {
        data := resp.json.value;
      } else {
        var _ :- http.Send(PlainGet(ServiciosUrl));
        var resp2 :- http.Send(ApiGet(AuthorizationUrl(cuit), false));
        if resp2.json.None? {
          return Failure(JsonDecodeError);
        }
        data := resp2.json.value;
      }
      r := CheckAuthorization(data);
    }

    /** The Portal CF half of `get_token_sign`, run once the JSF attempt has given up. */
    method PortalCfFallback() returns (r: Result<(Json, Json), Error>)
      modifies http
      ensures Run(http.State(), r) == PortalFallback(http.respond, old(http.State()), cuit)
    {
      var _ :- http.Send(OpenAppRequest());
      var info :- PortalGetServiceInfo();
      var ok :- ServiceAvailable(info);
      if !ok {
        return Failure(RuntimeError(ServiceUnavailable));
      }
      r := PortalGetAuthorization();
    }

    method GetTokenSign() returns (r: Result<(Json, Json), Error>)
      modifies http
      ensures Run(http.State(), r) == UnifiedRun(http.respond, urljoin, old(http.State()), cuit, password)
    {
      var jsf := TryJsf();
      if jsf.Success? && jsf.value.1 != "" && jsf.value.2 != "" {
        return Success((JStr(jsf.value.1), JStr(jsf.value.2)));
      }
      r := PortalCfFallback();
    }
  }
}
