/** The AFIP "JSF" login (src/senasa_pipeline/infrastructure/adapters/afip/jsf_provider.py):
    three form submissions against auth.afip.gob.ar, from the login page to the CUIT page
    to the password page, whose reply carries the token/sign form. The request builders
    and the ViewState/action step are shared with the unified provider, which repeats
    the same first two steps. */
module AfipJsf {
  import opened Wrappers
  import opened Http
  import opened Markup

  /** `urllib.parse.urljoin`, left uninterpreted. */
  type UrlJoin = (string, string) -> string

  const AfipBase := "https://auth.afip.gob.ar"
  const AfipLoginUrl := AfipBase + "/contribuyente_/login.xhtml?action=SYSTEM&system=senasa_traapi"
  const ViewStateField := "javax.faces.ViewState"
  const FormUrlEncoded := "application/x-www-form-urlencoded"

  const InitialFailure := "AFIP JSF: no se pudo extraer ViewState/action inicial"
  const PasswordPageFailure := "AFIP JSF: no se pudo extraer ViewState/action de contraseña"
  const NoTokenSignFailure := "AFIP JSF: no se pudo obtener token/sign tras login"

  /** What a JSF page hands to the next submission: its ViewState and the absolute
      action URL of form F1. */
  datatype Step = Step(viewState: string, action: string)

  function InitialRequest(): Request {
    Request(GET, AfipLoginUrl, map[],
            map["Sec-Fetch-Dest" := "document", "Sec-Fetch-Mode" := "navigate",
                "Sec-Fetch-Site" := "cross-site", "Sec-Fetch-User" := "?1"],
            true)
  }

  function FormHeaders(referer: string): map<string, string> {
    map["Referer" := referer, "Origin" := AfipBase, "Content-Type" := FormUrlEncoded]
  }

  function CuitRequest(cuit: string, s: Step): Request {
    Request(POST, s.action,
            map["F1" := "F1", "F1:username" := cuit, "F1:btnSiguiente" := "Siguiente",
                ViewStateField := s.viewState],
            FormHeaders(AfipLoginUrl), true)
  }

  function PasswordRequest(cuit: string, password: string, s: Step, referer: string): Request {
    Request(POST, s.action,
            map["F1" := "F1", "F1:captcha" := "", "F1:username" := cuit, "F1:password" := password,
                "F1:btnIngresar" := "Ingresar", ViewStateField := s.viewState],
            FormHeaders(referer), true)
  }

  /** Both POSTs send the configured CUIT as `F1:username`. */
  lemma RequestsCarryUsername(cuit: string, password: string, s1: Step, s2: Step, referer: string)
    ensures CuitRequest(cuit, s1).data["F1:username"] == cuit
    ensures PasswordRequest(cuit, password, s2, referer).data["F1:username"] == cuit
  {
  }

  /** The ViewState input and form F1 of a page; None when the input, the form or the
      form's action is missing. The action is resolved against `base`. */
  function ExtractStep(urljoin: UrlJoin, doc: Document, base: string): (r: Option<Step>)
    ensures r.Some? <==> FindInput(doc.inputs, ViewStateField).Some? && FindFormById(doc.forms, "F1").Some?
                         && TruthyAction(FindFormById(doc.forms, "F1").value).Some?
    ensures r.Some? ==> r.value.action == urljoin(base, FindFormById(doc.forms, "F1").value.action.value)
    ensures r.Some? ==> r.value.viewState == InputValueOrEmpty(doc.inputs, ViewStateField)
  {
    match FindInput(doc.inputs, ViewStateField)
    case None => None
    case Some(vs) =>
      match FindFormById(doc.forms, "F1")
      case None => None
      case Some(f1) =>
        match TruthyAction(f1)
        case None => None
        case Some(action) => Some(Step(vs.value.GetOr(""), urljoin(base, action)))
  }

  /** A page without a ViewState input or without a form F1 yields no step. */
  lemma ExtractStepNeedsViewStateAndF1(urljoin: UrlJoin, doc: Document, base: string)
    ensures ExtractStep(urljoin, doc, base).Some? ==>
      exists i :: 0 <= i < |doc.inputs| && doc.inputs[i].name == Some(ViewStateField)
    ensures ExtractStep(urljoin, doc, base).Some? ==>
      exists i :: 0 <= i < |doc.forms| && doc.forms[i].id == Some("F1")
  {
  }

  /** The server's reply to the last request of `trace`. */
  function Reply(respond: Responder, trace: seq<Request>): Result<HttpResponse, string>
    requires trace != []
  {
    respond(trace)
  }

  /** One JSF form step: send `req`, then read the next ViewState and F1 action from the
      reply, resolving the action against the URL just posted to. */
  function FormStep(respond: Responder, urljoin: UrlJoin, t: Transport, req: Request, failure: string): (run: Run<Step>)
    ensures run.transport.trace == t.trace + [req]
    ensures run.result.Success? <==>
      Reply(respond, run.transport.trace).Success? &&
      ExtractStep(urljoin, Reply(respond, run.transport.trace).value.doc, req.url).Some?
    ensures run.result.Success? ==>
      run.result.value == ExtractStep(urljoin, Reply(respond, run.transport.trace).value.doc, req.url).value
    ensures run.result.Failure? ==>
      if Reply(respond, run.transport.trace).Success? then run.result.error == RuntimeError(failure)
      else run.result.error == TransportError(Reply(respond, run.transport.trace).error)
  {
    var (t1, r) := Exchange(respond, t, req);
    match r
    case Failure(e) => Run(t1, Failure(e))
    case Success(resp) =>
      match ExtractStep(urljoin, resp.doc, req.url)
      case None => Run(t1, Failure(RuntimeError(failure)))
      case Some(s) => Run(t1, Success(s))
  }

  /** `_post_password`'s reading of the reply: form "myform", else the first form; no
      form gives ("", ""), and a missing token or sign input gives "" for it. */
  function JsfTokenSign(doc: Document): (r: (string, string))
    ensures doc.forms == [] ==> r == ("", "")
    ensures doc.forms != [] ==>
      var f := FindFormByNameOrFirst(doc.forms, "myform").value;
      r == (InputValueOrEmpty(f.inputs, "token"), InputValueOrEmpty(f.inputs, "sign"))
  {
    match FindFormByNameOrFirst(doc.forms, "myform")
    case None => ("", "")
    case Some(f) => (InputValueOrEmpty(f.inputs, "token"), InputValueOrEmpty(f.inputs, "sign"))
  }

  function JsfPasswordStep(respond: Responder, t: Transport, cuit: string, password: string, s: Step, referer: string)
    : (run: Run<(string, string)>)
    ensures run.transport.trace == t.trace + [PasswordRequest(cuit, password, s, referer)]
    ensures run.result.Success? <==> Reply(respond, run.transport.trace).Success?
    ensures run.result.Success? ==> run.result.value == JsfTokenSign(Reply(respond, run.transport.trace).value.doc)
  {
    var (t1, r) := Exchange(respond, t, PasswordRequest(cuit, password, s, referer));
    match r
    case Failure(e) => Run(t1, Failure(e))
    case Success(resp) => Run(t1, Success(JsfTokenSign(resp.doc)))
  }

  /** The number of requests a run added to the trace it started from. */
  function Added(t: Transport, after: Transport): int {
    |after.trace| - |t.trace|
  }

  /** The last step of `get_token_sign`: the password POST, and the final error when the
      token or the sign of its reply is empty. */
  function JsfFinish(respond: Responder, t: Transport, cuit: string, password: string, s: Step, referer: string)
    : (run: Run<(string, string)>)
    ensures run.transport.trace == t.trace + [PasswordRequest(cuit, password, s, referer)]
    ensures run.result.Success? <==>
      Reply(respond, run.transport.trace).Success? &&
      JsfTokenSign(Reply(respond, run.transport.trace).value.doc).0 != "" &&
      JsfTokenSign(Reply(respond, run.transport.trace).value.doc).1 != ""
    ensures run.result.Success? ==> run.result.value == JsfTokenSign(Reply(respond, run.transport.trace).value.doc)
  {
    var r3 := JsfPasswordStep(respond, t, cuit, password, s, referer);
    match r3.result
    case Failure(e) => Run(r3.transport, Failure(e))
    case Success(ts) =>
      if ts.0 == "" || ts.1 == "" then Run(r3.transport, Failure(RuntimeError(NoTokenSignFailure)))
      else Run(r3.transport, Success(ts))
  }

  /** The steps after the login page: the CUIT POST built from its step `s1`, then the
      password POST built from the CUIT page's step, with `s1`'s action as Referer. */
  function JsfAfterLogin(respond: Responder, urljoin: UrlJoin, t: Transport, cuit: string, password: string, s1: Step)
    : (run: Run<(string, string)>)
    ensures t.trace + [CuitRequest(cuit, s1)] <= run.transport.trace
    ensures |run.transport.trace| <= |t.trace| + 2
    ensures run.result.Success? ==>
      |run.transport.trace| == |t.trace| + 2 && run.result.value.0 != "" && run.result.value.1 != ""
  {
    var r2 := FormStep(respond, urljoin, t, CuitRequest(cuit, s1), PasswordPageFailure);
    match r2.result
    case Failure(e) => Run(r2.transport, Failure(e))
    case Success(s2) => JsfFinish(respond, r2.transport, cuit, password, s2, s1.action)
  }

  /** `get_token_sign`: the three steps in order, each failure propagating unchanged,
      and a final error when the token or the sign is empty. */
  function JsfRun(respond: Responder, urljoin: UrlJoin, t: Transport, cuit: string, password: string)
    : (run: Run<(string, string)>)
    ensures t.trace < run.transport.trace && 1 <= Added(t, run.transport) <= 3
    ensures run.transport.trace[|t.trace|] == InitialRequest()
    ensures run.result.Success? ==> Added(t, run.transport) == 3 && run.result.value.0 != "" && run.result.value.1 != ""
  {
    var r1 := FormStep(respond, urljoin, t, InitialRequest(), InitialFailure);
    match r1.result
    case Failure(e) => Run(r1.transport, Failure(e))
    case Success(s1) =>
      JsfAfterLogin(respond, urljoin, r1.transport, cuit, password, s1)
  }

  /** The step a reply hands on, read from the reply to the request at index `k`. */
  function StepAfter(respond: Responder, urljoin: UrlJoin, trace: seq<Request>, k: nat): Option<Step>
    requires k < |trace|
  {
    match Reply(respond, trace[..k + 1])
    case Failure(_) => None
    case Success(resp) => ExtractStep(urljoin, resp.doc, trace[k].url)
  }

  /** A longer trace hands on the same step at an index both share. */
  lemma StepAfterPrefix(respond: Responder, urljoin: UrlJoin, p: seq<Request>, tr: seq<Request>, k: nat)
    requires p <= tr && k < |p|
    ensures StepAfter(respond, urljoin, tr, k) == StepAfter(respond, urljoin, p, k)
  {
    assert tr[..k + 1] == p[..k + 1];
  }

  /** A form step succeeds exactly when the reply to its request hands on a step, and
      that step is its value. */
  lemma FormStepHandsOn(respond: Responder, urljoin: UrlJoin, t: Transport, req: Request, failure: string)
    ensures var run := FormStep(respond, urljoin, t, req, failure);
      StepAfter(respond, urljoin, run.transport.trace, |t.trace|) ==
        if run.result.Success? then Some(run.result.value) else None
  {
    var run := FormStep(respond, urljoin, t, req, failure);
    assert run.transport.trace[..|t.trace| + 1] == run.transport.trace;
  }

  /** The CUIT POST carries the ViewState and goes to the action that the login page
      supplied, with the configured CUIT. */
  lemma JsfCuitStepUsesLoginPage(respond: Responder, urljoin: UrlJoin, t: Transport, cuit: string, password: string)
    ensures var run := JsfRun(respond, urljoin, t, cuit, password);
      var tr := run.transport.trace; var n := |t.trace|;
      Added(t, run.transport) >= 2 ==>
        StepAfter(respond, urljoin, tr, n).Some? &&
        tr[n + 1] == CuitRequest(cuit, StepAfter(respond, urljoin, tr, n).value)
  {
    var run := JsfRun(respond, urljoin, t, cuit, password);
    var n := |t.trace|;
    var r1 := FormStep(respond, urljoin, t, InitialRequest(), InitialFailure);
    FormStepHandsOn(respond, urljoin, t, InitialRequest(), InitialFailure);
    if r1.result.Success? {
      var s1 := r1.result.value;
      assert run == JsfAfterLogin(respond, urljoin, r1.transport, cuit, password, s1);
      StepAfterPrefix(respond, urljoin, r1.transport.trace, run.transport.trace, n);
      assert run.transport.trace[n + 1] == CuitRequest(cuit, s1);
    }
  }

  /** The password POST carries the ViewState and goes to the action that the CUIT page
      supplied, with the configured CUIT, and names the CUIT action URL as its Referer. */
  lemma JsfPasswordStepUsesCuitPage(respond: Responder, urljoin: UrlJoin, t: Transport, cuit: string, password: string)
    ensures var run := JsfRun(respond, urljoin, t, cuit, password);
      var tr := run.transport.trace; var n := |t.trace|;
      Added(t, run.transport) == 3 ==>
        StepAfter(respond, urljoin, tr, n + 1).Some? &&
        tr[n + 2] == PasswordRequest(cuit, password, StepAfter(respond, urljoin, tr, n + 1).value, tr[n + 1].url)
  {
    var run := JsfRun(respond, urljoin, t, cuit, password);
    var n := |t.trace|;
    var r1 := FormStep(respond, urljoin, t, InitialRequest(), InitialFailure);
    if r1.result.Success? {
      var s1 := r1.result.value;
      assert run == JsfAfterLogin(respond, urljoin, r1.transport, cuit, password, s1);
      var r2 := FormStep(respond, urljoin, r1.transport, CuitRequest(cuit, s1), PasswordPageFailure);
      FormStepHandsOn(respond, urljoin, r1.transport, CuitRequest(cuit, s1), PasswordPageFailure);
      if r2.result.Success? {
        var finish := JsfFinish(respond, r2.transport, cuit, password, r2.result.value, s1.action);
        assert run == finish;
        StepAfterPrefix(respond, urljoin, r2.transport.trace, run.transport.trace, n + 1);
        assert run.transport.trace[n + 1] == CuitRequest(cuit, s1);
      }
    }
  }

  /** `get_token_sign` succeeds exactly when all three replies arrive, both pages yield a
      ViewState and an F1 action, and the last page's token and sign are non-empty; its
      value is then that token and sign. */
  lemma JsfSucceedsIff(respond: Responder, urljoin: UrlJoin, t: Transport, cuit: string, password: string)
    ensures var run := JsfRun(respond, urljoin, t, cuit, password);
      var tr := run.transport.trace; var n := |t.trace|;
      run.result.Success? <==>
        Added(t, run.transport) == 3 &&
        StepAfter(respond, urljoin, tr, n).Some? && StepAfter(respond, urljoin, tr, n + 1).Some? &&
        Reply(respond, tr).Success? &&
        JsfTokenSign(Reply(respond, tr).value.doc).0 != "" && JsfTokenSign(Reply(respond, tr).value.doc).1 != ""
    ensures var run := JsfRun(respond, urljoin, t, cuit, password);
      run.result.Success? ==> run.result.value == JsfTokenSign(Reply(respond, run.transport.trace).value.doc)
  {
    var run := JsfRun(respond, urljoin, t, cuit, password);
    var n := |t.trace|;
    var r1 := FormStep(respond, urljoin, t, InitialRequest(), InitialFailure);
    FormStepHandsOn(respond, urljoin, t, InitialRequest(), InitialFailure);
    StepAfterPrefix(respond, urljoin, r1.transport.trace, run.transport.trace, n);
    if r1.result.Success? {
      var s1 := r1.result.value;
      assert run == JsfAfterLogin(respond, urljoin, r1.transport, cuit, password, s1);
      var r2 := FormStep(respond, urljoin, r1.transport, CuitRequest(cuit, s1), PasswordPageFailure);
      FormStepHandsOn(respond, urljoin, r1.transport, CuitRequest(cuit, s1), PasswordPageFailure);
      if r2.result.Success? {
        assert run == JsfFinish(respond, r2.transport, cuit, password, r2.result.value, s1.action);
        StepAfterPrefix(respond, urljoin, r2.transport.trace, run.transport.trace, n + 1);
      }
    }
  }

  /** One form step against the live client: the step shared by the two JSF providers. */
  method SubmitFormStep(http: HttpClient, urljoin: UrlJoin, req: Request, failure: string) returns (r: Result<Step, Error>)
    modifies http
    ensures Run(http.State(), r) == FormStep(http.respond, urljoin, old(http.State()), req, failure)
  {
    var resp := http.Send(req);
    if resp.Failure? {
      return Failure(resp.error);
    }
    match ExtractStep(urljoin, resp.value.doc, req.url)
    case None => r := Failure(RuntimeError(failure));
    case Some(s) => r := Success(s);
  }

  class JSFProvider {
    const http: HttpClient
    const cuit: string
    const password: string
    const urljoin: UrlJoin

    constructor (http: HttpClient, cuit: string, password: string, urljoin: UrlJoin)
      ensures this.http == http && this.cuit == cuit && this.password == password && this.urljoin == urljoin
    {
      this.http := http;
      this.cuit := cuit;
      this.password := password;
      this.urljoin := urljoin;
    }

    method GetInitialAfipCuitPage() returns (r: Result<Step, Error>)
      modifies http
      ensures Run(http.State(), r) == FormStep(http.respond, urljoin, old(http.State()), InitialRequest(), InitialFailure)
    {
      r := SubmitFormStep(http, urljoin, InitialRequest(), InitialFailure);
    }

    method PostCuit(s: Step) returns (r: Result<Step, Error>)
      modifies http
      ensures Run(http.State(), r) == FormStep(http.respond, urljoin, old(http.State()), CuitRequest(cuit, s), PasswordPageFailure)
    {
      r := SubmitFormStep(http, urljoin, CuitRequest(cuit, s), PasswordPageFailure);
    }

    method PostPassword(s: Step, referer: string) returns (r: Result<(string, string), Error>)
      modifies http
      ensures Run(http.State(), r) == JsfPasswordStep(http.respond, old(http.State()), cuit, password, s, referer)
    {
      var resp := http.Send(PasswordRequest(cuit, password, s, referer));
      if resp.Failure? {
        return Failure(resp.error);
      }
      r := Success(JsfTokenSign(resp.value.doc));
    }

    method GetTokenSign() returns (r: Result<(string, string), Error>)
      modifies http
      ensures Run(http.State(), r) == JsfRun(http.respond, urljoin, old(http.State()), cuit, password)
    {
      var s1 :- GetInitialAfipCuitPage();
      var s2 :- PostCuit(s1);
      var ts :- PostPassword(s2, s1.action);
      if ts.0 == "" || ts.1 == "" {
        return Failure(RuntimeError(NoTokenSignFailure));
      }
      r := Success(ts);
    }
  }
}
