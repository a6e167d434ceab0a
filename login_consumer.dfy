/** The SENASA login consumer (src/senasa_pipeline/infrastructure/adapters/senasa/login_consumer.py):
    it hands the AFIP token/sign to trazabilidadapicola.senasa.gob.ar, submits the
    intermediate token/sign form when the login page shows one, selects the cooperative's
    AFIP account with an ASP.NET partial postback, and keeps the client's cookies. A
    probe of a protected page tells a live session from an expired one. */
module SenasaLogin {
  import opened Wrappers
  import opened Sequences
  import opened Http
  import opened Markup

  type UrlJoin = (string, string) -> string

  const SenasaBase := "https://trazabilidadapicola.senasa.gob.ar"
  const LoginUrl := SenasaBase + "/Login.aspx?from=afip"
  const ProbeUrl := SenasaBase + "/Sur/Extracciones/List"
  const FormUrlEncoded := "application/x-www-form-urlencoded"
  /** The markup id of the cooperative's account button. */
  const DefaultButtonId := "ctl00_MasterEditBox_ucLogin_rptUsuariosAfip_ctl05_btnLoginAfip"
  const AccountName := "COOP. APICOLA DEL PARANA"
  const RedirectStatuses: set<int> := {301, 302, 303, 307, 308}

  // ---------- the session probe ----------

  /** `validate_session`'s verdict on the probe's status, Location header and body. */
  function ClassifyProbe(status: int, location: string, body: string): (r: bool)
    ensures r <==> status == 200 && Contains(body, "__VIEWSTATE")
    ensures status in RedirectStatuses && Contains(location, "/Login.aspx") ==> !r
  {
    var viewstatePresent := Contains(body, "name=\"__VIEWSTATE\"") || Contains(body, "__VIEWSTATE");
    ViewStateMarkerSubsumed(body);
    if status in RedirectStatuses && Contains(location, "/Login.aspx") then false
    else status == 200 && viewstatePresent
  }

  /** The quoted attribute form of the marker contains the bare marker, so the first test
      of `viewstate_present` never decides anything the second would not. */
  lemma ViewStateMarkerSubsumed(body: string)
    ensures Contains(body, "name=\"__VIEWSTATE\"") ==> Contains(body, "__VIEWSTATE")
  {
    if Contains(body, "name=\"__VIEWSTATE\"") {
      assert OccursAt("name=\"__VIEWSTATE\"", "__VIEWSTATE", 6);
      ContainsTransitive(body, "name=\"__VIEWSTATE\"", "__VIEWSTATE");
    }
  }

  /** `headers.get("Location", "")` */
  function Location(resp: HttpResponse): string {
    if "Location" in resp.headers then resp.headers["Location"] else ""
  }

  function ProbeRequest(): Request {
    Request(GET, ProbeUrl, map[], map[], false)
  }

  function ProbeRun(respond: Responder, t: Transport): (run: Run<bool>)
    ensures run.transport.trace == t.trace + [ProbeRequest()]
    ensures run.result.Success? ==>
      respond(run.transport.trace).Success? &&
      var resp := respond(run.transport.trace).value;
      (run.result.value <==> resp.status == 200 && Contains(resp.text, "__VIEWSTATE"))
  {
    var (t1, r) := Exchange(respond, t, ProbeRequest());
    match r
    case Failure(e) => Run(t1, Failure(e))
    case Success(resp) => Run(t1, Success(ClassifyProbe(resp.status, Location(resp), resp.text)))
  }

  // ---------- the account selection ----------

  /** `btn_id.replace('_', '$')` */
  function EventTarget(id: string): (r: string)
    ensures |r| == |id|
    ensures forall i :: 0 <= i < |id| ==> r[i] == if id[i] == '_' then '$' else id[i]
    ensures '_' !in r
  {
    if id == [] then []
    else [if id[0] == '_' then '$' else id[0]] + EventTarget(id[1..])
  }

  /** The account button: the anchor with the fixed id, else the first anchor whose text
      contains the cooperative's name. */
  function FindButton(doc: Document): (r: Option<Anchor>)
    ensures (exists i :: 0 <= i < |doc.anchors| && doc.anchors[i].id == Some(DefaultButtonId)) ==>
      r.Some? && r.value.id == Some(DefaultButtonId)
    ensures r.None? <==>
      (forall i :: 0 <= i < |doc.anchors| ==> doc.anchors[i].id != Some(DefaultButtonId) && !TextContains(doc.anchors[i], AccountName))
  {
    match FindAnchorById(doc.anchors, DefaultButtonId)
    case Some(a) => Some(a)
    case None => FindAnchorWithText(doc.anchors, AccountName)
  }

  /** `btn.get('id', DefaultButtonId)` */
  function ButtonId(btn: Anchor): string {
    btn.id.GetOr(DefaultButtonId)
  }

  const ScriptManagerKey := "ctl00$ScriptManager1"

  /** The keys the selection postback always sets. */
  function Forced(target: string): map<string, string> {
    map[ScriptManagerKey := "ctl00$updatePanelEdit|" + target,
        "__EVENTTARGET" := target,
        "__EVENTARGUMENT" := "",
        "__ASYNCPOST" := "true"]
  }

  /** The keys the selection postback sets only when the page did not supply them. */
  const Defaults: map<string, string> :=
    map["__LASTFOCUS" := "", "__SCROLLPOSITIONX" := "0", "__SCROLLPOSITIONY" := "0",
        "ctl00$hiddenPendingDownload" := ""]

  /** `dict.setdefault(key, value)` */
  function SetDefault(m: map<string, string>, key: string, value: string): (r: map<string, string>)
    ensures key in r && r[key] == (if key in m then m[key] else value)
    ensures forall k :: k in m ==> k in r && r[k] == m[k]
    ensures r.Keys == m.Keys + {key}
  {
    if key in m then m else m[key := value]
  }

  lemma ForcedAndDefaultsDisjoint(target: string)
    ensures Forced(target).Keys !! Defaults.Keys
  {
    assert |"__LASTFOCUS"| == |"__ASYNCPOST"| == 11;
    assert "__LASTFOCUS"[2] != "__ASYNCPOST"[2];
  }

  /** The selection payload: the hidden fields updated with the four postback keys, then
      the four defaults. Since no default is a postback key, this is the defaults
      overridden by the hidden fields, overridden by the postback keys. */
  function SelectionPayload(hidden: map<string, string>, target: string): (p: map<string, string>)
    ensures p == Defaults + hidden + Forced(target)
  {
    ForcedAndDefaultsDisjoint(target);
    var f := Forced(target);
    var updated := hidden + f;
    assert updated == map[] + hidden + f;
    var a := SetDefault(updated, "__LASTFOCUS", "");
    SetDefaultBelow(map[], hidden, f, "__LASTFOCUS", "");
    var d1 := map["__LASTFOCUS" := ""];
    var b := SetDefault(a, "__SCROLLPOSITIONX", "0");
    SetDefaultBelow(d1, hidden, f, "__SCROLLPOSITIONX", "0");
    var d2 := d1["__SCROLLPOSITIONX" := "0"];
    var c := SetDefault(b, "__SCROLLPOSITIONY", "0");
    assert "__SCROLLPOSITIONX"[16] != "__SCROLLPOSITIONY"[16];
    SetDefaultBelow(d2, hidden, f, "__SCROLLPOSITIONY", "0");
    var d3 := d2["__SCROLLPOSITIONY" := "0"];
    SetDefaultBelow(d3, hidden, f, "ctl00$hiddenPendingDownload", "");
    assert d3["ctl00$hiddenPendingDownload" := ""] == Defaults;
    SetDefault(c, "ctl00$hiddenPendingDownload", "")
  }

  /** In the payload the postback keys win, then the hidden fields, then the defaults. */
  lemma SelectionPayloadPrecedence(hidden: map<string, string>, target: string)
    ensures var p := SelectionPayload(hidden, target);
      (forall k :: k in Forced(target) ==> p[k] == Forced(target)[k]) &&
      (forall k :: k in Defaults ==> p[k] == if k in hidden then hidden[k] else Defaults[k]) &&
      (forall k :: k in hidden && k !in Forced(target) ==> p[k] == hidden[k]) &&
      p.Keys == Defaults.Keys + hidden.Keys + Forced(target).Keys
  {
    ForcedAndDefaultsDisjoint(target);
  }

  /** A `setdefault` of a key the postback does not force lands beneath the hidden fields. */
  lemma SetDefaultBelow(d: map<string, string>, h: map<string, string>, f: map<string, string>, key: string, value: string)
    requires key !in f && key !in d
    ensures SetDefault(d + h + f, key, value) == d[key := value] + h + f
  {
  }

  /** `type="hidden"` */
  predicate IsHidden(inp: Input) {
    inp.inputType == Some("hidden")
  }

  /** `if inp.get("name")`: a present, non-empty name. */
  predicate HasTruthyName(inp: Input) {
    inp.name.Some? && inp.name.value != ""
  }

  /** The hidden-field loop over the page's inputs. */
  method CollectHiddenFields(inputs: seq<Input>) returns (hidden: map<string, string>)
    ensures hidden == FieldMap(inputs, IsHidden)
  {
    hidden := map[];
    var i := 0;
    while i < |inputs|
      invariant 0 <= i <= |inputs|
      invariant hidden == FieldMap(inputs[..i], IsHidden)
    {
      var inp := inputs[i];
      assert inputs[..i + 1][..i] == inputs[..i];
      if IsHidden(inp) && inp.name.Some? {
        hidden := hidden[inp.name.value := inp.value.GetOr("")];
      }
      i := i + 1;
    }
    assert inputs[..|inputs|] == inputs;
  }

  // ---------- the login sequence ----------

  function AfipPostRequest(token: string, sign: string): Request {
    Request(POST, SenasaBase + "/afip", map["token" := token, "sign" := sign],
            map["Origin" := "https://portalcf.cloud.afip.gob.ar",
                "Referer" := "https://portalcf.cloud.afip.gob.ar/portal/app/",
                "Content-Type" := FormUrlEncoded],
            true)
  }

  function LoginGet(): Request {
    Request(GET, LoginUrl, map[], map[], true)
  }

  /** The first form of the page, when it holds both a token and a sign input. */
  function IntermediateForm(doc: Document): (r: Option<Form>)
    ensures r.Some? <==> doc.forms != [] && FindInput(doc.forms[0].inputs, "token").Some? && FindInput(doc.forms[0].inputs, "sign").Some?
    ensures r.Some? ==> r.value == doc.forms[0]
  {
    if doc.forms != [] && FindInput(doc.forms[0].inputs, "token").Some? && FindInput(doc.forms[0].inputs, "sign").Some?
    then Some(doc.forms[0]) else None
  }

  /** The auto-submission of the intermediate form: every input with a non-empty name,
      to the form's action (default: the login URL) resolved against the login URL. */
  function AutoSubmitRequest(urljoin: UrlJoin, f: Form): Request {
    Request(POST, urljoin(LoginUrl, TruthyAction(f).GetOr(LoginUrl)), FieldMap(f.inputs, HasTruthyName),
            map["Content-Type" := FormUrlEncoded, "Origin" := SenasaBase, "Referer" := SenasaBase + "/afip"],
            true)
  }

  function SelectionRequest(payload: map<string, string>): Request {
    Request(POST, LoginUrl, payload,
            map["Accept" := "*/*", "x-microsoftajax" := "Delta=true", "x-requested-with" := "XMLHttpRequest",
                "Content-Type" := FormUrlEncoded + "; charset=UTF-8", "Referer" := LoginUrl],
            true)
  }

  /** The submission of the intermediate form followed by a reload of the login page,
      whose document is the one read afterwards. */
  function SubmitIntermediate(respond: Responder, urljoin: UrlJoin, t: Transport, f: Form): (run: Run<Document>)
    ensures t.trace + [AutoSubmitRequest(urljoin, f)] <= run.transport.trace
    ensures |run.transport.trace| <= |t.trace| + 2
    ensures run.result.Success? ==>
      run.transport.trace == t.trace + [AutoSubmitRequest(urljoin, f), LoginGet()] &&
      respond(run.transport.trace).Success? && run.result.value == respond(run.transport.trace).value.doc
  {
    var (t1, r1) := Exchange(respond, t, AutoSubmitRequest(urljoin, f));
    if r1.Failure? then Run(t1, Failure(r1.error))
    else
      var (t2, r2) := Exchange(respond, t1, LoginGet());
      match r2
      case Failure(e) => Run(t2, Failure(e))
      case Success(reloaded) => Run(t2, Success(reloaded.doc))
  }

  /** The requests up to the login page whose hidden fields and buttons are read: the
      /afip POST, the login page, and, when that page holds the intermediate form, its
      submission and a reload of the login page. */
  function LoginPage(respond: Responder, urljoin: UrlJoin, t: Transport, token: string, sign: string)
    : (run: Run<Document>)
    ensures t.trace < run.transport.trace && 1 <= |run.transport.trace| - |t.trace| <= 4
    ensures run.transport.trace[|t.trace|] == AfipPostRequest(token, sign)
    ensures run.result.Success? ==> respond(run.transport.trace).Success? && run.result.value == respond(run.transport.trace).value.doc
  {
    var (t1, r1) := Exchange(respond, t, AfipPostRequest(token, sign));
    if r1.Failure? then Run(t1, Failure(r1.error))
    else
      var (t2, r2) := Exchange(respond, t1, LoginGet());
      match r2
      case Failure(e) => Run(t2, Failure(e))
      case Success(page) =>
        match IntermediateForm(page.doc)
        case None => Run(t2, Success(page.doc))
        case Some(f) => SubmitIntermediate(respond, urljoin, t2, f)
  }

  /** The selection POST for a page, or None when the page has no account button. */
  function SelectionFor(doc: Document): Option<Request> {
    match FindButton(doc)
    case None => None
    case Some(btn) => Some(SelectionRequest(SelectionPayload(FieldMap(doc.inputs, IsHidden), EventTarget(ButtonId(btn)))))
  }

  /** The selection POST, when there is one, and the cookie jar once it is done. */
  function SelectAccount(respond: Responder, t: Transport, selection: Option<Request>)
    : (run: Run<map<string, string>>)
    ensures run.result.Success? ==> run.result.value == run.transport.jar
    ensures selection.None? ==> run == Run(t, Success(t.jar))
    ensures selection.Some? ==>
      run.transport.trace == t.trace + [selection.value] &&
      (run.result.Success? <==> respond(run.transport.trace).Success?)
  {
    match selection
    case None => Run(t, Success(t.jar))
    case Some(req) =>
      var (t1, r1) := Exchange(respond, t, req);
      if r1.Failure? then Run(t1, Failure(r1.error)) else Run(t1, Success(t1.jar))
  }

  /** `login_with_token_sign`: the value is the cookie jar once the last request is done. */
  function LoginRun(respond: Responder, urljoin: UrlJoin, t: Transport, token: string, sign: string)
    : (run: Run<map<string, string>>)
    ensures run.result.Success? ==> run.result.value == run.transport.jar
  {
    var page := LoginPage(respond, urljoin, t, token, sign);
    match page.result
    case Failure(e) => Run(page.transport, Failure(e))
    case Success(doc) => SelectAccount(respond, page.transport, SelectionFor(doc))
  }

  /** The intermediate form is submitted exactly when the first login page shows both a
      token and a sign input: the submission carries its named inputs, goes to its
      resolved action and is followed by a reload of the login page, whose document is
      the one read afterwards. Without the form, the first login page is the one read. */
  lemma AutoSubmitOnlyWithTokenSign(respond: Responder, urljoin: UrlJoin, t: Transport, token: string, sign: string)
    requires respond(t.trace + [AfipPostRequest(token, sign)]).Success?
    requires respond(t.trace + [AfipPostRequest(token, sign), LoginGet()]).Success?
    ensures var first := t.trace + [AfipPostRequest(token, sign), LoginGet()];
      var doc := respond(first).value.doc;
      var page := LoginPage(respond, urljoin, t, token, sign);
      match IntermediateForm(doc)
      case None => page.transport.trace == first && page.result == Success(doc)
      case Some(f) =>
        first + [AutoSubmitRequest(urljoin, f)] <= page.transport.trace &&
        (page.result.Success? ==> page.transport.trace == first + [AutoSubmitRequest(urljoin, f), LoginGet()])
  {
    assert t.trace + [AfipPostRequest(token, sign)] + [LoginGet()] == t.trace + [AfipPostRequest(token, sign), LoginGet()];
  }

  /** The account button decides the last request: with a button the run ends with the
      selection POST built from the final page, without one no selection POST is sent,
      and in both cases the cookies are those of the jar. */
  lemma SelectionOnlyWithButton(respond: Responder, urljoin: UrlJoin, t: Transport, token: string, sign: string)
    requires LoginPage(respond, urljoin, t, token, sign).result.Success?
    ensures var page := LoginPage(respond, urljoin, t, token, sign);
      var run := LoginRun(respond, urljoin, t, token, sign);
      match SelectionFor(page.result.value)
      case None => run == Run(page.transport, Success(page.transport.jar))
      case Some(req) => run.transport.trace == page.transport.trace + [req] &&
                        (run.result.Success? <==> respond(run.transport.trace).Success?)
  {
  }

  class SenasaLoginConsumer {
    const http: HttpClient
    const urljoin: UrlJoin
    var cookies: map<string, string>

    constructor (http: HttpClient, urljoin: UrlJoin)
      ensures this.http == http && this.urljoin == urljoin && cookies == map[]
    {
      this.http := http;
      this.urljoin := urljoin;
      cookies := map[];
    }

    method LoginWithTokenSign(token: string, sign: string) returns (r: Outcome<Error>)
      modifies this, http
      ensures var run := LoginRun(http.respond, urljoin, old(http.State()), token, sign);
        http.State() == run.transport &&
        (run.result.Success? ==> r == Pass && cookies == run.result.value) &&
        (run.result.Failure? ==> r == Fail(run.result.error) && cookies == old(cookies))
    {
      var doc := FetchLoginPage(token, sign);
      if doc.Failure? {
        return Fail(doc.error);
      }
      var jar := SelectAccountOn(doc.value);
      if jar.Failure? {
        return Fail(jar.error);
      }
      cookies := jar.value;
      r := Pass;
    }

    /** The /afip POST and the login page, through the intermediate form when there is
        one: the document whose hidden fields and buttons are read. */
    method FetchLoginPage(token: string, sign: string) returns (r: Result<Document, Error>)
      modifies http
      ensures Run(http.State(), r) == LoginPage(http.respond, urljoin, old(http.State()), token, sign)
    {
      var _ :- http.Send(AfipPostRequest(token, sign));
      var page :- http.Send(LoginGet());
      var form := IntermediateForm(page.doc);
      if form.Some? {
        r := SubmitIntermediateForm(form.value);
      } else {
        r := Success(page.doc);
      }
    }

    /** The account selection on the login page, when it has a button, then the cookie
        jar. */
    method SelectAccountOn(doc: Document) returns (r: Result<map<string, string>, Error>)
      modifies http
      ensures Run(http.State(), r) == SelectAccount(http.respond, old(http.State()), SelectionFor(doc))
    {
      var hidden := CollectHiddenFields(doc.inputs);
      var btn := FindButton(doc);
      if btn.Some? {
        var target := EventTarget(ButtonId(btn.value));
        var payload := SelectionPayload(hidden, target);
        var _ :- http.Send(SelectionRequest(payload));
      }
      var jar := http.DumpCookies();
      r := Success(jar);
    }

    /** The auto-submission of the intermediate form and the reload of the login page. */
    method SubmitIntermediateForm(f: Form) returns (r: Result<Document, Error>)
      modifies http
      ensures Run(http.State(), r) == SubmitIntermediate(http.respond, urljoin, old(http.State()), f)
    {
      var submitted :- http.Send(AutoSubmitRequest(urljoin, f));
      var reloaded :- http.Send(LoginGet());
      r := Success(reloaded.doc);
    }

    method ValidateSession() returns (r: Result<bool, Error>)
      modifies http
      ensures Run(http.State(), r) == ProbeRun(http.respond, old(http.State()))
    {
      var probe :- http.Send(ProbeRequest());
      r := Success(ClassifyProbe(probe.status, Location(probe), probe.text));
    }
  }
}
