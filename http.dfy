/** The HTTP client port: one persistent client with a cookie jar, shared by the AFIP
    providers and the SENASA consumer. The network is an oracle: the server's answer to
    each request is a fixed function of every request sent so far, and the client keeps
    the trace of those requests. Each response carries, besides its raw parts, the parsed
    view the code asks of it: the HTML document as BeautifulSoup would find it, and the
    JSON object that `resp.json()` would return (None when the body is not JSON). */
module Http {
  import opened Wrappers

  /** What the modelled code can raise. */
  datatype Error =
    | TransportError(message: string)   // a connection failure from the HTTP library
    | RuntimeError(message: string)     // a `raise RuntimeError(...)` of the code itself
    | JsonDecodeError                   // `resp.json()` or `json.loads` on a body that is not JSON
    | AttributeError                    // `.get` called on a JSON value that is not an object

  datatype Verb = GET | POST

  datatype Request = Request(
    verb: Verb,
    url: string,
    data: map<string, string>,
    headers: map<string, string>,
    allowRedirects: bool)

  /** A JSON value: strings and objects are inspected; any other value only matters
      through its Python truthiness. */
  datatype Json = JStr(s: string) | JObj(fields: map<string, Json>) | JOther(truthy: bool)

  /** Python's `bool(value)` on a decoded JSON value. */
  predicate Truthy(j: Json) {
    match j
    case JStr(s) => s != ""
    case JObj(f) => f != map[]
    case JOther(t) => t
  }

  /** An `<input>` element; each attribute may be absent. */
  datatype Input = Input(inputType: Option<string>, name: Option<string>, value: Option<string>)

  /** A `<form>` element with the inputs it contains. */
  datatype Form = Form(id: Option<string>, name: Option<string>, action: Option<string>, inputs: seq<Input>)

  /** An `<a>` element; `text` is its `.string` (None unless it has a single text child). */
  datatype Anchor = Anchor(id: Option<string>, text: Option<string>)

  /** A parsed page: its forms, all its inputs and all its anchors, in document order. */
  datatype Document = Document(forms: seq<Form>, inputs: seq<Input>, anchors: seq<Anchor>)

  /** A reply as the port's HttpResponse gives it (status, text, final URL, headers), with
      the cookies it sets, its parsed page, and the JSON object its body decodes to: None
      when the body is not JSON or its top level is not an object. */
  datatype HttpResponse = HttpResponse(
    status: int,
    text: string,
    url: string,
    headers: map<string, string>,
    setCookies: map<string, string>,
    doc: Document,
    json: Option<map<string, Json>>)

  /** The server: its answer (or a connection failure) to the last request of a trace. */
  type Responder = seq<Request> -> Result<HttpResponse, string>

  /** The client's state: the requests sent so far and the cookie jar. */
  datatype Transport = Transport(trace: seq<Request>, jar: map<string, string>)

  /** One exchange: the request joins the trace, the server answers, and the cookies it
      sets are merged into the jar. A connection failure leaves the jar alone. */
  function Exchange(respond: Responder, t: Transport, req: Request): (Transport, Result<HttpResponse, Error>)
  {
    var trace := t.trace + [req];
    match respond(trace)
    case Success(resp) => (Transport(trace, t.jar + resp.setCookies), Success(resp))
    case Failure(msg) => (Transport(trace, t.jar), Failure(TransportError(msg)))
  }

  /** The value returned by a chain of exchanges, with the client state it leaves. */
  datatype Run<T> = Run(transport: Transport, result: Result<T, Error>)

  class HttpClient {
    const respond: Responder
    var trace: seq<Request>
    var jar: map<string, string>

    function State(): Transport
      reads this
    {
      Transport(trace, jar)
    }

    constructor (respond: Responder, cookies: map<string, string>)
      ensures this.respond == respond && trace == [] && jar == cookies
    {
      this.respond := respond;
      trace := [];
      jar := cookies;
    }

    /** The port's `get` and `post`: the request value carries the method, the data of a
        POST, the headers and `allow_redirects`. */
    method Send(req: Request) returns (r: Result<HttpResponse, Error>)
      modifies this
      ensures (State(), r) == Exchange(respond, old(State()), req)
      ensures trace == old(trace) + [req]
    {
      trace := trace + [req];
      match respond(trace)
      case Success(resp) =>
        jar := jar + resp.setCookies;
        r := Success(resp);
      case Failure(msg) =>
        r := Failure(TransportError(msg));
    }

    method DumpCookies() returns (cookies: map<string, string>)
      ensures cookies == jar
    {
      cookies := jar;
    }
  }
}
