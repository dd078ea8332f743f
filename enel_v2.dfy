/**
 * The token-authenticated variant of the invoice flow: a JSON login that
 * yields a bearer token and cookies, then an authenticated POST that replays
 * them. The HTTP client and the JSON decoder are abstract: the network is an
 * oracle from the request sent to a response or an error, and a response body
 * is given already decoded.
 */
module EnelV2 {
  import opened Common

  /** One cookie of a response, replayed on the next request. */
  datatype Cookie = Cookie(name: string, value: string)

  /** User: the JSON login payload (I_CANAL, I_EMAIL, I_PASSWORD). */
  datatype User = User(canal: string, email: string, password: string)

  /** What fmt.Sprint prints for JSON values other than strings and null: never empty
      ("true", "0", "[]", "map[]", ...). */
  type Rendering = s: string | s != "" witness "0"

  /** A decoded JSON value, as far as fmt.Sprint tells values apart. */
  datatype JsonValue = JNull | JString(s: string) | JOther(rendering: Rendering)

  /** A response body: unreadable, not a JSON object, or a JSON object. */
  datatype Body = Unreadable(msg: string) | Undecodable | Object(fields: map<string, JsonValue>)

  /** A response: its cookies and its body. */
  datatype Response = Response(cookies: seq<Cookie>, body: Body)

  /** The request as it goes out: method, URL, headers, JSON payload and cookies. */
  datatype Sent = Sent(verb: string, url: string, header: map<string, seq<string>>, payload: User, cookies: seq<Cookie>)

  /** The HTTP side: whether http.NewRequest refuses a method and URL, and what
      http.DefaultClient.Do answers for a request. */
  datatype Network = Network(refuse: (string, string) -> Option<string>, send: Sent -> Result<Response, string>)

  const LoginUrl := "https://portalhome.eneldistribuicaosp.com.br/api/firebase/login"
  const InvoiceUrl := "https://portalhome.eneldistribuicaosp.com.br/api/sap/portalinfo"
  const Canal := "ZINT"
  const UserAgent := "Mozilla/5.0 (X11; Ubuntu; Linux x86_64; rv:84.0) Gecko/20100101 Firefox/84.0"
  const JsonAccept := "application/json, text/plain, */*"
  const JsonContent := "application/json;charset=utf-8"

  /** The headers of the login request. */
  const LoginHeaders: map<string, string> :=
    map["User-Agent" := UserAgent, "Accept" := JsonAccept, "Content-Type" := JsonContent]

  /** The headers of the invoice request, carrying the bearer token. */
  function InvoiceHeaders(bearer: string): map<string, string>
  {
    map["User-Agent" := UserAgent, "Accept" := JsonAccept, "Accept-Language" := "en-US,en;q=0.5",
        "Content-Type" := JsonContent, "Authorization" := "Bearer " + bearer, "DNT" := "1",
        "Connection" := "keep-alive", "TE" := "Trailers"]
  }

  /** The header of a new request after adding each entry of `headers` once. */
  function HeaderOf(headers: map<string, string>): map<string, seq<string>>
  {
    map k | k in headers :: [headers[k]]
  }

  /** The outcome of request(): NewRequest's refusal, else what the network answers. */
  function Exchange(net: Network, s: Sent): Result<Response, string>
  {
    match net.refuse(s.verb, s.url)
    case Some(msg) => Err(msg)
    case None => net.send(s)
  }

  /** The login request for the user as login leaves it. */
  function LoginRequest(u: User): (s: Sent)
    ensures s.verb == "POST" && s.url == LoginUrl && s.cookies == []
    ensures s.payload == u.(canal := Canal)
    ensures s.header.Keys == {"User-Agent", "Accept", "Content-Type"}
    ensures s.header["Content-Type"] == [JsonContent]
  {
    Sent("POST", LoginUrl, HeaderOf(LoginHeaders), u.(canal := Canal), [])
  }

  /** The invoice request: the bearer token as an Authorization header, and the stored cookies.
      The payload is the user as it stands, with no canal forced. */
  function InvoiceRequest(u: User, bearer: string, cookies: seq<Cookie>): (s: Sent)
    ensures s.verb == "POST" && s.url == InvoiceUrl && s.payload == u && s.cookies == cookies
    ensures "Authorization" in s.header && s.header["Authorization"] == ["Bearer " + bearer]
    ensures forall k :: k in s.header ==> |s.header[k]| == 1
  {
    var h := InvoiceHeaders(bearer);
    assert h.Keys == {"User-Agent", "Accept", "Accept-Language", "Content-Type", "Authorization",
                      "DNT", "Connection", "TE"};
    Sent("POST", InvoiceUrl, HeaderOf(h), u, cookies)
  }

  /** fmt.Sprint of a decoded value: nil prints "<nil>". */
  function Sprint(v: JsonValue): (s: string)
    ensures s == "" <==> v == JString("")
    ensures v.JNull? ==> s == "<nil>"
    ensures v.JString? ==> s == v.s
  {
    match v
    case JNull => "<nil>"
    case JString(s) => s
    case JOther(r) => r
  }

  /** fmt.Sprint(data[key]) where data is what parseBody returns for the body: the decoded object,
      or an empty map when the body could not be read or decoded (the caller ignores the error),
      and a missing key reads as nil. The rendering is empty only for a present empty JSON string. */
  function Rendered(b: Body, key: string): (r: string)
    ensures r == "" <==> b.Object? && key in b.fields && b.fields[key] == JString("")
    ensures !(b.Object? && key in b.fields) ==> r == "<nil>"
    ensures b.Object? && key in b.fields && b.fields[key].JString? ==> r == b.fields[key].s
  {
    var data := if b.Object? then b.fields else map[];
    Sprint(if key in data then data[key] else JNull)
  }

  /** The errors of login and getInvoice. */
  datatype FlowError =
    | RequestFailed(msg: string)  // "request err: %v"
    | Rejected(msg: string)       // "E_MSG: %v"

  /** A request under construction (http.Request): its header and its cookies change in place. */
  class HttpRequest {
    const verb: string
    const url: string
    const payload: User
    var header: map<string, seq<string>>
    var cookies: seq<Cookie>

    /** http.NewRequest, once it has accepted the method and the URL. */
    constructor (verb: string, url: string, payload: User)
      ensures this.verb == verb && this.url == url && this.payload == payload
      ensures header == map[] && cookies == []
    {
      this.verb := verb;
      this.url := url;
      this.payload := payload;
      header := map[];
      cookies := [];
    }

    /** Header.Add: append a value under a key. */
    method AddHeader(key: string, value: string)
      modifies this`header
      ensures header == old(header)[key := (if key in old(header) then old(header)[key] else []) + [value]]
    {
      var values := if key in header then header[key] else [];
      header := header[key := values + [value]];
    }

    /** AddCookie: append one cookie. */
    method AddCookie(c: Cookie)
      modifies this`cookies
      ensures cookies == old(cookies) + [c]
    {
      cookies := cookies + [c];
    }

    /** The request as the client sends it. */
    function Snapshot(): Sent
      reads this
    {
      Sent(verb, url, header, payload, cookies)
    }
  }

  /** request(): build the request, add every header entry and every cookie, send it.
      No response comes back when building or sending fails. */
  method Request(net: Network, url: string, verb: string, headers: map<string, string>,
                 payload: User, cookies: seq<Cookie>) returns (r: Result<Response, string>)
    ensures r == Exchange(net, Sent(verb, url, HeaderOf(headers), payload, cookies))
  {
    var refused := net.refuse(verb, url);
    if refused.Some? {
      return Err(refused.value);
    }
    var req := new HttpRequest(verb, url, payload);
    var todo := headers.Keys;
    ghost var done: set<string> := {};
    while todo != {}
      invariant todo <= headers.Keys && done == headers.Keys - todo
      invariant req.header == map k | k in done :: [headers[k]]
      invariant req.cookies == [] && req.verb == verb && req.url == url && req.payload == payload
      decreases todo
    {
      var key :| key in todo;
      assert key !in req.header;
      req.AddHeader(key, headers[key]);
      todo := todo - {key};
      done := done + {key};
      assert req.header == map k | k in done :: [headers[k]] by {
        forall k | k in done ensures k in req.header && req.header[k] == [headers[k]] {
        }
        forall k | k in req.header ensures k in done {
        }
      }
    }
    assert done == headers.Keys;
    var i := 0;
    while i < |cookies|
      invariant 0 <= i <= |cookies|
      invariant req.cookies == cookies[..i]
      invariant req.header == HeaderOf(headers)
    {
      req.AddCookie(cookies[i]);
      i := i + 1;
    }
    assert cookies[..i] == cookies;
    r := net.send(req.Snapshot());
  }

  /** The token flow's state. */
  class Flow {
    /** http.DefaultClient and the network behind it. */
    const net: Network
    var cookies: seq<Cookie>
    var user: User
    var bearer: string

    /** NewFlow: the credentials, no canal, no cookies, no token. */
    constructor (net: Network, email: string, password: string)
      ensures this.net == net && user == User("", email, password)
      ensures cookies == [] && bearer == ""
    {
      this.net := net;
      user := User("", email, password);
      cookies := [];
      bearer := "";
    }

    /** login: force the canal, post the credentials, keep the response cookies, and keep the
        token unless E_MSG renders non-empty. A request error changes neither cookies nor token. */
    method Login() returns (err: Option<FlowError>)
      modifies this`user, this`cookies, this`bearer
      ensures user == old(user).(canal := Canal)
      ensures var r := Exchange(net, LoginRequest(old(user)));
        match r
        case Err(msg) =>
          err == Some(RequestFailed(msg)) && cookies == old(cookies) && bearer == old(bearer)
        case Ok(res) =>
          cookies == res.cookies
          && (Rendered(res.body, "E_MSG") != "" ==> err == Some(Rejected(Rendered(res.body, "E_MSG"))) && bearer == old(bearer))
          && (Rendered(res.body, "E_MSG") == "" ==> err == None && bearer == Rendered(res.body, "token"))
    {
      user := user.(canal := Canal);
      var r := Request(net, LoginUrl, "POST", LoginHeaders, user, []);
      if r.Err? {
        return Some(RequestFailed(r.error));
      }
      cookies := r.value.cookies;
      var msg := Rendered(r.value.body, "E_MSG");
      if |msg| != 0 {
        return Some(Rejected(msg));
      }
      bearer := Rendered(r.value.body, "token");
      return None;
    }

    /** getInvoice: post with the bearer token and the stored cookies, then keep the response
        cookies. A request error changes nothing. */
    method GetInvoice() returns (err: Option<FlowError>)
      modifies this`cookies
      ensures var r := Exchange(net, InvoiceRequest(user, bearer, old(cookies)));
        match r
        case Err(msg) => err == Some(RequestFailed(msg)) && cookies == old(cookies)
        case Ok(res) => err == None && cookies == res.cookies
    {
      var r := Request(net, InvoiceUrl, "POST", InvoiceHeaders(bearer), user, cookies);
      if r.Err? {
        return Some(RequestFailed(r.error));
      }
      cookies := r.value.cookies;
      return None;
    }
  }
}
