/**
 * The SOAP HTTP binding of the browser transport: how a SOAP request handed
 * over by the SOAP engine becomes one HTTP POST, and how the HTTP response
 * becomes the SOAP response handed back.
 */
module SoapHttpBinding {
  import opened Wrappers
  import opened Http

  /** The values of PHP's SOAP_1_1 and SOAP_1_2 constants. */
  const SOAP_1_1: int := 1
  const SOAP_1_2: int := 2

  const SOAP_ACTION: string := "SOAPAction"
  const CONTENT_TYPE: string := "Content-Type"
  /** The media type of SOAP 1.1 (section 6.1 of the SOAP 1.1 Note). */
  const SOAP_11_CONTENT_TYPE: string := "text/xml; charset=utf-8"
  /** The media type of SOAP 1.2 (RFC 3902) up to its `action` parameter. */
  const SOAP_12_CONTENT_TYPE_PREFIX: string := "application/soap+xml; charset=utf-8; action="

  /** What the SOAP engine hands to the transport: the encoded envelope, its target and its binding. */
  datatype SoapRequest = SoapRequest(request: string, location: string, action: string, version: int)

  /** What the transport hands back to the SOAP engine for decoding. */
  datatype SoapResponse = SoapResponse(payload: string)

  /**
   * The header array for a SOAP version: SOAP 1.1 names the action in its own
   * `SOAPAction` header, SOAP 1.2 carries it as the `action` parameter of the
   * content type, and any other version gets no header at all. The action is
   * copied verbatim, without quotes or escaping.
   */
  function HeadersFor(version: int, action: string): (headers: seq<Header>)
    ensures DistinctNames(headers)
    ensures Names(headers) ==
              if version == SOAP_1_1 then {SOAP_ACTION, CONTENT_TYPE}
              else if version == SOAP_1_2 then {CONTENT_TYPE}
              else {}
    ensures Lookup(headers, SOAP_ACTION) == if version == SOAP_1_1 then Some(action) else None
    ensures Lookup(headers, CONTENT_TYPE) ==
              if version == SOAP_1_1 then Some(SOAP_11_CONTENT_TYPE)
              else if version == SOAP_1_2 then Some(SOAP_12_CONTENT_TYPE_PREFIX + action)
              else None
  {
    if version == SOAP_1_1 then
      [Header(SOAP_ACTION, action), Header(CONTENT_TYPE, SOAP_11_CONTENT_TYPE)]
    else if version == SOAP_1_2 then
      [Header(CONTENT_TYPE, SOAP_12_CONTENT_TYPE_PREFIX + action)]
    else
      []
  }

  /**
   * The decoder of this binding: the version from the exact content type, the
   * action as the whole `SOAPAction` value (1.1) or as everything after
   * `action=` (1.2). It parses no media-type parameters and strips no quotes,
   * so it is the exact left inverse of `HeadersFor`.
   */
  function ReadBinding(headers: seq<Header>): Option<(int, string)> {
    match Lookup(headers, CONTENT_TYPE)
    case None => None
    case Some(contentType) =>
      var soapAction := Lookup(headers, SOAP_ACTION);
      if contentType == SOAP_11_CONTENT_TYPE && soapAction.Some? then
        Some((SOAP_1_1, soapAction.value))
      else if SOAP_12_CONTENT_TYPE_PREFIX <= contentType && soapAction.None? then
        Some((SOAP_1_2, contentType[|SOAP_12_CONTENT_TYPE_PREFIX|..]))
      else
        None
  }

  /** The binding survives the headers for both known versions; other versions leave no trace. */
  lemma BindingRoundTrip(version: int, action: string)
    ensures ReadBinding(HeadersFor(version, action)) ==
              if version == SOAP_1_1 || version == SOAP_1_2 then Some((version, action)) else None
  {
  }

  /** For a known version, two different actions never produce the same headers. */
  lemma {:induction false} HeadersDetermineAction(version: int, action1: string, action2: string)
    requires version == SOAP_1_1 || version == SOAP_1_2
    requires HeadersFor(version, action1) == HeadersFor(version, action2)
    ensures action1 == action2
  {
    BindingRoundTrip(version, action1);
    BindingRoundTrip(version, action2);
  }

  /** The HTTP request the transport sends for a SOAP request. */
  function HttpRequestFor(request: SoapRequest): (r: HttpRequest)
    ensures r.verb == "POST"
    ensures r.url == request.location
    ensures r.body == request.request
    ensures r.headers == HeadersFor(request.version, request.action)
  {
    HttpRequest("POST", request.location, HeadersFor(request.version, request.action), request.request)
  }

  /** The SOAP request a server reconstructs from an HTTP request, if it is a SOAP POST. */
  function ReceivedSoapRequest(r: HttpRequest): Option<SoapRequest> {
    if r.verb != "POST" then None
    else match ReadBinding(r.headers)
      case None => None
      case Some((version, action)) => Some(SoapRequest(r.body, r.url, action, version))
  }

  /** Nothing of a SOAP 1.1 or 1.2 request is lost or altered on its way into the HTTP request. */
  lemma HttpRequestRoundTrip(request: SoapRequest)
    ensures ReceivedSoapRequest(HttpRequestFor(request)) ==
              if request.version == SOAP_1_1 || request.version == SOAP_1_2 then Some(request) else None
  {
  }

  /** The transport holds one browser, through which every request is sent. */
  datatype BrowserTransport = BrowserTransport(browser: Browser)

  /**
   * `new BrowserTransport($browser)`: the parameter is typed as a browser, so
   * passing null throws a TypeError instead of creating a transport.
   */
  function NewBrowserTransport(browser: Option<Browser>): (r: Result<BrowserTransport, Error>)
    ensures r.Success? <==> browser.Some?
    ensures r.Success? ==> r.value.browser == browser.value
    ensures r.Failure? ==> r.error == TypeError
  {
    match browser
    case None => Failure(TypeError)
    case Some(b) => Success(BrowserTransport(b))
  }

  /**
   * `request()`: sends the request through the transport's browser and hands
   * back the response body. `exchange` is the awaited HTTP exchange of that
   * browser; when its promise is rejected, `await` rethrows the reason.
   */
  function Request(
    transport: BrowserTransport,
    exchange: (Browser, HttpRequest) -> Result<HttpResponse, string>,
    request: SoapRequest): (r: Result<SoapResponse, Error>)
    ensures var outcome := exchange(transport.browser, HttpRequestFor(request));
            && (r.Success? <==> outcome.Success?)
            && (r.Success? ==> r.value.payload == outcome.value.body)
            && (r.Failure? ==> r.error == HttpError(outcome.error))
  {
    var outcome := exchange(transport.browser, HttpRequestFor(request));
    match outcome
    case Failure(reason) => Failure(HttpError(reason))
    case Success(httpResponse) => Success(SoapResponse(httpResponse.body))
  }

  /**
   * The status code is never inspected: two exchanges whose responses carry
   * the same body give the same SOAP response, whatever their status and headers.
   */
  lemma StatusNeverInspected(
    transport: BrowserTransport,
    exchange1: (Browser, HttpRequest) -> Result<HttpResponse, string>,
    exchange2: (Browser, HttpRequest) -> Result<HttpResponse, string>,
    request: SoapRequest)
    requires exchange1(transport.browser, HttpRequestFor(request)).Success?
    requires exchange2(transport.browser, HttpRequestFor(request)).Success?
    requires exchange1(transport.browser, HttpRequestFor(request)).value.body ==
             exchange2(transport.browser, HttpRequestFor(request)).value.body
    ensures Request(transport, exchange1, request) == Request(transport, exchange2, request)
    ensures Request(transport, exchange1, request).Success?
  {
  }
}
