# SOAP client over an async HTTP browser — Dafny model

This project models the two pieces of logic in the ReactPHP SOAP client that
connect PHP's SOAP engine to an asynchronous HTTP browser:

- **The SOAP HTTP binding of `BrowserTransport`** (`wrappers.dfy`, `http.dfy`,
  `soap_http_binding.dfy`). A SOAP request from the engine has an envelope,
  a location, an action and a version. `request()` turns it into one HTTP POST
  to the location, with the envelope as the body. The headers depend on the
  version:
  - SOAP 1.1 gets a `SOAPAction` header and the `text/xml` content type.
    The header value is the action unquoted, although the grammar in section
    6.1.1 of the SOAP 1.1 Note puts it between quotes.
  - SOAP 1.2 gets the action as the `action` parameter of
    `application/soap+xml` (section 6.5 of SOAP 1.2 Part 2, media type of
    RFC 3902).
  - Any other version gets no headers.

  The body of the HTTP response comes back as the SOAP response, whatever the
  status code. The model states the header arrays exactly. It also gives the exact
  decoder of this binding (`ReadBinding`, `ReceivedSoapRequest`) and proves that a SOAP 1.1 or 1.2 request passes through the HTTP request
  without loss.
- **The `Client`** (`soap_client.dfy`). The constructor is a class
  constructor that reassigns its `browser` field step by step. It defaults the
  browser, accepts error responses, sets the redirect limit to 0 and records
  the recipe of the lazily built engine. `forWsdl`, `soapCall`,
  `getFunctions` and `getTypes` are delegations.
  - Building the engine follows the call path: the driver encodes the call,
    the transport exchanges it, the driver decodes the response.
  - The external parts are parameters: the SOAP driver (`driverFor`), the
    awaited HTTP exchange of a browser (`exchange`) and the WSDL loader
    (`load`).

The PHP constants `SOAP_1_1` and `SOAP_1_2` are the integers 1 and 2. A PHP
header array is an ordered sequence of `Header` entries; `Lookup` reads it like
a keyed array. `new Browser()` is modelled as a browser that rejects error
responses and follows redirects.

## Model

| member | source | states |
|---|---|---|
| `SoapHttpBinding.HeadersFor` | src/Protocol/BrowserTransport.php:21-35 | SOAP 1.1 headers are exactly `SOAPAction` = action and `Content-Type` = `text/xml; charset=utf-8`. SOAP 1.2 headers are exactly `Content-Type` = `application/soap+xml; charset=utf-8; action=` followed by the action, with no `SOAPAction`. Any other version gets no header. Header names are distinct. |
| `SoapHttpBinding.BindingRoundTrip` | src/Protocol/BrowserTransport.php:26-34 | A receiver reads the version and the verbatim action back from the headers of a 1.1 or 1.2 request, with no quoting added. Any other version leaves nothing to read. |
| `SoapHttpBinding.HeadersDetermineAction` | src/Protocol/BrowserTransport.php:28-33 | For SOAP 1.1 and 1.2, different actions always give different headers. |
| `SoapHttpBinding.HttpRequestFor` | src/Protocol/BrowserTransport.php:37-43 | The HTTP request is a POST to the SOAP request's location, with the envelope as its body and the version's headers. |
| `SoapHttpBinding.HttpRequestRoundTrip` | src/Protocol/BrowserTransport.php:37-43 | A 1.1 or 1.2 SOAP request can be rebuilt whole from the HTTP request it becomes. Any other version cannot, because its headers are empty. |
| `SoapHttpBinding.NewBrowserTransport` | src/Protocol/BrowserTransport.php:14-17 | A transport exists exactly when a browser is given, and it holds that browser. Null gives a TypeError. |
| `SoapHttpBinding.Request` | src/Protocol/BrowserTransport.php:19-47 | The SOAP response is the body of the browser's HTTP response, unchanged. A rejected exchange becomes an HTTP error, and nothing else fails. |
| `SoapHttpBinding.StatusNeverInspected` | src/Protocol/BrowserTransport.php:46 | Any two responses with the same body give the same successful SOAP response, whatever their status codes. |
| `SoapClient.Configure` | src/Client.php:172-179 | The stored browser is the given one, or the default one when none is given. Its error-response rejection is off, its redirect limit is 0, and every other setting is kept. |
| `SoapClient.ConfigureKeepsConfigured` | src/Client.php:178-179 | A browser that already carries the policy is stored unchanged. |
| `SoapClient.ConfigureIdempotent` | src/Client.php:178-179 | Configuring an already configured browser changes nothing. |
| `SoapClient.EngineFor` | src/Client.php:181-194 | The engine recipe holds the WSDL contents, only the driver's default options, and the raw browser argument for the transport. |
| `SoapClient.Build` | src/Client.php:181-194 | Building the engine fails with the driver's error if the WSDL is rejected. It then fails with a TypeError if the transport's browser is null. Otherwise the engine pairs the driver with a transport over that browser. |
| `SoapClient.Call` | src/Client.php:229 | The external engine's behaviour, assumed: a call's outcome is the encoder's failure, the HTTP error of a rejected exchange, or the decoding of the response body that the transport's browser received. |
| `SoapClient.Client.constructor` | src/Client.php:170-195 | After construction, the browser field is `Configure(browser)`, the engine field is the as-written recipe, and the options the client was constructed with are recorded. Construction never fails. |
| `SoapClient.Client.ForWsdl` | src/Client.php:197-206 | A loader failure is the result. Otherwise a fresh client is built with the same browser, the loaded contents and the same options, recorded in its ghost `options` field. |
| `SoapClient.Client.SoapCall` | src/Client.php:227-230 | The name and arguments reach the engine unchanged. A failure to build the engine becomes the call's failure. |
| `SoapClient.Client.GetFunctions` | src/Client.php:239-242 | The result is the method list of the built engine's driver, or the error that prevented building it. |
| `SoapClient.Client.GetTypes` | src/Client.php:251-254 | The result is the type list of the built engine's driver, or the error that prevented building it. |
| `SoapClient.TransportGetsRawBrowser` | src/Client.php:190-193 | As written, the transport's browser is the caller's browser. It equals the configured browser exactly when the caller's browser already had rejection off and a redirect limit of 0. |
| `SoapClient.PolicyMissesDefaultBrowser` | src/Client.php:172-192 | As written, with the default browser the transport still rejects error responses and follows redirects. |
| `SoapClient.NullBrowserFailsOnFirstUse` | src/Client.php:170-192 | As written, a client constructed without a browser fails with a TypeError once its engine is built. |
| `SoapClient.OptionsNeverReachDriver` | src/Client.php:170-194 | As written, the options array has no effect on the engine. |
| `SoapClient.InvalidWsdlFailsOnFirstUse` | src/Client.php:181-188 | As written, an invalid WSDL does not stop construction. Its driver error becomes the outcome of the first call or metadata query. |
| `SoapClient.EagerEngineFor` | src/Client.php:84-94 | The corrected construction fails with the driver's error exactly when the WSDL is rejected. Otherwise it gives the intended recipe (options and configured browser included), which always builds its engine. |
| `SoapClient.IntendedEngineFor` | src/Client.php:174-192 | The corrected recipe passes the options to the driver and the configured browser to the transport. |
| `SoapClient.IntendedTransportCarriesPolicy` | src/Client.php:174-192 | Under the corrected recipe, the engine builds exactly when the driver accepts the WSDL and options, even with a null browser. Its transport has rejection off and a redirect limit of 0. |
| `SoapClient.IntendedCallUsesConfiguredBrowser` | src/Client.php:174-192 | Under the corrected recipe, every SOAP request goes out through the configured browser. |

The `Client` class follows the code as written. `IntendedEngineFor`,
`EagerEngineFor` and their lemmas are the corrected construction, set beside it.

## Left out

- The `async`/`await` bridging and cooperative scheduling are not modelled. They only serve concurrency on the event loop. The awaited exchange is the function parameter `exchange`.
- What the browser does with its settings is not modelled: how it rejects error responses, follows redirects or applies a limit of 0. Those effects live inside `exchange`, which receives the browser.
- The flattening WSDL loader and the browser-based loader are external. src/Protocol/BrowserWsdlLoader.php is not part of this model. `forWsdl` takes the loader as the parameter `load`.
- The lazy engine, the simple engine, the ext-soap driver, the abused SoapClient and the traceable transport are external. The model builds the engine from its recipe at each use. It does not model memoisation, or the traceable transport's record of the last request and response.
- Envelope encoding and decoding, SOAP faults and WSDL parsing belong to PHP's SoapClient. They are the `encode`, `decode`, `methods` and `types` fields of `Driver`.
- src/Protocol/Psr18Browser.php and the demo scripts under examples/ are not part of this model. They hold no logic.
- The one-way flag of a SOAP request is left out. The transport never reads it.
- PHP strings are byte strings but are modelled as `string`. Option values are modelled as their textual form. Header-name case-insensitivity in the browser is not modelled.
- `SoapClient.Client.GetFunctions`: returns the method signatures as strings rather than method objects, because the metadata objects are external.
- `SoapClient.Client.GetTypes`: returns the type descriptions as strings rather than type objects, for the same reason.
- `SoapClient.Call`: the external engine's `request` is assumed to encode the call with the driver, make one exchange through its transport and decode the response, with no other effect. No file of this repository contains that path.
- `SoapClient.Client.constructor`, `SoapClient.Client.ForWsdl`: the `$options` parameter defaults to an empty array in PHP, but the model takes it as a required argument. Pass the empty map for the default.
- `SoapClient.Client.SoapCall`: a failure is the rejection of the promise returned by `soapCall`. `getFunctions` and `getTypes` throw instead. The model gives both as a `Failure` result.

## Findings

| source | as written | input that shows it | evidently intended | confidence | as-written member | corrected member |
|---|---|---|---|---|---|---|
| src/Client.php:192 | The transport is built from the constructor's raw browser argument, not from the configured `$this->browser`. The configured browser is never used again. | The default browser passed explicitly: the transport still rejects error responses and follows redirects, contrary to the comment at src/Client.php:174-177. | Build the transport from the configured browser. | high; not executed | `SoapClient.PolicyMissesDefaultBrowser` | `SoapClient.IntendedTransportCarriesPolicy` |
| src/Client.php:192 | A null browser argument is handed to the transport, whose parameter does not accept null. | A null browser: the constructor succeeds. The promise of the first `soapCall` then rejects with a TypeError, and a metadata query throws it. | The default browser stored at src/Client.php:172 reaches the transport. | high; not executed | `SoapClient.NullBrowserFailsOnFirstUse` | `SoapClient.IntendedTransportCarriesPolicy` |
| src/Client.php:170-194 | The `$options` argument is never read. The driver gets its default options only. | Options asking for SOAP 1.2 are ignored, although the documentation at src/Client.php:101-136 says options are passed through. | Pass the options to the driver. | medium; not executed | `SoapClient.OptionsNeverReachDriver` | `SoapClient.IntendedEngineFor` |
| src/Client.php:181-194 | The lazy engine defers parsing the WSDL to first use, so the constructor never throws for an invalid WSDL. | An unparsable WSDL: construction succeeds, and the first call or metadata query fails with the parse error. The class documentation at src/Client.php:84-94 says the constructor throws a `SoapFault`. | Parse the WSDL during construction, or change the documentation to match. | medium; not executed | `SoapClient.InvalidWsdlFailsOnFirstUse` | `SoapClient.EagerEngineFor` |
