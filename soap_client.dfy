/**
 * The SOAP client: it configures its browser for SOAP, wires a lazily built
 * engine to a browser transport, and forwards calls and metadata queries to
 * that engine.
 */
module SoapClient {
  import opened Wrappers
  import opened Http
  import opened SoapHttpBinding

  /** The client's `$options` array, each value in its PHP textual form. */
  type Options = map<string, string>

  /**
   * What the lazy engine's factory closure captures: the WSDL contents (null in
   * non-WSDL mode), the options handed to the SOAP driver on top of its
   * defaults, and the value given to `new BrowserTransport(...)`. The engine is
   * built from these on first use.
   */
  datatype LazyEngine = LazyEngine(
    wsdlContents: Option<string>,
    soapOptions: Options,
    transportBrowser: Option<Browser>)

  /**
   * The parts of the SOAP driver (PHP's SoapClient behind an external library)
   * that the engine uses: encoding a call into a SOAP request, decoding a SOAP
   * response, and the method and type lists read from the WSDL.
   */
  datatype Driver<!V> = Driver(
    encode: (string, seq<V>) -> Result<SoapRequest, Error>,
    decode: (string, SoapResponse) -> Result<V, Error>,
    methods: seq<string>,
    types: seq<string>)

  /** A built engine: a driver and the transport its requests go through. */
  datatype Engine<!V> = Engine(driver: Driver<V>, transport: BrowserTransport)

  /**
   * The browser the constructor stores: the given one, or a default one, with
   * error responses accepted and the redirect limit set to zero. Every other
   * setting of the given browser is kept.
   */
  function Configure(browser: Option<Browser>): (b: Browser)
    ensures !b.rejectErrorResponse
    ensures b.followRedirects == FollowLimit(0)
    ensures b.settings == if browser.Some? then browser.value.settings else DefaultBrowser().settings
  {
    (if browser.Some? then browser.value else DefaultBrowser())
      .WithRejectErrorResponse(false)
      .WithFollowRedirects(FollowLimit(0))
  }

  /** A browser that already carries the policy is stored unchanged. */
  lemma ConfigureKeepsConfigured(browser: Browser)
    requires !browser.rejectErrorResponse && browser.followRedirects == FollowLimit(0)
    ensures Configure(Some(browser)) == browser
  {
  }

  /** Configuring twice is configuring once. */
  lemma ConfigureIdempotent(browser: Option<Browser>)
    ensures Configure(Some(Configure(browser))) == Configure(browser)
  {
  }

  /**
   * The engine recipe the constructor sets up, as written: the driver gets its
   * default options only, and the transport gets the constructor's raw
   * `$browser` argument rather than the configured browser.
   */
  function EngineFor(browser: Option<Browser>, wsdlContents: Option<string>, options: Options): (e: LazyEngine)
    ensures e.wsdlContents == wsdlContents
    ensures e.soapOptions == map[]
    ensures e.transportBrowser == browser
  {
    LazyEngine(wsdlContents, map[], browser)
  }

  /**
   * The engine recipe the constructor's comments and documentation describe:
   * the options reach the driver and the configured browser reaches the transport.
   */
  function IntendedEngineFor(browser: Option<Browser>, wsdlContents: Option<string>, options: Options): (e: LazyEngine)
    ensures e.wsdlContents == wsdlContents
    ensures e.soapOptions == options
    ensures e.transportBrowser == Some(Configure(browser))
  {
    LazyEngine(wsdlContents, options, Some(Configure(browser)))
  }

  /**
   * Running the factory: the driver is created from the WSDL contents and
   * options first (an invalid WSDL throws a SoapFault), then the transport.
   * `driverFor` stands for the external driver construction.
   */
  function Build<V>(
    engine: LazyEngine,
    driverFor: (Option<string>, Options) -> Result<Driver<V>, Error>): (r: Result<Engine<V>, Error>)
    ensures var driver := driverFor(engine.wsdlContents, engine.soapOptions);
            && (r.Success? <==> driver.Success? && engine.transportBrowser.Some?)
            && (driver.Failure? ==> r == Failure(driver.error))
            && (driver.Success? && engine.transportBrowser.None? ==> r == Failure(TypeError))
            && (r.Success? ==> r.value == Engine(driver.value, BrowserTransport(engine.transportBrowser.value)))
  {
    var driver :- driverFor(engine.wsdlContents, engine.soapOptions);
    var transport :- NewBrowserTransport(engine.transportBrowser);
    Success(Engine(driver, transport))
  }

  /**
   * One call through a built engine: the driver encodes the call, the
   * transport exchanges it over HTTP, the driver decodes the response body.
   */
  function Call<V>(
    engine: Engine<V>,
    exchange: (Browser, HttpRequest) -> Result<HttpResponse, string>,
    name: string,
    args: seq<V>): (r: Result<V, Error>)
    ensures var request := engine.driver.encode(name, args);
            && (request.Failure? ==> r == Failure(request.error))
            && (request.Success? ==>
                  var outcome := exchange(engine.transport.browser, HttpRequestFor(request.value));
                  && (outcome.Failure? ==> r == Failure(HttpError(outcome.error)))
                  && (outcome.Success? ==> r == engine.driver.decode(name, SoapResponse(outcome.value.body))))
  {
    var request :- engine.driver.encode(name, args);
    var response :- Request(engine.transport, exchange, request);
    engine.driver.decode(name, response)
  }

  /**
   * As written, the transport is built from the raw browser argument: it is
   * the configured browser exactly when the caller's browser already carried
   * the policy, so in general error responses reject and redirects are
   * followed on SOAP requests.
   */
  lemma TransportGetsRawBrowser<V>(
    browser: Browser,
    wsdlContents: Option<string>,
    options: Options,
    driverFor: (Option<string>, Options) -> Result<Driver<V>, Error>)
    requires driverFor(wsdlContents, map[]).Success?
    ensures var built := Build(EngineFor(Some(browser), wsdlContents, options), driverFor);
            && built.Success?
            && built.value.transport.browser == browser
            && (built.value.transport.browser == Configure(Some(browser)) <==>
                  !browser.rejectErrorResponse && browser.followRedirects == FollowLimit(0))
  {
    var built := Build(EngineFor(Some(browser), wsdlContents, options), driverFor);
    if browser == Configure(Some(browser)) {
      assert !browser.rejectErrorResponse && browser.followRedirects == FollowLimit(0);
    } else if !browser.rejectErrorResponse && browser.followRedirects == FollowLimit(0) {
      ConfigureKeepsConfigured(browser);
    }
  }

  /** The default browser shows it: the transport rejects error responses and follows redirects. */
  lemma PolicyMissesDefaultBrowser<V>(
    wsdlContents: Option<string>,
    options: Options,
    driverFor: (Option<string>, Options) -> Result<Driver<V>, Error>)
    requires driverFor(wsdlContents, map[]).Success?
    ensures var built := Build(EngineFor(Some(DefaultBrowser()), wsdlContents, options), driverFor);
            && built.Success?
            && built.value.transport.browser.rejectErrorResponse
            && built.value.transport.browser.followRedirects == FollowFlag(true)
  {
  }

  /**
   * As written, a client constructed without a browser stores a default one,
   * but its engine hands null to the transport: the first call or metadata
   * query fails with a TypeError once the WSDL has been accepted.
   */
  lemma NullBrowserFailsOnFirstUse<V>(
    wsdlContents: Option<string>,
    options: Options,
    driverFor: (Option<string>, Options) -> Result<Driver<V>, Error>)
    requires driverFor(wsdlContents, map[]).Success?
    ensures Build(EngineFor(None, wsdlContents, options), driverFor) == Failure(TypeError)
  {
  }

  /** As written, the options never reach the driver: any two option arrays build the same engine. */
  lemma OptionsNeverReachDriver<V>(
    browser: Option<Browser>,
    wsdlContents: Option<string>,
    options1: Options,
    options2: Options,
    driverFor: (Option<string>, Options) -> Result<Driver<V>, Error>)
    ensures Build(EngineFor(browser, wsdlContents, options1), driverFor) ==
            Build(EngineFor(browser, wsdlContents, options2), driverFor)
  {
  }

  /**
   * The intended recipe: the engine builds whenever the driver accepts the
   * WSDL and options, null browser or not, and its transport carries the policy.
   */
  lemma IntendedTransportCarriesPolicy<V>(
    browser: Option<Browser>,
    wsdlContents: Option<string>,
    options: Options,
    driverFor: (Option<string>, Options) -> Result<Driver<V>, Error>)
    ensures var built := Build(IntendedEngineFor(browser, wsdlContents, options), driverFor);
            && (built.Success? <==> driverFor(wsdlContents, options).Success?)
            && (built.Success? ==>
                  && built.value.driver == driverFor(wsdlContents, options).value
                  && built.value.transport.browser == Configure(browser)
                  && !built.value.transport.browser.rejectErrorResponse
                  && built.value.transport.browser.followRedirects == FollowLimit(0))
  {
  }

  /**
   * Under the intended recipe every SOAP request goes out through the browser
   * the constructor configured.
   */
  lemma IntendedCallUsesConfiguredBrowser<V>(
    browser: Option<Browser>,
    wsdlContents: Option<string>,
    options: Options,
    driverFor: (Option<string>, Options) -> Result<Driver<V>, Error>,
    exchange: (Browser, HttpRequest) -> Result<HttpResponse, string>,
    name: string,
    args: seq<V>)
    requires driverFor(wsdlContents, options).Success?
    requires driverFor(wsdlContents, options).value.encode(name, args).Success?
    ensures var driver := driverFor(wsdlContents, options).value;
            var outcome := exchange(Configure(browser), HttpRequestFor(driver.encode(name, args).value));
            var built := Build(IntendedEngineFor(browser, wsdlContents, options), driverFor);
            && built.Success?
            && (outcome.Success? ==>
                  Call(built.value, exchange, name, args) == driver.decode(name, SoapResponse(outcome.value.body)))
            && (outcome.Failure? ==>
                  Call(built.value, exchange, name, args) == Failure(HttpError(outcome.error)))
  {
  }

  /**
   * As written, constructing a client never fails: an invalid WSDL is only
   * noticed when the lazy engine is built, and its error becomes the outcome
   * of that first call or metadata query.
   */
  lemma InvalidWsdlFailsOnFirstUse<V>(
    browser: Option<Browser>,
    wsdlContents: Option<string>,
    options: Options,
    driverFor: (Option<string>, Options) -> Result<Driver<V>, Error>)
    requires driverFor(wsdlContents, map[]).Failure?
    ensures EngineFor(browser, wsdlContents, options).wsdlContents == wsdlContents
    ensures Build(EngineFor(browser, wsdlContents, options), driverFor) ==
            Failure(driverFor(wsdlContents, map[]).error)
  {
  }

  /**
   * Construction that parses the WSDL up front, as the class documentation
   * describes: an invalid WSDL is rejected with the driver's error, and a
   * recipe that is accepted never fails later for its WSDL.
   */
  function EagerEngineFor<V>(
    browser: Option<Browser>,
    wsdlContents: Option<string>,
    options: Options,
    driverFor: (Option<string>, Options) -> Result<Driver<V>, Error>): (r: Result<LazyEngine, Error>)
    ensures var driver := driverFor(wsdlContents, options);
            && (r.Failure? <==> driver.Failure?)
            && (r.Failure? ==> r.error == driver.error)
            && (r.Success? ==> r.value == IntendedEngineFor(browser, wsdlContents, options))
            && (r.Success? ==> Build(r.value, driverFor).Success?)
  {
    var _ :- driverFor(wsdlContents, options);
    Success(IntendedEngineFor(browser, wsdlContents, options))
  }

  class Client {
    var browser: Browser
    var engine: LazyEngine
    /** The options the client was constructed with; no PHP field keeps them. */
    ghost var options: Options

    /** `new Client($browser, $wsdlContents, $options)`. */
    constructor (browser: Option<Browser>, wsdlContents: Option<string>, options: Options)
      ensures this.browser == Configure(browser)
      ensures engine == EngineFor(browser, wsdlContents, options)
      ensures this.options == options
    {
      this.browser := if browser.Some? then browser.value else DefaultBrowser();
      new;
      this.browser := this.browser.WithRejectErrorResponse(false);
      this.browser := this.browser.WithFollowRedirects(FollowLimit(0));
      engine := LazyEngine(wsdlContents, map[], browser);
      this.options := options;
    }

    /**
     * `Client::forWsdl`: the WSDL is loaded through the given browser first;
     * a loader failure propagates, otherwise the client is constructed with the
     * same browser and options. `load` stands for the external flattening loader.
     */
    static method ForWsdl(
      browser: Browser,
      wsdlUri: string,
      options: Options,
      load: (Browser, string) -> Result<string, Error>) returns (r: Result<Client, Error>)
      ensures load(browser, wsdlUri).Failure? ==> r == Failure(load(browser, wsdlUri).error)
      ensures load(browser, wsdlUri).Success? ==>
                && r.Success? && fresh(r.value)
                && r.value.browser == Configure(Some(browser))
                && r.value.engine == EngineFor(Some(browser), Some(load(browser, wsdlUri).value), options)
                && r.value.options == options
    {
      var contents := load(browser, wsdlUri);
      if contents.Failure? {
        return Failure(contents.error);
      }
      var client := new Client(Some(browser), Some(contents.value), options);
      r := Success(client);
    }

    /**
     * `soapCall($name, $args)`: the name and arguments go unchanged to the
     * engine; building the engine and the call itself may fail, and the failure
     * becomes the outcome of the call.
     */
    method SoapCall<V>(
      driverFor: (Option<string>, Options) -> Result<Driver<V>, Error>,
      exchange: (Browser, HttpRequest) -> Result<HttpResponse, string>,
      name: string,
      args: seq<V>) returns (r: Result<V, Error>)
      ensures Build(engine, driverFor).Failure? ==> r == Failure(Build(engine, driverFor).error)
      ensures Build(engine, driverFor).Success? ==> r == Call(Build(engine, driverFor).value, exchange, name, args)
    {
      var built := Build(engine, driverFor);
      if built.Failure? {
        return Failure(built.error);
      }
      r := Call(built.value, exchange, name, args);
    }

    /** `getFunctions()`: the method list of the engine's metadata. */
    method GetFunctions<V>(driverFor: (Option<string>, Options) -> Result<Driver<V>, Error>)
      returns (r: Result<seq<string>, Error>)
      ensures Build(engine, driverFor).Failure? ==> r == Failure(Build(engine, driverFor).error)
      ensures Build(engine, driverFor).Success? ==> r == Success(Build(engine, driverFor).value.driver.methods)
    {
      var built := Build(engine, driverFor);
      if built.Failure? {
        return Failure(built.error);
      }
      r := Success(built.value.driver.methods);
    }

    /** `getTypes()`: the type list of the engine's metadata. */
    method GetTypes<V>(driverFor: (Option<string>, Options) -> Result<Driver<V>, Error>)
      returns (r: Result<seq<string>, Error>)
      ensures Build(engine, driverFor).Failure? ==> r == Failure(Build(engine, driverFor).error)
      ensures Build(engine, driverFor).Success? ==> r == Success(Build(engine, driverFor).value.driver.types)
    {
      var built := Build(engine, driverFor);
      if built.Failure? {
        return Failure(built.error);
      }
      r := Success(built.value.driver.types);
    }
  }
}
