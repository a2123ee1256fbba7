/**
 * HTTP messages as the browser sees them, and the part of the browser's
 * configuration that the SOAP client touches. The browser is an immutable
 * value: each `With...` call returns a modified copy.
 */
module Http {
  import opened Wrappers

  /** One entry of a PHP header array: a name and its value, in array order. */
  datatype Header = Header(name: string, value: string)

  function Names(headers: seq<Header>): set<string> {
    set h | h in headers :: h.name
  }

  /** No name appears twice, as in a PHP array whose keys are the header names. */
  predicate DistinctNames(headers: seq<Header>) {
    forall i, j :: 0 <= i < j < |headers| ==> headers[i].name != headers[j].name
  }

  /** The value stored under `name`: the first entry with that name. */
  function Lookup(headers: seq<Header>, name: string): (r: Option<string>)
    ensures r.None? <==> name !in Names(headers)
    ensures r.Some? ==> Header(name, r.value) in headers
    ensures r.Some? && DistinctNames(headers) ==>
              forall h :: h in headers && h.name == name ==> h.value == r.value
  {
    if headers == [] then None
    else if headers[0].name == name then Some(headers[0].value)
    else Lookup(headers[1..], name)
  }

  datatype HttpRequest = HttpRequest(verb: string, url: string, headers: seq<Header>, body: string)

  datatype HttpResponse = HttpResponse(status: int, headers: seq<Header>, body: string)

  /** The argument of the browser's `withFollowRedirects`: a flag, or a maximum count. */
  datatype FollowRedirects = FollowFlag(follow: bool) | FollowLimit(max: int)

  /**
   * The browser's configuration. The two settings the client changes are
   * fields of their own; every other setting (connector, base URL, timeout,
   * protocol version, default headers) is kept by name in `settings` and is
   * not interpreted by this model.
   */
  datatype Browser = Browser(
    rejectErrorResponse: bool,
    followRedirects: FollowRedirects,
    settings: map<string, string>)
  {
    function WithRejectErrorResponse(reject: bool): Browser {
      this.(rejectErrorResponse := reject)
    }

    function WithFollowRedirects(follow: FollowRedirects): Browser {
      this.(followRedirects := follow)
    }
  }

  /** `new Browser()`: error responses reject, redirects are followed. */
  function DefaultBrowser(): Browser {
    Browser(true, FollowFlag(true), map[])
  }
}
