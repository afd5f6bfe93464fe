/**
 * HTTP requests as the client builds them and replies as they come back:
 * a delivered body, or the error the request failed with.
 */
module Http {
  import opened Wrappers
  import opened Js
  import opened Strings

  datatype Header = Header(name: string, value: Value)

  datatype Request = Request(verb: string, url: string, headers: seq<Header>)

  /** What a request yields: the response body, or the error its observable fails with. */
  datatype Reply = Delivered(body: Value) | Rejected(error: Value)

  /**
   * `headers.get(name)`: the value of the first header whose name equals
   * `name` ignoring case, as `HttpHeaders` compares names.
   */
  function Lookup(headers: seq<Header>, name: string): (r: Option<Value>)
    ensures r.None? <==> forall h | h in headers :: Lower(h.name) != Lower(name)
    ensures r.Some? ==> exists h | h in headers :: Lower(h.name) == Lower(name) && h.value == r.value
  {
    if headers == [] then None
    else if Lower(headers[0].name) == Lower(name) then Some(headers[0].value)
    else
      var r := Lookup(headers[1..], name);
      assert forall h | h in headers[1..] :: h in headers;
      r
  }
}
