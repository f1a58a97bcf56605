/** The slice of HTTP the connector touches: a fully read response and the
    query parameters of a request. Connection handling, TLS and retries belong
    to the transport and are not modelled. */
module Http {

  /** A response whose body has been read completely. Header names are the
      canonical MIME forms (`X-Ratelimit-Remaining`); a header the server did
      not send is absent from the map. */
  datatype HttpResponse = HttpResponse(status: int, headers: map<string, string>, body: string)

  /** `Header.Get`: the header's value, or "" when it is absent. */
  function Header(resp: HttpResponse, name: string): (v: string)
    ensures name !in resp.headers ==> v == ""
    ensures name in resp.headers ==> v == resp.headers[name]
  {
    if name in resp.headers then resp.headers[name] else ""
  }

  /** URL query parameters in the order they were added (`url.Values.Add`). */
  type Query = seq<(string, string)>

  /** Every value recorded for `key`, in insertion order. */
  function Values(q: Query, key: string): (vs: seq<string>)
    ensures |vs| <= |q|
    ensures (forall i :: 0 <= i < |q| ==> q[i].0 != key) ==> vs == []
  {
    if q == [] then []
    else (if q[0].0 == key then [q[0].1] else []) + Values(q[1..], key)
  }

  /** The set of parameter names present in a query. */
  function Keys(q: Query): (ks: set<string>)
    ensures forall i :: 0 <= i < |q| ==> q[i].0 in ks
    ensures forall k :: k in ks ==> exists i :: 0 <= i < |q| && q[i].0 == k
  {
    set i | 0 <= i < |q| :: q[i].0
  }
}
