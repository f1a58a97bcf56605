/** The Zoom REST client: how one HTTP exchange is classified into a success
    or an error, the fixed pagination query, the single-page getters that pass
    the upstream next-page token through, and the loop that drains a paginated
    member or admin list completely.

    An endpoint is modelled as an `Upstream`: the answer the transport gives
    for a query, and the JSON decoder for the body. Bearer tokens, URLs and
    headers sent are not modelled. */
module Client {
  import opened Base
  import opened Http
  import opened Models

  /** `resourcePageSize`: every paginated request asks for 50 records. */
  const ResourcePageSize: string := "50"

  /** `paginationQuery`: the query of a paginated request resuming at `token`. */
  function PaginationQuery(token: string): (q: Query)
    ensures Values(q, "next_page_token") == [token]
    ensures Values(q, "page_size") == [ResourcePageSize]
    ensures Keys(q) == {"next_page_token", "page_size"}
  {
    [("next_page_token", token), ("page_size", ResourcePageSize)]
  }

  /** One endpoint: the transport's answer to a query (an error when the
      request cannot be built, sent or read) and the decoder of its body. */
  datatype Upstream<B> = Upstream(transport: Query -> Result<HttpResponse>, decode: string -> Option<B>)

  /** `doRequest`: classify a received response. An empty body with a status
      in [200, 400) succeeds and leaves the result at its zero value; a status
      of 400 or more fails with the status and the body; anything else must
      decode, and an empty body never does (`json.Unmarshal` rejects empty
      input). */
  function DoRequest<B>(sent: Result<HttpResponse>, decode: string -> Option<B>, zero: B): (r: Result<(HttpResponse, B)>)
    ensures sent.Err? ==> r == Err(sent.error)
    ensures sent.Ok? && sent.value.status >= 400 ==>
              r == Err(StatusFailure(sent.value.status, sent.value.body))
    ensures sent.Ok? && sent.value.body == "" && 200 <= sent.value.status < 400 ==>
              r == Ok((sent.value, zero))
    ensures sent.Ok? && sent.value.status < 400 && !(sent.value.body == "" && 200 <= sent.value.status) ==>
              && (r.Ok? <==> sent.value.body != "" && decode(sent.value.body).Some?)
              && (r.Ok? ==> r.value == (sent.value, decode(sent.value.body).value))
              && (r.Err? ==> r.error == DecodeFailure)
    ensures r.Ok? ==> sent.Ok? && r.value.0 == sent.value && r.value.0.status < 400
  {
    match sent
    case Err(e) => Err(e)
    case Ok(resp) =>
      if |resp.body| == 0 && 200 <= resp.status < 400 then Ok((resp, zero))
      else if resp.status >= 400 then Err(StatusFailure(resp.status, resp.body))
      else if |resp.body| == 0 then Err(DecodeFailure)
      else match decode(resp.body)
        case None => Err(DecodeFailure)
        case Some(b) => Ok((resp, b))
  }

  /** A request to `up` with query `q`. */
  function Call<B>(up: Upstream<B>, q: Query, zero: B): Result<(HttpResponse, B)>
  {
    DoRequest(up.transport(q), up.decode, zero)
  }

  /** The pagination envelope of a list response: the page's records and the
      server's `next_page_token` ("" on the last page). */
  datatype Envelope<T> = Envelope(records: seq<T>, next: string)

  /** One page of a paginated endpoint, requested at `token`. */
  function FetchPage<T>(up: Upstream<Envelope<T>>, token: string): Result<(HttpResponse, Envelope<T>)>
  {
    Call(up, PaginationQuery(token), Envelope([], ""))
  }

  /** The four results of a single-page getter: records, next token, response
      and error, as Go returns them. */
  datatype Fetched<T> = Fetched(records: seq<T>, next: string, resp: Option<HttpResponse>, err: Option<Error>)

  /** `GetUsers`, `GetGroups`, `GetContactGroups`, `GetContactGroupMembers` and
      `GetRoleMembers`: fetch one page and hand back the server's next-page
      token unchanged. A failed request yields no records, an empty token and
      no response. */
  function GetPage<T>(up: Upstream<Envelope<T>>, token: string): (r: Fetched<T>)
    ensures r.err.Some? <==> FetchPage(up, token).Err?
    ensures r.err.Some? ==> r.records == [] && r.next == "" && r.resp.None?
                            && r.err.value == FetchPage(up, token).error
    ensures r.err.None? ==> && r.resp == Some(FetchPage(up, token).value.0)
                            && r.records == FetchPage(up, token).value.1.records
                            && r.next == FetchPage(up, token).value.1.next
  {
    match FetchPage(up, token)
    case Err(e) => Fetched([], "", None, Some(e))
    case Ok((resp, env)) =>
      if env.next != "" then Fetched(env.records, env.next, Some(resp), None)
      else Fetched(env.records, "", Some(resp), None)
  }

  /** `GetRoles`: the unpaginated role list, requested without a query. It
      succeeds only on a status below 400, an empty success is no roles, and
      a status of 400 or more fails with that status and body. */
  function GetRoles(up: Upstream<seq<Role>>): (r: Result<(HttpResponse, seq<Role>)>)
    ensures r.Ok? ==> up.transport([]).Ok? && r.value.0 == up.transport([]).value && r.value.0.status < 400
    ensures up.transport([]).Err? ==> r == Err(up.transport([]).error)
    ensures up.transport([]).Ok? && up.transport([]).value.status >= 400 ==>
              r == Err(StatusFailure(up.transport([]).value.status, up.transport([]).value.body))
    ensures up.transport([]).Ok? && up.transport([]).value.body == "" && 200 <= up.transport([]).value.status < 400 ==>
              r.Ok? && r.value.1 == []
  {
    Call(up, [], [])
  }

  /** `GetUser`: one user's details, requested without a query. It succeeds
      only on a status below 400, an empty success leaves the zero user, and
      a status of 400 or more (a 404 for a missing user) fails with that
      status and body. */
  function GetUser(up: Upstream<User>): (r: Result<(HttpResponse, User)>)
    ensures r.Ok? ==> up.transport([]).Ok? && r.value.0 == up.transport([]).value && r.value.0.status < 400
    ensures up.transport([]).Err? ==> r == Err(up.transport([]).error)
    ensures up.transport([]).Ok? && up.transport([]).value.status >= 400 ==>
              r == Err(StatusFailure(up.transport([]).value.status, up.transport([]).value.body))
    ensures up.transport([]).Ok? && up.transport([]).value.body == "" && 200 <= up.transport([]).value.status < 400 ==>
              r.Ok? && r.value.1 == EmptyUser
  {
    Call(up, [], EmptyUser)
  }

  /** `DeleteUser`: the delete request. It succeeds on an empty answer with a
      status in [200, 400) (Zoom answers 204), fails with the status and body
      on 400 or more, and otherwise succeeds only if the body is JSON. */
  function DeleteUser(up: Upstream<()>): (r: Result<(HttpResponse, ())>)
    ensures r.Ok? ==> up.transport([]).Ok? && r.value.0 == up.transport([]).value && r.value.0.status < 400
    ensures up.transport([]).Err? ==> r == Err(up.transport([]).error)
    ensures up.transport([]).Ok? && up.transport([]).value.status >= 400 ==>
              r == Err(StatusFailure(up.transport([]).value.status, up.transport([]).value.body))
    ensures up.transport([]).Ok? && up.transport([]).value.body == "" && 200 <= up.transport([]).value.status < 400 ==>
              r.Ok?
  {
    Call(up, [], ())
  }

  /** `CreateUser`: post the creation body; `send` is the transport's answer
      to it. It succeeds only on a status below 400 with the decoded answer,
      and a status of 400 or more fails with that status and body. */
  function CreateUser(send: UserCreationBody -> Result<HttpResponse>, decode: string -> Option<UserCreationResponse>,
                      body: UserCreationBody): (r: Result<(HttpResponse, UserCreationResponse)>)
    ensures r.Ok? ==> send(body).Ok? && r.value.0 == send(body).value && r.value.0.status < 400
    ensures send(body).Err? ==> r == Err(send(body).error)
    ensures send(body).Ok? && send(body).value.status >= 400 ==>
              r == Err(StatusFailure(send(body).value.status, send(body).value.body))
    ensures send(body).Ok? && send(body).value.body != "" && send(body).value.status < 400 ==>
              (r.Ok? <==> decode(send(body).value.body).Some?)
              && (r.Ok? ==> r.value.1 == decode(send(body).value.body).value)
  {
    DoRequest(send(body), decode, UserCreationResponse("", "", "", "", 0))
  }

  // ---------------------------------------------------------------------------
  // Draining a paginated list (`GetGroupMembers`, `GetGroupAdmins`)
  // ---------------------------------------------------------------------------

  /** The pages reachable from `token` reach an error or an empty next-page
      token within `n` requests: the chain of tokens is finite. */
  predicate EndsWithin<T>(up: Upstream<Envelope<T>>, token: string, n: nat)
    decreases n
  {
    n > 0 &&
    var f := FetchPage(up, token);
    f.Err? || f.value.1.next == "" || EndsWithin(up, f.value.1.next, n - 1)
  }

  /** Put `recs` in front of a successful result; errors stay as they are. */
  function Prepend<T>(recs: seq<T>, r: Result<seq<T>>): Result<seq<T>>
  {
    match r
    case Ok(rest) => Ok(recs + rest)
    case Err(e) => Err(e)
  }

  /** Everything the pages from `token` on hold, in order, or the first error. */
  function DrainFrom<T>(up: Upstream<Envelope<T>>, token: string, ghost n: nat): (r: Result<seq<T>>)
    requires EndsWithin(up, token, n)
    decreases n
  {
    match FetchPage(up, token)
    case Err(e) => Err(e)
    case Ok((_, env)) =>
      if env.next == "" then Ok(env.records)
      else Prepend(env.records, DrainFrom(up, env.next, n - 1))
  }

  /** The drained list does not depend on which bound on the chain is used. */
  lemma {:induction false} DrainFuelIrrelevant<T>(up: Upstream<Envelope<T>>, token: string, n: nat, m: nat)
    requires EndsWithin(up, token, n) && EndsWithin(up, token, m)
    ensures DrainFrom(up, token, n) == DrainFrom(up, token, m)
    decreases n
  {
    var f := FetchPage(up, token);
    if f.Ok? && f.value.1.next != "" {
      DrainFuelIrrelevant(up, f.value.1.next, n - 1, m - 1);
    }
  }

  lemma PrependAppend<T>(a: seq<T>, b: seq<T>, r: Result<seq<T>>)
    ensures Prepend(a, Prepend(b, r)) == Prepend(a + b, r)
  {
    if r.Ok? {
      assert a + (b + r.value) == (a + b) + r.value;
    }
  }

  /** The member/admin loop: start at the empty token, append each page's
      records, stop at the first page whose next token is empty, and on any
      failed page drop what was gathered and return only the error. */
  method Drain<T>(up: Upstream<Envelope<T>>, ghost n: nat) returns (records: seq<T>, err: Option<Error>)
    requires EndsWithin(up, "", n)
    ensures err.None? <==> DrainFrom(up, "", n).Ok?
    ensures err.None? ==> records == DrainFrom(up, "", n).value
    ensures err.Some? ==> records == [] && err.value == DrainFrom(up, "", n).error
  {
    var token := "";
    var acc: seq<T> := [];
    ghost var k := n;
    if DrainFrom(up, "", n).Ok? {
      assert [] + DrainFrom(up, "", n).value == DrainFrom(up, "", n).value;
    }
    while true
      invariant EndsWithin(up, token, k)
      invariant DrainFrom(up, "", n) == Prepend(acc, DrainFrom(up, token, k))
      decreases k
    {
      var f := FetchPage(up, token);
      if f.Err? {
        return [], Some(f.error);
      }
      var env := f.value.1;
      PrependAppend(acc, env.records, if env.next == "" then Ok([]) else DrainFrom(up, env.next, k - 1));
      acc := acc + env.records;
      if env.next == "" {
        assert acc + [] == acc;
        return acc, None;
      }
      token := env.next;
      k := k - 1;
    }
  }

  /** `pages` is the complete chain fetched from `token`: each page was served
      for the previous page's next token, every page but the last has a
      non-empty next token, and the last has an empty one. */
  ghost predicate IsChain<T>(up: Upstream<Envelope<T>>, token: string, pages: seq<Envelope<T>>)
    decreases |pages|
  {
    |pages| > 0 &&
    var f := FetchPage(up, token);
    f.Ok? && f.value.1 == pages[0] &&
    if |pages| == 1 then pages[0].next == ""
    else pages[0].next != "" && IsChain(up, pages[0].next, pages[1..])
  }

  /** `pages` were served from `token` on, each with a non-empty next token,
      and the request after them failed with `e`. */
  ghost predicate IsFailingChain<T>(up: Upstream<Envelope<T>>, token: string, pages: seq<Envelope<T>>, e: Error)
    decreases |pages|
  {
    var f := FetchPage(up, token);
    if pages == [] then f == Err(e)
    else f.Ok? && f.value.1 == pages[0] && pages[0].next != "" && IsFailingChain(up, pages[0].next, pages[1..], e)
  }

  /** The records of `pages`, page after page. */
  function Flatten<T>(pages: seq<Envelope<T>>): seq<T>
  {
    if pages == [] then [] else pages[0].records + Flatten(pages[1..])
  }

  /** A complete chain is finite, so draining it terminates. */
  lemma {:induction false} ChainEnds<T>(up: Upstream<Envelope<T>>, token: string, pages: seq<Envelope<T>>)
    requires IsChain(up, token, pages)
    ensures EndsWithin(up, token, |pages|)
    decreases |pages|
  {
    if |pages| > 1 {
      ChainEnds(up, pages[0].next, pages[1..]);
    }
  }

  /** Draining a complete chain yields the in-order concatenation of its pages. */
  lemma {:induction false} ChainDrains<T>(up: Upstream<Envelope<T>>, token: string, pages: seq<Envelope<T>>, n: nat)
    requires IsChain(up, token, pages) && EndsWithin(up, token, n)
    ensures DrainFrom(up, token, n) == Ok(Flatten(pages))
    decreases |pages|
  {
    if |pages| == 1 {
      assert Flatten(pages) == pages[0].records + Flatten(pages[1..]);
      assert pages[0].records + [] == pages[0].records;
    } else {
      ChainDrains(up, pages[0].next, pages[1..], n - 1);
    }
  }

  /** A failing chain is finite, so draining it terminates. */
  lemma {:induction false} FailingChainEnds<T>(up: Upstream<Envelope<T>>, token: string, pages: seq<Envelope<T>>, e: Error)
    requires IsFailingChain(up, token, pages, e)
    ensures EndsWithin(up, token, |pages| + 1)
    decreases |pages|
  {
    if pages != [] {
      FailingChainEnds(up, pages[0].next, pages[1..], e);
    }
  }

  /** One failed page anywhere in the chain discards every record gathered
      before it: the drain returns exactly that page's error. */
  lemma {:induction false} FailingChainDrains<T>(up: Upstream<Envelope<T>>, token: string, pages: seq<Envelope<T>>, e: Error, n: nat)
    requires IsFailingChain(up, token, pages, e) && EndsWithin(up, token, n)
    ensures DrainFrom(up, token, n) == Err(e)
    decreases |pages|
  {
    if pages != [] {
      FailingChainDrains(up, pages[0].next, pages[1..], e, n - 1);
    }
  }

  /** An endpoint whose every page names a further page "a". */
  function EndlessUpstream(): Upstream<Envelope<int>>
  {
    Upstream((q: Query) => Ok(HttpResponse(200, map[], "{}")), (b: string) => Some(Envelope([], "a")))
  }

  /** The drain trusts the server's next-page tokens: against an endpoint that
      always names a further page, no bound on the chain holds, so the
      member/admin loop never ends. */
  lemma {:induction false} EndlessChainNeverEnds(token: string, n: nat)
    ensures !EndsWithin(EndlessUpstream(), token, n)
    decreases n
  {
    if n > 0 {
      EndlessChainNeverEnds("a", n - 1);
    }
  }
}
