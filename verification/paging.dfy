/** The shape every paginated List and Grants driver shares: recover the page
    from the cursor, fetch that one upstream page, build the next cursor, read
    the rate-limit annotation and map each record. Any failure along the way
    answers nothing but the error. */
module Paging {
  import opened Base
  import opened Sdk
  import opened Client
  import opened Pagination
  import opened RateLimit

  /** The upstream page a cursor asks for ("" for a cursor that does not decode). */
  function RequestedPage(codec: CursorCodec, token: string, frame: ResourceId): string
  {
    match ParsePageToken(codec.unmarshal, token, frame)
    case Ok((_, page)) => page
    case Err(_) => ""
  }

  /** The cursor decodes, its page is fetched, and the next cursor is built. */
  predicate Served<T>(codec: CursorCodec, token: string, frame: ResourceId, up: Upstream<Envelope<T>>)
  {
    match ParsePageToken(codec.unmarshal, token, frame)
    case Err(_) => false
    case Ok((bag, page)) =>
      var fetched := GetPage(up, page);
      fetched.err.None? && NextCursor(codec, bag, fetched.next).Ok?
  }

  /** The records of one page, each mapped by `f`, in order. */
  function MapAll<T, R>(xs: seq<T>, f: T -> R): (ys: seq<R>)
    ensures |ys| == |xs|
    ensures forall i :: 0 <= i < |xs| ==> ys[i] == f(xs[i])
  {
    seq(|xs|, i requires 0 <= i < |xs| => f(xs[i]))
  }

  /** One call of a paginated driver whose cursor frames are scoped to `frame`. */
  function PagedList<T, R>(codec: CursorCodec, token: string, frame: ResourceId, up: Upstream<Envelope<T>>,
                           f: T -> R): (r: Listing<R>)
    ensures r.err.None? <==> Served(codec, token, frame, up)
    ensures r.err.Some? ==> r.items == [] && r.cursor == "" && r.annos == []
    ensures r.err.None? ==>
              var fetched := GetPage(up, RequestedPage(codec, token, frame));
              && |r.items| == |fetched.records|
              && (forall i :: 0 <= i < |r.items| ==> r.items[i] == f(fetched.records[i]))
              && (NonEmptyCursors(codec) ==> (r.cursor == "" <==> fetched.next == ""))
              && r.annos == ParseResp(fetched.resp).0
  {
    match ParsePageToken(codec.unmarshal, token, frame)
    case Err(e) => Failed(e)
    case Ok((bag, page)) =>
      var fetched := GetPage(up, page);
      if fetched.err.Some? then Failed(fetched.err.value)
      else match NextCursor(codec, bag, fetched.next)
        case Err(e) => Failed(e)
        case Ok(cursor) =>
          var (annos, _) := ParseResp(fetched.resp);
          Listing(MapAll(fetched.records, f), cursor, annos, None)
  }

  /** A cursor that decodes and a page answered with a status of 400 or more
      give a failed listing carrying that status and body, and nothing else. */
  lemma PagedListErrorStatus<T, R>(codec: CursorCodec, token: string, frame: ResourceId, up: Upstream<Envelope<T>>,
                                   f: T -> R)
    requires codec.unmarshal(token).Ok?
    requires var answer := up.transport(PaginationQuery(RequestedPage(codec, token, frame)));
             answer.Ok? && answer.value.status >= 400
    ensures var answer := up.transport(PaginationQuery(RequestedPage(codec, token, frame)));
            PagedList(codec, token, frame, up, f) == Failed(StatusFailure(answer.value.status, answer.value.body))
  {
  }
}
