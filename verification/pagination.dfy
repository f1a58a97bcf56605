/** The pagination bag behind the opaque cursor: a stack of frames, each scoped
    to a resource type (and resource) and holding that listing's upstream
    page token. How the library serialises the bag is not visible, so
    unmarshalling and `NextToken` are parameters of the model. */
module Pagination {
  import opened Base
  import opened Sdk

  datatype Frame = Frame(resourceTypeId: string, resourceId: string, token: string)

  /** A stack of frames; the last one is the current frame. */
  type Bag = seq<Frame>

  /** `Bag.Current`: the top frame, if any. */
  function Current(b: Bag): (f: Option<Frame>)
    ensures f.None? <==> b == []
    ensures f.Some? ==> f.value == b[|b| - 1]
  {
    if b == [] then None else Some(b[|b| - 1])
  }

  /** `Bag.PageToken`: the current frame's token, or "" when there is none. */
  function PageToken(b: Bag): string
  {
    match Current(b)
    case None => ""
    case Some(f) => f.token
  }

  /** The library's cursor operations: decode an opaque token into a bag, and
      `NextToken`, which records a new upstream page in the current frame and
      encodes the bag. */
  datatype CursorCodec = CursorCodec(
    unmarshal: string -> Result<Bag>,
    nextToken: (Bag, string) -> Result<string>)

  /** The codec never encodes a pending page as the empty, terminal cursor. */
  ghost predicate NonEmptyCursors(codec: CursorCodec)
  {
    forall b: Bag, page: string {:trigger codec.nextToken(b, page)} ::
      page != "" && codec.nextToken(b, page).Ok? ==> codec.nextToken(b, page).value != ""
  }

  /** `parsePageToken`: decode the cursor; if the bag has no current frame,
      push one for `rid` with no page yet. Answer the bag and the page token of
      its current frame. A token that does not decode is an error, never a
      silent restart. */
  function ParsePageToken(unmarshal: string -> Result<Bag>, token: string, rid: ResourceId): (r: Result<(Bag, string)>)
    ensures r.Err? <==> unmarshal(token).Err?
    ensures r.Err? ==> r.error == unmarshal(token).error
    ensures r.Ok? ==> var (bag, page) := r.value; var b := unmarshal(token).value;
              && Current(bag).Some?
              && page == Current(bag).value.token
              && |b| <= |bag| && bag[..|b|] == b
              && (b == [] ==> bag == [Frame(rid.resourceType, rid.resource, "")])
              && (b != [] ==> bag == b)
  {
    match unmarshal(token)
    case Err(e) => Err(e)
    case Ok(b) =>
      var bag := if Current(b).None? then b + [Frame(rid.resourceType, rid.resource, "")] else b;
      Ok((bag, PageToken(bag)))
  }

  /** The cursor a driver returns after one upstream page: `NextToken` when the
      server reported another page, the empty cursor otherwise. */
  function NextCursor(codec: CursorCodec, bag: Bag, next: string): (r: Result<string>)
    ensures next == "" ==> r == Ok("")
    ensures next != "" ==> r == codec.nextToken(bag, next)
    ensures NonEmptyCursors(codec) && r.Ok? ==> (r.value == "" <==> next == "")
  {
    if next != "" then codec.nextToken(bag, next) else Ok("")
  }
}
