/**
 * `Followers` and `Follows` (hashnode_py/resources/follow.py): a page of
 * users together with the four page-info values of the reply.
 */
module Follows {
  import opened Wrappers
  import opened Json
  import opened Transport
  import opened Users

  /** `Follows` subclasses `Followers` and only calls its constructor. */
  datatype PageKind = Followers | Follows

  datatype Page = Page(
    kind: PageKind,
    client: Handle,
    users: seq<User>,
    pageInfo: Json,
    hasNextPage: Json,
    hasPreviousPage: Json,
    nextPage: Json,
    previousPage: Json)

  /** The four keys the constructor reads from the page info, in the order it reads them. */
  predicate HasPageKeys(pageInfo: Json) {
    && Has(pageInfo, "hasNextPage")
    && Has(pageInfo, "hasPreviousPage")
    && Has(pageInfo, "nextPage")
    && Has(pageInfo, "previousPage")
  }

  /**
   * `Followers(users, page_info, client)` (or `Follows`): the users are kept
   * as given and the four page-info values are copied unchanged, nulls
   * included; a missing key raises.
   */
  function MakePage(kind: PageKind, users: seq<User>, pageInfo: Json, client: Handle): (r: Result<Page, Err>)
    ensures r.Success? <==> HasPageKeys(pageInfo)
    ensures r.Success? ==> r.value == Page(
      kind := kind,
      client := client,
      users := users,
      pageInfo := pageInfo,
      hasNextPage := pageInfo.fields["hasNextPage"],
      hasPreviousPage := pageInfo.fields["hasPreviousPage"],
      nextPage := pageInfo.fields["nextPage"],
      previousPage := pageInfo.fields["previousPage"])
    ensures r.Failure? && pageInfo.JObj? ==>
      r.error == KeyError(
        if "hasNextPage" !in pageInfo.fields then "hasNextPage"
        else if "hasPreviousPage" !in pageInfo.fields then "hasPreviousPage"
        else if "nextPage" !in pageInfo.fields then "nextPage"
        else "previousPage")
  {
    var hasNextPage :- Field(pageInfo, "hasNextPage");
    var hasPreviousPage :- Field(pageInfo, "hasPreviousPage");
    var nextPage :- Field(pageInfo, "nextPage");
    var previousPage :- Field(pageInfo, "previousPage");
    Success(Page(kind, client, users, pageInfo, hasNextPage, hasPreviousPage, nextPage, previousPage))
  }

  /** `Follows` is built exactly as `Followers` is: the two pages differ only in their kind. */
  lemma FollowsLikeFollowers(users: seq<User>, pageInfo: Json, client: Handle)
    ensures MakePage(Follows, users, pageInfo, client).Success? == MakePage(Followers, users, pageInfo, client).Success?
    ensures MakePage(Follows, users, pageInfo, client).Success? ==>
      MakePage(Follows, users, pageInfo, client).value
      == MakePage(Followers, users, pageInfo, client).value.(kind := Follows)
  {
  }

  /** The page info of a last page, `{hasNextPage: false, hasPreviousPage: true, nextPage: null, previousPage: p}`. */
  function LastPageInfo(previous: Json): Json {
    JObj(map["hasNextPage" := JBool(false), "hasPreviousPage" := JBool(true),
             "nextPage" := JNull, "previousPage" := previous])
  }

  /** On a last page the null next page is kept as None rather than failing. */
  lemma LastPageKeepsNull(kind: PageKind, users: seq<User>, previous: Json, client: Handle)
    ensures MakePage(kind, users, LastPageInfo(previous), client).Success?
    ensures MakePage(kind, users, LastPageInfo(previous), client).value.nextPage == JNull
    ensures MakePage(kind, users, LastPageInfo(previous), client).value.hasNextPage == JBool(false)
    ensures MakePage(kind, users, LastPageInfo(previous), client).value.previousPage == previous
  {
  }
}
