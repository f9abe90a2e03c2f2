/**
 * `HashnodeClient` (hashnode_py/client.py): the token check, the lookups
 * by username, id, host and slug, the follower pages and the feed.
 * `fetch_data` is `Transport.FetchData`; `get_post` is `Posts.GetPost`.
 */
module Client {
  import opened Wrappers
  import opened Json
  import opened Transport
  import opened Ascii
  import opened Users
  import opened Posts
  import opened Tags
  import opened Follows
  import opened Publications

  /** `HashnodeClient(token)`: a missing or empty token raises before any transport is built. */
  function NewClient(token: Option<string>): (r: Result<HashnodeClient, Err>)
    ensures r.Failure? <==> token.None? || token.value == ""
    ensures r.Failure? ==> r.error == ValueError("No token provided")
    ensures r.Success? ==> r.value.token == token.value
  {
    if token.None? || token.value == "" then Failure(ValueError("No token provided"))
    else Success(HashnodeClient(token.value))
  }

  /** Every resource a client hydrates carries a handle on the same token. */
  function Own(self: HashnodeClient): Handle {
    Hashnode(HashnodeClient(self.token))
  }

  /** `get_user`: sends {'username': username} and decodes data['user']. */
  function GetUser(self: HashnodeClient, fetch: Fetch, username: Json): (x: Exchange<User>)
    ensures x.sent == [Request(UserInfo, map["username" := username])] && Conforms(x.sent[0])
    ensures x.result.Success? ==>
      && fetch(x.sent[0]).Success?
      && Has(fetch(x.sent[0]).value, "user")
      && Success(x.result.value) == DecodeUser(fetch(x.sent[0]).value.fields["user"], Own(self))
    ensures fetch(x.sent[0]).Failure? ==> x.result == Failure(fetch(x.sent[0]).error)
    ensures fetch(x.sent[0]).Success? && Has(fetch(x.sent[0]).value, "user") ==>
      x.result == DecodeUser(fetch(x.sent[0]).value.fields["user"], Own(self))
    ensures fetch(x.sent[0]).Success? && !Has(fetch(x.sent[0]).value, "user") ==> x.result.Failure?
  {
    Then(FetchData(fetch, UserInfo, Some(map["username" := username])),
         (data: Json) => var node :- Field(data, "user"); DecodeUser(node, Own(self)))
  }

  /**
   * The variables of `get_publication`: a truthy id wins over the host, and
   * with neither a ValueError is raised.
   */
  function PublicationVariables(hostUrl: Json, hostId: Json): (r: Result<Vars, Err>)
    ensures r.Failure? <==> !Truthy(hostId) && !Truthy(hostUrl)
    ensures r.Failure? ==> r.error == ValueError("Either host or id must be provided")
    ensures Truthy(hostId) ==> r == Success(map["id" := hostId])
    ensures !Truthy(hostId) && Truthy(hostUrl) ==> r == Success(map["host" := hostUrl])
    ensures r.Success? ==> |r.value| == 1 && Conforms(Request(PublicationInfo, r.value))
  {
    if Truthy(hostId) then Success(map["id" := hostId])
    else if Truthy(hostUrl) then Success(map["host" := hostUrl])
    else Failure(ValueError("Either host or id must be provided"))
  }

  /** `get_publication`: the discriminator runs first, so a refused call sends nothing. */
  function GetPublication(self: HashnodeClient, fetch: Fetch, hostUrl: Json := JNull, hostId: Json := JNull)
    : (x: Exchange<Publication>)
    ensures PublicationVariables(hostUrl, hostId).Failure? ==> x == Refused(PublicationVariables(hostUrl, hostId).error)
    ensures PublicationVariables(hostUrl, hostId).Success? ==>
      x.sent == [Request(PublicationInfo, PublicationVariables(hostUrl, hostId).value)]
    ensures x.result.Success? ==>
      && fetch(x.sent[0]).Success?
      && Has(fetch(x.sent[0]).value, "publication")
      && Success(x.result.value) == DecodePublication(fetch(x.sent[0]).value.fields["publication"], Own(self))
    ensures PublicationVariables(hostUrl, hostId).Success? && fetch(x.sent[0]).Failure? ==> x.result == Failure(fetch(x.sent[0]).error)
    ensures PublicationVariables(hostUrl, hostId).Success? && fetch(x.sent[0]).Success? && Has(fetch(x.sent[0]).value, "publication") ==>
      x.result == DecodePublication(fetch(x.sent[0]).value.fields["publication"], Own(self))
    ensures PublicationVariables(hostUrl, hostId).Success? && fetch(x.sent[0]).Success? && !Has(fetch(x.sent[0]).value, "publication") ==>
      x.result.Failure?
  {
    match PublicationVariables(hostUrl, hostId)
    case Failure(e) => Refused(e)
    case Success(variables) =>
      Then(FetchData(fetch, PublicationInfo, Some(variables)),
           (data: Json) => var node :- Field(data, "publication"); DecodePublication(node, Own(self)))
  }

  /** `get_tag`: sends {'slug': tag_slug} and decodes data['tag']. */
  function GetTag(self: HashnodeClient, fetch: Fetch, slug: Json): (x: Exchange<Tag>)
    ensures x.sent == [Request(TagInfo, map["slug" := slug])] && Conforms(x.sent[0])
    ensures x.result.Success? ==>
      && fetch(x.sent[0]).Success?
      && Has(fetch(x.sent[0]).value, "tag")
      && Success(x.result.value) == DecodeTag(fetch(x.sent[0]).value.fields["tag"], Own(self))
    ensures fetch(x.sent[0]).Failure? ==> x.result == Failure(fetch(x.sent[0]).error)
    ensures fetch(x.sent[0]).Success? && Has(fetch(x.sent[0]).value, "tag") ==>
      x.result == DecodeTag(fetch(x.sent[0]).value.fields["tag"], Own(self))
    ensures fetch(x.sent[0]).Success? && !Has(fetch(x.sent[0]).value, "tag") ==> x.result.Failure?
  {
    Then(FetchData(fetch, TagInfo, Some(map["slug" := slug])),
         (data: Json) => var node :- Field(data, "tag"); DecodeTag(node, Own(self)))
  }

  /** The reply field and the query of each kind of page. */
  function PageRoot(kind: PageKind): string {
    match kind
    case Followers => "followers"
    case Follows => "follows"
  }

  function PageQuery(kind: PageKind): QueryId {
    match kind
    case Followers => FollowersInfo
    case Follows => FollowsInfo
  }

  /**
   * Decodes a follower page reply: one user per node of
   * data['user'][root]['nodes'], in order, then the page info beside them.
   */
  function DecodePageReply(data: Json, kind: PageKind, client: Handle): (r: Result<Page, Err>)
    ensures r.Success? <==>
      && HasKeys(data, ["user", PageRoot(kind), "nodes"])
      && var nodes := At(data, ["user", PageRoot(kind), "nodes"]);
      && nodes.JArr?
      && (forall i :: 0 <= i < |nodes.items| ==> DecodeUser(nodes.items[i], client).Success?)
      && HasKeys(data, ["user", PageRoot(kind), "pageInfo"])
      && HasPageKeys(At(data, ["user", PageRoot(kind), "pageInfo"]))
    ensures r.Success? ==>
      && HasKeys(data, ["user", PageRoot(kind), "nodes"])
      && HasKeys(data, ["user", PageRoot(kind), "pageInfo"])
      && var nodes := At(data, ["user", PageRoot(kind), "nodes"]);
      && nodes.JArr?
      && |r.value.users| == |nodes.items|
      && (forall i :: 0 <= i < |nodes.items| ==> DecodeUser(nodes.items[i], client) == Success(r.value.users[i]))
      && Success(r.value) == MakePage(kind, r.value.users, At(data, ["user", PageRoot(kind), "pageInfo"]), client)
  {
    var nodes :- Path(data, ["user", PageRoot(kind), "nodes"]);
    var items :- Items(nodes);
    var users :- DecodeEach(items, (n: Json) => DecodeUser(n, client));
    var pageInfo :- Path(data, ["user", PageRoot(kind), "pageInfo"]);
    MakePage(kind, users, pageInfo, client)
  }

  /** `get_followers` and `get_follows`: sends exactly {'username', 'pageSize', 'page'}. */
  function GetPage(self: HashnodeClient, fetch: Fetch, kind: PageKind, username: Json, pageSize: Json, page: Json)
    : (x: Exchange<Page>)
    ensures x.sent == [Request(PageQuery(kind), map["username" := username, "pageSize" := pageSize, "page" := page])]
    ensures Conforms(x.sent[0])
    ensures x.result.Success? ==>
      && fetch(x.sent[0]).Success?
      && Success(x.result.value) == DecodePageReply(fetch(x.sent[0]).value, kind, Own(self))
      && x.result.value.kind == kind
    ensures fetch(x.sent[0]).Failure? ==> x.result == Failure(fetch(x.sent[0]).error)
    ensures fetch(x.sent[0]).Success? ==> x.result == DecodePageReply(fetch(x.sent[0]).value, kind, Own(self))
  {
    var variables := map["username" := username, "pageSize" := pageSize, "page" := page];
    Then(FetchData(fetch, PageQuery(kind), Some(variables)), (data: Json) => DecodePageReply(data, kind, Own(self)))
  }

  /**
   * The feed variables as a precedence rule: {'first': n} plus the tags if
   * truthy, else the maximum reading time, else the minimum, else the
   * upper-cased type; never a merge of two filters.
   */
  function FeedSelection(n: int, feedType: Json, minReadTime: Json, maxReadTime: Json, tags: Json)
    : (r: Result<Vars, Err>)
    ensures r.Failure? <==> n > 50 || (Truthy(feedType) && !feedType.JStr?)
    ensures n > 50 ==> r == Failure(ValueError("Number of posts must be less than 50"))
    ensures n <= 50 && r.Failure? ==> r.error == AttributeError("upper")
    ensures r.Success? ==> "first" in r.value && r.value["first"] == JInt(n) && |r.value| <= 2
                           && Conforms(Request(Feed, r.value))
    ensures r.Success? && Truthy(tags) ==> r.value == map["first" := JInt(n), "tags" := tags]
    ensures r.Success? && !Truthy(tags) && Truthy(maxReadTime) ==>
      r.value == map["first" := JInt(n), "maxReadTime" := maxReadTime]
    ensures r.Success? && !Truthy(tags) && !Truthy(maxReadTime) && Truthy(minReadTime) ==>
      r.value == map["first" := JInt(n), "minReadTime" := minReadTime]
    ensures r.Success? && !Truthy(tags) && !Truthy(maxReadTime) && !Truthy(minReadTime) && Truthy(feedType) ==>
      r.value == map["first" := JInt(n), "type" := JStr(Upper(feedType.s))]
    ensures r.Success? && !Truthy(feedType) && !Truthy(minReadTime) && !Truthy(maxReadTime) && !Truthy(tags) ==>
      r.value == map["first" := JInt(n)]
  {
    if n > 50 then Failure(ValueError("Number of posts must be less than 50"))
    else if Truthy(feedType) && !feedType.JStr? then Failure(AttributeError("upper"))
    else if Truthy(tags) then Success(map["first" := JInt(n), "tags" := tags])
    else if Truthy(maxReadTime) then Success(map["first" := JInt(n), "maxReadTime" := maxReadTime])
    else if Truthy(minReadTime) then Success(map["first" := JInt(n), "minReadTime" := minReadTime])
    else if Truthy(feedType) then Success(map["first" := JInt(n), "type" := JStr(Upper(feedType.s))])
    else Success(map["first" := JInt(n)])
  }

  /**
   * The variable selection of `get_feed` as written: a chain of `if`s, each
   * overwriting the map the previous one built, then a reset to {'first': n}
   * when every filter is falsy. The last truthy filter wins.
   */
  method FeedVariables(n: int, feedType: Json, minReadTime: Json, maxReadTime: Json, tags: Json)
    returns (r: Result<Vars, Err>)
    ensures r == FeedSelection(n, feedType, minReadTime, maxReadTime, tags)
  {
    var variables: Option<Vars> := None;
    if n > 50 {
      return Failure(ValueError("Number of posts must be less than 50"));
    }
    var kind := feedType;
    if Truthy(kind) {
      if !kind.JStr? {
        return Failure(AttributeError("upper"));
      }
      UpperKeepsTruthiness(kind.s);
      kind := JStr(Upper(kind.s));
      variables := Some(map["first" := JInt(n), "type" := kind]);
    }
    if Truthy(minReadTime) {
      variables := Some(map["first" := JInt(n), "minReadTime" := minReadTime]);
    }
    if Truthy(maxReadTime) {
      variables := Some(map["first" := JInt(n), "maxReadTime" := maxReadTime]);
    }
    if Truthy(tags) {
      variables := Some(map["first" := JInt(n), "tags" := tags]);
    }
    if !Truthy(kind) && !Truthy(minReadTime) && !Truthy(maxReadTime) && !Truthy(tags) {
      variables := Some(map["first" := JInt(n)]);
    }
    r := Success(variables.value);
    if Truthy(tags) {
      assert r == FeedSelection(n, feedType, minReadTime, maxReadTime, tags);
    } else if Truthy(maxReadTime) {
      assert r == FeedSelection(n, feedType, minReadTime, maxReadTime, tags);
    } else if Truthy(minReadTime) {
      assert r == FeedSelection(n, feedType, minReadTime, maxReadTime, tags);
    } else if Truthy(feedType) {
      assert r == FeedSelection(n, feedType, minReadTime, maxReadTime, tags);
    } else {
      assert r == FeedSelection(n, feedType, minReadTime, maxReadTime, tags);
    }
  }

  /** Posts hydrated from a reply's feed edges, each carrying `client`. */
  function DecodeFeed(data: Json, client: Handle): (r: Result<seq<Post>, Err>)
    ensures r.Success? <==>
      && HasKeys(data, ["feed", "edges"])
      && var edges := At(data, ["feed", "edges"]);
      && edges.JArr?
      && forall i :: 0 <= i < |edges.items| ==>
           Has(edges.items[i], "node") && DecodePost(edges.items[i].fields["node"], client).Success?
    ensures r.Success? ==> HasKeys(data, ["feed", "edges"])
                           && EdgesDecodeTo(At(data, ["feed", "edges"]), (n: Json) => DecodePost(n, client), r.value)
    ensures r.Success? ==> forall i :: 0 <= i < |r.value| ==> r.value[i].client == client
  {
    var edges :- Path(data, ["feed", "edges"]);
    DecodeEdges(edges, (n: Json) => DecodePost(n, client))
  }

  /**
   * `get_feed` as written: the posts are given the raw gql client
   * (`self.client`) rather than a `HashnodeClient`.
   */
  method GetFeed(self: HashnodeClient, fetch: Fetch, n: int, feedType: Json := JNull, minReadTime: Json := JNull,
                 maxReadTime: Json := JNull, tags: Json := JNull)
    returns (x: Exchange<seq<Post>>)
    ensures FeedSelection(n, feedType, minReadTime, maxReadTime, tags).Failure? ==>
      x == Refused(FeedSelection(n, feedType, minReadTime, maxReadTime, tags).error)
    ensures FeedSelection(n, feedType, minReadTime, maxReadTime, tags).Success? ==>
      x == Then(FetchData(fetch, Feed, Some(FeedSelection(n, feedType, minReadTime, maxReadTime, tags).value)),
                (data: Json) => DecodeFeed(data, RawGql(self.token)))
  {
    var variables := FeedVariables(n, feedType, minReadTime, maxReadTime, tags);
    if variables.Failure? {
      return Refused(variables.error);
    }
    var reply := FetchData(fetch, Feed, Some(variables.value));
    x := Then(reply, (data: Json) => DecodeFeed(data, RawGql(self.token)));
  }

  /** `get_feed` as evidently intended: the posts carry a `HashnodeClient` on the same token. */
  method GetFeedHydrated(self: HashnodeClient, fetch: Fetch, n: int, feedType: Json := JNull,
                         minReadTime: Json := JNull, maxReadTime: Json := JNull, tags: Json := JNull)
    returns (x: Exchange<seq<Post>>)
    ensures FeedSelection(n, feedType, minReadTime, maxReadTime, tags).Failure? ==>
      x == Refused(FeedSelection(n, feedType, minReadTime, maxReadTime, tags).error)
    ensures FeedSelection(n, feedType, minReadTime, maxReadTime, tags).Success? ==>
      x == Then(FetchData(fetch, Feed, Some(FeedSelection(n, feedType, minReadTime, maxReadTime, tags).value)),
                (data: Json) => DecodeFeed(data, Own(self)))
  {
    var variables := FeedVariables(n, feedType, minReadTime, maxReadTime, tags);
    if variables.Failure? {
      return Refused(variables.error);
    }
    var reply := FetchData(fetch, Feed, Some(variables.value));
    x := Then(reply, (data: Json) => DecodeFeed(data, Own(self)));
  }

  /**
   * Every post of a feed reply decoded as written refuses `get_comments`
   * without a request, while the same post decoded with the client's own
   * handle sends the comments query.
   */
  lemma FeedPostsCannotFetch(self: HashnodeClient, data: Json, fetch: Fetch, i: nat, limit: int)
    requires DecodeFeed(data, RawGql(self.token)).Success?
    requires i < |DecodeFeed(data, RawGql(self.token)).value|
    ensures GetComments(DecodeFeed(data, RawGql(self.token)).value[i], fetch, limit)
            == Refused(AttributeError("fetch_data"))
    ensures DecodeFeed(data, Own(self)).Success?
    ensures GetComments(DecodeFeed(data, Own(self)).value[i], fetch, limit).sent
            == [Request(Comments, map["id" := DecodeFeed(data, RawGql(self.token)).value[i].id, "first" := JInt(limit)])]
  {
    var edges := At(data, ["feed", "edges"]);
    var raw := DecodeFeed(data, RawGql(self.token)).value;
    assert edges.JArr? && |raw| == |edges.items|;
    forall j | 0 <= j < |edges.items|
      ensures Has(edges.items[j], "node") && DecodePost(edges.items[j].fields["node"], Own(self)).Success?
    {
      assert DecodePost(edges.items[j].fields["node"], RawGql(self.token)).Success?;
    }
    var own := DecodeFeed(data, Own(self)).value;
    assert own[i] == raw[i].(client := Own(self)) by {
      var node := edges.items[i].fields["node"];
      assert DecodePost(node, RawGql(self.token)) == Success(raw[i]);
      assert DecodePost(node, Own(self)) == Success(own[i]);
      Posts.DecodeReadsOnlySelection(node, node, Own(self), RawGql(self.token));
    }
  }
}
