/**
 * The operations of `User` (hashnode_py/resources/user.py): the profile
 * lookups, the reply shapers of social links, badges and publications, and
 * the follow, like, comment and reply mutations.
 */
module UserActions {
  import opened Wrappers
  import opened Json
  import opened Transport
  import opened Users
  import opened Comments
  import opened Posts
  import opened Tags
  import opened Publications
  import opened Follows
  import opened Client

  /** The links `get_social_media` copies, in the order it reads them. */
  const SocialKeys: seq<string> :=
    ["website", "github", "twitter", "instagram", "facebook", "stackoverflow", "linkedin", "youtube"]

  /**
   * `{k: node[k] for k in keys}` written as a dict literal: the keys are read
   * in order and the first missing one raises.
   */
  function Pick(node: Json, keys: seq<string>): (r: Result<map<string, Json>, Err>)
    ensures r.Success? <==> forall i :: 0 <= i < |keys| ==> Has(node, keys[i])
    ensures r.Success? ==> r.value.Keys == (set i | 0 <= i < |keys| :: keys[i])
    ensures r.Success? ==> forall i :: 0 <= i < |keys| ==> r.value[keys[i]] == node.fields[keys[i]]
    ensures r.Failure? && node.JObj? ==>
      exists i :: 0 <= i < |keys| && !Has(node, keys[i]) && r.error == KeyError(keys[i])
                  && forall j :: 0 <= j < i ==> Has(node, keys[j])
  {
    if keys == [] then Success(map[])
    else
      var first :- Field(node, keys[0]);
      var rest := Pick(node, keys[1..]);
      if rest.Failure? then
        assert forall j :: 1 <= j < |keys| ==> keys[j] == keys[1..][j - 1];
        Failure(rest.error)
      else
        assert forall j :: 1 <= j < |keys| ==> keys[j] == keys[1..][j - 1];
        assert (set i | 0 <= i < |keys| :: keys[i]) == {keys[0]} + (set i | 0 <= i < |keys[1..]| :: keys[1..][i]);
        Success(rest.value[keys[0] := first])
  }

  /** What `get_social_media` returns for `filter`, given the reply's links. */
  function SocialShape(links: Json, filter: Json): (r: Result<Json, Err>)
    ensures r.Success? <==> (forall i :: 0 <= i < |SocialKeys| ==> Has(links, SocialKeys[i]))
                            && (filter != JStr("all") && filter.JStr? && Has(links, filter.s) ==> filter.s in SocialKeys)
    ensures r.Success? && filter == JStr("all") ==>
      r.value.JObj? && r.value.fields.Keys == (set i | 0 <= i < |SocialKeys| :: SocialKeys[i])
      && forall k :: k in r.value.fields ==> r.value.fields[k] == links.fields[k]
    ensures r.Success? && filter != JStr("all") && filter.JStr? && Has(links, filter.s) ==>
      r.value == links.fields[filter.s]
    ensures r.Success? && filter != JStr("all") && !(filter.JStr? && Has(links, filter.s)) ==> r.value == JNull
  {
    var social :- Pick(links, SocialKeys);
    if filter == JStr("all") then Success(JObj(social))
    else if filter.JStr? && Has(links, filter.s) then
      if filter.s in social then Success(social[filter.s]) else Failure(KeyError(filter.s))
    else Success(JNull)
  }

  /** `User.get_social_media`: sends {'username': self.username} and shapes data['user']['socialMediaLinks']. */
  function GetSocialMedia(self: User, fetch: Fetch, filter: Json := JStr("all")): (x: Exchange<Json>)
    ensures self.client.RawGql? ==> x == Refused(AttributeError("fetch_data"))
    ensures self.client.Hashnode? ==> x.sent == [Request(Transport.SocialMedia, map["username" := self.username])]
                                      && Conforms(x.sent[0])
    ensures x.result.Success? ==>
      && fetch(x.sent[0]).Success?
      && HasKeys(fetch(x.sent[0]).value, ["user", "socialMediaLinks"])
      && Success(x.result.value) == SocialShape(At(fetch(x.sent[0]).value, ["user", "socialMediaLinks"]), filter)
    ensures self.client.Hashnode? && fetch(x.sent[0]).Failure? ==> x.result == Failure(fetch(x.sent[0]).error)
    ensures self.client.Hashnode? && fetch(x.sent[0]).Success? && HasKeys(fetch(x.sent[0]).value, ["user", "socialMediaLinks"]) ==>
      x.result == SocialShape(At(fetch(x.sent[0]).value, ["user", "socialMediaLinks"]), filter)
    ensures self.client.Hashnode? && fetch(x.sent[0]).Success? && !HasKeys(fetch(x.sent[0]).value, ["user", "socialMediaLinks"])
      ==> x.result.Failure?
  {
    Lookup(self.client, fetch, Transport.SocialMedia, map["username" := self.username], ["user", "socialMediaLinks"],
           (links: Json) => SocialShape(links, filter))
  }

  /** Asking for one link gives the same value as picking it out of the 'all' result. */
  lemma SocialFilterAgreesWithAll(links: Json, i: nat)
    requires i < |SocialKeys|
    requires SocialShape(links, JStr("all")).Success?
    ensures SocialShape(links, JStr(SocialKeys[i])) == Success(SocialShape(links, JStr("all")).value.fields[SocialKeys[i]])
  {
    assert SocialKeys[i] in SocialKeys;
  }

  /**
   * One badge entry: `{'badge': b}` for 'all'; otherwise
   * `{'badge': b['name'], filter: b[filter]}`, where a filter named 'badge'
   * overwrites the name, as a dict literal with a repeated key does.
   */
  function BadgeEntry(badge: Json, filter: string): (r: Result<Json, Err>)
    ensures filter == "all" ==> r == Success(JObj(map["badge" := badge]))
    ensures filter != "all" ==> (r.Success? <==> Has(badge, "name") && Has(badge, filter))
    ensures filter != "all" && r.Success? ==>
      && r.value.JObj? && r.value.fields.Keys == {"badge", filter}
      && r.value.fields[filter] == badge.fields[filter]
      && (filter != "badge" ==> r.value.fields["badge"] == badge.fields["name"])
  {
    if filter == "all" then Success(JObj(map["badge" := badge]))
    else
      var name :- Field(badge, "name");
      var value :- Field(badge, filter);
      Success(JObj(map["badge" := name][filter := value]))
  }

  /** `[entry(b) for b in badges]`: one entry per badge, in order; the first badge that fails decides the error. */
  function BadgeEntries(badges: Json, filter: string): (r: Result<seq<Json>, Err>)
    ensures r.Success? <==> badges.JArr? && forall i :: 0 <= i < |badges.items| ==> BadgeEntry(badges.items[i], filter).Success?
    ensures r.Success? ==> |r.value| == |badges.items|
                           && forall i :: 0 <= i < |badges.items| ==> BadgeEntry(badges.items[i], filter) == Success(r.value[i])
  {
    var items :- Items(badges);
    DecodeEach(items, (b: Json) => BadgeEntry(b, filter))
  }

  /** `User.get_badges`: one entry per badge of data['user']['badges'], in order. */
  function GetBadges(self: User, fetch: Fetch, filter: string := "description"): (x: Exchange<seq<Json>>)
    ensures self.client.RawGql? ==> x == Refused(AttributeError("fetch_data"))
    ensures self.client.Hashnode? ==> x.sent == [Request(Badges, map["username" := self.username])]
                                      && Conforms(x.sent[0])
    ensures x.result.Success? ==>
      && fetch(x.sent[0]).Success?
      && HasKeys(fetch(x.sent[0]).value, ["user", "badges"])
      && var badges := At(fetch(x.sent[0]).value, ["user", "badges"]);
      && badges.JArr? && |x.result.value| == |badges.items|
      && forall i :: 0 <= i < |badges.items| ==> BadgeEntry(badges.items[i], filter) == Success(x.result.value[i])
    ensures self.client.Hashnode? && fetch(x.sent[0]).Failure? ==> x.result == Failure(fetch(x.sent[0]).error)
    ensures self.client.Hashnode? && fetch(x.sent[0]).Success? && HasKeys(fetch(x.sent[0]).value, ["user", "badges"]) ==>
      x.result == BadgeEntries(At(fetch(x.sent[0]).value, ["user", "badges"]), filter)
    ensures self.client.Hashnode? && fetch(x.sent[0]).Success? && !HasKeys(fetch(x.sent[0]).value, ["user", "badges"])
      ==> x.result.Failure?
  {
    Lookup(self.client, fetch, Badges, map["username" := self.username], ["user", "badges"],
           (badges: Json) => BadgeEntries(badges, filter))
  }

  /** What `get_publications` returns: the publications, or title/role pairs. */
  datatype Listing = PublicationList(publications: seq<Publication>) | RoleList(pairs: seq<Json>)

  /**
   * Builds the listing from the edges: every node is decoded and every
   * role read, whichever form is asked for, then the two lists are zipped.
   */
  function Listed(edges: Json, client: Handle, role: bool): (r: Result<Listing, Err>)
    ensures r.Success? <==> edges.JArr? && forall i :: 0 <= i < |edges.items| ==>
      && Has(edges.items[i], "node") && DecodePublication(edges.items[i].fields["node"], client).Success?
      && Has(edges.items[i], "role")
    ensures r.Success? ==>
      && EdgesDecodeTo(edges, (n: Json) => DecodePublication(n, client), PublicationsOf(edges, client))
      && (forall i :: 0 <= i < |edges.items| ==> Has(edges.items[i], "role"))
    ensures r.Success? && !role ==> r.value == PublicationList(PublicationsOf(edges, client))
    ensures r.Success? && role ==>
      && r.value.RoleList?
      && |r.value.pairs| == |edges.items|
      && forall i :: 0 <= i < |edges.items| ==>
           r.value.pairs[i] == JObj(map["publication" := PublicationsOf(edges, client)[i].title,
                                        "role" := edges.items[i].fields["role"]])
  {
    var nodes :- DecodeEdges(edges, (n: Json) => DecodePublication(n, client));
    var roles :- DecodeEach(edges.items, (e: Json) => Field(e, "role"));
    if role then
      Success(RoleList(seq(|nodes|, i requires 0 <= i < |nodes| =>
                             JObj(map["publication" := nodes[i].title, "role" := roles[i]]))))
    else Success(PublicationList(nodes))
  }

  /** The publications an edge list decodes to, when it decodes. */
  ghost function PublicationsOf(edges: Json, client: Handle): seq<Publication>
  {
    var r := DecodeEdges(edges, (n: Json) => DecodePublication(n, client));
    if r.Success? then r.value else []
  }

  /** Even without roles asked for, an edge without a role makes the call fail. */
  lemma RolesReadEvenWhenUnused(edges: Json, client: Handle, i: nat)
    requires edges.JArr? && i < |edges.items| && edges.items[i].JObj? && "role" !in edges.items[i].fields
    ensures Listed(edges, client, false).Failure?
  {
  }

  /** With and without roles the call fails on the same replies, and each pair names the publication decoded at its place. */
  lemma RoleListMatchesPublications(edges: Json, client: Handle)
    ensures Listed(edges, client, true).Success? == Listed(edges, client, false).Success?
    ensures Listed(edges, client, false).Success? ==>
      var ps := Listed(edges, client, false).value.publications;
      && |Listed(edges, client, true).value.pairs| == |ps|
      && forall i :: 0 <= i < |ps| ==>
           Listed(edges, client, true).value.pairs[i].fields["publication"] == ps[i].title
  {
  }

  /** `User.get_publications`: the listing of data['user']['publications']['edges']. */
  function GetPublications(self: User, fetch: Fetch, role: bool := false): (x: Exchange<Listing>)
    ensures self.client.RawGql? ==> x == Refused(AttributeError("fetch_data"))
    ensures self.client.Hashnode? ==> x.sent == [Request(Transport.Publications, map["username" := self.username])]
                                      && Conforms(x.sent[0])
    ensures x.result.Success? ==>
      && fetch(x.sent[0]).Success?
      && HasKeys(fetch(x.sent[0]).value, ["user", "publications", "edges"])
      && Success(x.result.value) == Listed(At(fetch(x.sent[0]).value, ["user", "publications", "edges"]), self.client, role)
    ensures self.client.Hashnode? && fetch(x.sent[0]).Failure? ==> x.result == Failure(fetch(x.sent[0]).error)
    ensures self.client.Hashnode? && fetch(x.sent[0]).Success? && HasKeys(fetch(x.sent[0]).value, ["user", "publications", "edges"]) ==>
      x.result == Listed(At(fetch(x.sent[0]).value, ["user", "publications", "edges"]), self.client, role)
    ensures self.client.Hashnode? && fetch(x.sent[0]).Success? && !HasKeys(fetch(x.sent[0]).value, ["user", "publications", "edges"])
      ==> x.result.Failure?
  {
    Lookup(self.client, fetch, Transport.Publications, map["username" := self.username],
           ["user", "publications", "edges"], (edges: Json) => Listed(edges, self.client, role))
  }

  /** `[decode(i) for i in nodes]`. */
  function DecodeList<T>(nodes: Json, decode: Json -> Result<T, Err>): (r: Result<seq<T>, Err>)
    ensures r.Success? <==> nodes.JArr? && forall i :: 0 <= i < |nodes.items| ==> decode(nodes.items[i]).Success?
    ensures r.Success? ==> |r.value| == |nodes.items|
                           && forall i :: 0 <= i < |nodes.items| ==> decode(nodes.items[i]) == Success(r.value[i])
  {
    var items :- Items(nodes);
    DecodeEach(items, decode)
  }

  /** `[Post(i, client) for i in nodes]`. */
  function DecodePosts(nodes: Json, client: Handle): (r: Result<seq<Post>, Err>)
    ensures r.Success? <==> nodes.JArr? && forall i :: 0 <= i < |nodes.items| ==> DecodePost(nodes.items[i], client).Success?
    ensures r.Success? ==> |r.value| == |nodes.items|
                           && forall i :: 0 <= i < |nodes.items| ==> DecodePost(nodes.items[i], client) == Success(r.value[i])
  {
    DecodeList(nodes, (n: Json) => DecodePost(n, client))
  }

  /** `User.get_posts`: sends {'username', 'page_size', 'page'} and builds one post per node, in order. */
  function GetPosts(self: User, fetch: Fetch, pageSize: Json, page: Json): (x: Exchange<seq<Post>>)
    ensures self.client.RawGql? ==> x == Refused(AttributeError("fetch_data"))
    ensures self.client.Hashnode? ==>
      x.sent == [Request(UserPosts, map["username" := self.username, "page_size" := pageSize, "page" := page])]
      && Conforms(x.sent[0])
    ensures x.result.Success? ==>
      && fetch(x.sent[0]).Success?
      && HasKeys(fetch(x.sent[0]).value, ["user", "posts", "nodes"])
      && var nodes := At(fetch(x.sent[0]).value, ["user", "posts", "nodes"]);
      && nodes.JArr? && |x.result.value| == |nodes.items|
      && forall i :: 0 <= i < |nodes.items| ==> DecodePost(nodes.items[i], self.client) == Success(x.result.value[i])
    ensures self.client.Hashnode? && fetch(x.sent[0]).Failure? ==> x.result == Failure(fetch(x.sent[0]).error)
    ensures self.client.Hashnode? && fetch(x.sent[0]).Success? && HasKeys(fetch(x.sent[0]).value, ["user", "posts", "nodes"]) ==>
      x.result == DecodePosts(At(fetch(x.sent[0]).value, ["user", "posts", "nodes"]), self.client)
    ensures self.client.Hashnode? && fetch(x.sent[0]).Success? && !HasKeys(fetch(x.sent[0]).value, ["user", "posts", "nodes"])
      ==> x.result.Failure?
  {
    Lookup(self.client, fetch, UserPosts, map["username" := self.username, "page_size" := pageSize, "page" := page],
           ["user", "posts", "nodes"], (nodes: Json) => DecodePosts(nodes, self.client))
  }

  /** The reply `get_posts` expects, holding the given nodes. */
  function PostsReply(nodes: seq<Json>): Json {
    JObj(map["user" := JObj(map["posts" := JObj(map["nodes" := JArr(nodes)])])])
  }

  /** Encoded posts, each decoded with its own client, give the posts back. */
  lemma EncodedPostsDecode(ps: seq<Post>, client: Handle)
    requires forall i :: 0 <= i < |ps| ==> ps[i].client == client
    ensures forall i :: 0 <= i < |ps| ==> DecodePost(EncodePost(ps[i]), client) == Success(ps[i])
  {
    forall i | 0 <= i < |ps|
      ensures DecodePost(EncodePost(ps[i]), client) == Success(ps[i])
    {
      PostRoundTrip(ps[i]);
    }
  }

  /** The nodes a server would send for `ps`. */
  function EncodedPosts(ps: seq<Post>): (nodes: seq<Json>)
    ensures |nodes| == |ps|
    ensures forall i :: 0 <= i < |ps| ==> nodes[i] == EncodePost(ps[i])
  {
    seq(|ps|, i requires 0 <= i < |ps| => EncodePost(ps[i]))
  }

  /** The nodes of encoded posts decode to those posts, in order. */
  lemma DecodeEncodedPosts(ps: seq<Post>, client: Handle)
    requires forall i :: 0 <= i < |ps| ==> ps[i].client == client
    ensures DecodePosts(JArr(EncodedPosts(ps)), client) == Success(ps)
  {
    EncodedPostsDecode(ps, client);
    var r := DecodePosts(JArr(EncodedPosts(ps)), client);
    assert r.value == ps;
  }

  lemma PostsReplyPath(nodes: seq<Json>)
    ensures HasKeys(PostsReply(nodes), ["user", "posts", "nodes"])
    ensures At(PostsReply(nodes), ["user", "posts", "nodes"]) == JArr(nodes)
  {
    var data := PostsReply(nodes);
    assert data.fields["user"].fields["posts"].fields["nodes"] == JArr(nodes);
  }

  /** A reply carrying encoded posts gives those posts back, in order. */
  lemma PostsRoundTrip(self: User, fetch: Fetch, pageSize: Json, page: Json, ps: seq<Post>)
    requires self.client.Hashnode?
    requires forall i :: 0 <= i < |ps| ==> ps[i].client == self.client
    requires fetch(Request(UserPosts, map["username" := self.username, "page_size" := pageSize, "page" := page]))
             == Success(PostsReply(EncodedPosts(ps)))
    ensures GetPosts(self, fetch, pageSize, page).result == Success(ps)
  {
    DecodeEncodedPosts(ps, self.client);
    PostsReplyPath(EncodedPosts(ps));
  }

  /** `[Tag(i, client) for i in nodes]`. */
  function DecodeTags(nodes: Json, client: Handle): (r: Result<seq<Tag>, Err>)
    ensures r.Success? <==> nodes.JArr? && forall i :: 0 <= i < |nodes.items| ==> DecodeTag(nodes.items[i], client).Success?
    ensures r.Success? ==> |r.value| == |nodes.items|
                           && forall i :: 0 <= i < |nodes.items| ==> DecodeTag(nodes.items[i], client) == Success(r.value[i])
  {
    DecodeList(nodes, (n: Json) => DecodeTag(n, client))
  }

  /** `User.get_tags_following`: one tag per element of data['user']['tagsFollowing'], in order. */
  function GetTagsFollowing(self: User, fetch: Fetch): (x: Exchange<seq<Tag>>)
    ensures self.client.RawGql? ==> x == Refused(AttributeError("fetch_data"))
    ensures self.client.Hashnode? ==> x.sent == [Request(TagsFollowing, map["username" := self.username])]
                                      && Conforms(x.sent[0])
    ensures x.result.Success? ==>
      && fetch(x.sent[0]).Success?
      && HasKeys(fetch(x.sent[0]).value, ["user", "tagsFollowing"])
      && var nodes := At(fetch(x.sent[0]).value, ["user", "tagsFollowing"]);
      && nodes.JArr? && |x.result.value| == |nodes.items|
      && forall i :: 0 <= i < |nodes.items| ==> DecodeTag(nodes.items[i], self.client) == Success(x.result.value[i])
    ensures self.client.Hashnode? && fetch(x.sent[0]).Failure? ==> x.result == Failure(fetch(x.sent[0]).error)
    ensures self.client.Hashnode? && fetch(x.sent[0]).Success? && HasKeys(fetch(x.sent[0]).value, ["user", "tagsFollowing"]) ==>
      x.result == DecodeTags(At(fetch(x.sent[0]).value, ["user", "tagsFollowing"]), self.client)
    ensures self.client.Hashnode? && fetch(x.sent[0]).Success? && !HasKeys(fetch(x.sent[0]).value, ["user", "tagsFollowing"])
      ==> x.result.Failure?
  {
    Lookup(self.client, fetch, TagsFollowing, map["username" := self.username], ["user", "tagsFollowing"],
           (nodes: Json) => DecodeTags(nodes, self.client))
  }

  /**
   * `User.get_followers` / `get_follows`: delegates to the client with the
   * user's own username; the raw gql handle has no such method.
   */
  function GetUserPage(self: User, fetch: Fetch, kind: PageKind, pageSize: Json, page: Json): (x: Exchange<Page>)
    ensures self.client.RawGql? ==>
      x == Refused(AttributeError(if kind == Followers then "get_followers" else "get_follows"))
    ensures self.client.Hashnode? ==>
      x == GetPage(self.client.hashnode, fetch, kind, self.username, pageSize, page)
      && x.sent == [Request(PageQuery(kind), map["username" := self.username, "pageSize" := pageSize, "page" := page])]
  {
    match self.client
    case RawGql(_) => Refused(AttributeError(if kind == Followers then "get_followers" else "get_follows"))
    case Hashnode(h) => GetPage(h, fetch, kind, self.username, pageSize, page)
  }

  /** The message `toggle_follow` builds from the reply's following flag. */
  function FollowMessage(status: Json, username: Json): (m: string)
    ensures Truthy(status) <==> m == "Successfully followed " + Format(username)
    ensures !Truthy(status) <==> m == "Successfully unfollowed " + Format(username)
  {
    if Truthy(status) then "Successfully followed " + Format(username)
    else "Successfully unfollowed " + Format(username)
  }

  /** `User.toggle_follow`: reads data['toggleFollowUser']['user']['following']. */
  function ToggleFollow(self: User, fetch: Fetch, username: Json): (x: Exchange<string>)
    ensures self.client.RawGql? ==> x == Refused(AttributeError("fetch_data"))
    ensures self.client.Hashnode? ==> x.sent == [Request(Transport.ToggleFollow, map["username" := username])]
                                      && Conforms(x.sent[0])
    ensures x.result.Success? ==>
      && fetch(x.sent[0]).Success?
      && HasKeys(fetch(x.sent[0]).value, ["toggleFollowUser", "user", "following"])
      && x.result.value == FollowMessage(At(fetch(x.sent[0]).value, ["toggleFollowUser", "user", "following"]), username)
    ensures self.client.Hashnode? && fetch(x.sent[0]).Failure? ==> x.result == Failure(fetch(x.sent[0]).error)
    ensures self.client.Hashnode? && fetch(x.sent[0]).Success? && HasKeys(fetch(x.sent[0]).value, ["toggleFollowUser", "user", "following"]) ==>
      x.result == Success(FollowMessage(At(fetch(x.sent[0]).value, ["toggleFollowUser", "user", "following"]), username))
    ensures self.client.Hashnode? && fetch(x.sent[0]).Success? && !HasKeys(fetch(x.sent[0]).value, ["toggleFollowUser", "user", "following"])
      ==> x.result.Failure?
  {
    Lookup(self.client, fetch, Transport.ToggleFollow, map["username" := username],
           ["toggleFollowUser", "user", "following"], (status: Json) => Success(FollowMessage(status, username)))
  }

  /** `f'Successfully liked "{value}"{suffix}'`. */
  function LikedMessage(value: Json, suffix: string): (r: Result<string, Err>)
    ensures r == Success("Successfully liked \"" + Format(value) + "\"" + suffix)
  {
    Success("Successfully liked \"" + Format(value) + "\"" + suffix)
  }

  /** `User.like_post`: likes default to 1; the message quotes the liked post's title. */
  function LikePost(self: User, fetch: Fetch, postId: Json, likes: Json := JInt(1)): (x: Exchange<string>)
    ensures self.client.RawGql? ==> x == Refused(AttributeError("fetch_data"))
    ensures self.client.Hashnode? ==> x.sent == [Request(Transport.LikePost, map["postId" := postId, "likesCount" := likes])]
                                      && Conforms(x.sent[0])
    ensures x.result.Success? ==>
      && fetch(x.sent[0]).Success?
      && HasKeys(fetch(x.sent[0]).value, ["likePost", "post", "title"])
      && x.result.value == "Successfully liked \"" + Format(At(fetch(x.sent[0]).value, ["likePost", "post", "title"])) + "\""
    ensures self.client.Hashnode? && fetch(x.sent[0]).Failure? ==> x.result == Failure(fetch(x.sent[0]).error)
    ensures self.client.Hashnode? && fetch(x.sent[0]).Success? && HasKeys(fetch(x.sent[0]).value, ["likePost", "post", "title"]) ==>
      x.result == LikedMessage(At(fetch(x.sent[0]).value, ["likePost", "post", "title"]), "")
    ensures self.client.Hashnode? && fetch(x.sent[0]).Success? && !HasKeys(fetch(x.sent[0]).value, ["likePost", "post", "title"])
      ==> x.result.Failure?
  {
    Lookup(self.client, fetch, Transport.LikePost, map["postId" := postId, "likesCount" := likes],
           ["likePost", "post", "title"], (title: Json) => LikedMessage(title, ""))
  }

  /** `User.like_comment`: the message quotes the liked comment's author. */
  function LikeComment(self: User, fetch: Fetch, commentId: Json, likes: Json := JInt(1)): (x: Exchange<string>)
    ensures self.client.RawGql? ==> x == Refused(AttributeError("fetch_data"))
    ensures self.client.Hashnode? ==>
      x.sent == [Request(Transport.LikeComment, map["commentId" := commentId, "likesCount" := likes])]
      && Conforms(x.sent[0])
    ensures x.result.Success? ==>
      && fetch(x.sent[0]).Success?
      && HasKeys(fetch(x.sent[0]).value, ["likeComment", "comment", "author", "username"])
      && x.result.value == "Successfully liked \""
                           + Format(At(fetch(x.sent[0]).value, ["likeComment", "comment", "author", "username"]))
                           + "\" comment"
    ensures self.client.Hashnode? && fetch(x.sent[0]).Failure? ==> x.result == Failure(fetch(x.sent[0]).error)
    ensures self.client.Hashnode? && fetch(x.sent[0]).Success? && HasKeys(fetch(x.sent[0]).value, ["likeComment", "comment", "author", "username"]) ==>
      x.result == LikedMessage(At(fetch(x.sent[0]).value, ["likeComment", "comment", "author", "username"]), " comment")
    ensures self.client.Hashnode? && fetch(x.sent[0]).Success? && !HasKeys(fetch(x.sent[0]).value, ["likeComment", "comment", "author", "username"])
      ==> x.result.Failure?
  {
    Lookup(self.client, fetch, Transport.LikeComment, map["commentId" := commentId, "likesCount" := likes],
           ["likeComment", "comment", "author", "username"], (author: Json) => LikedMessage(author, " comment"))
  }

  /** A comment mutation: one request, then a comment decoded from `data[root][field]`. */
  function CommentCall(self: User, fetch: Fetch, query: QueryId, variables: Vars, root: string, field: string, kind: Kind)
    : (x: Exchange<Comment>)
    ensures self.client.RawGql? ==> x == Refused(AttributeError("fetch_data"))
    ensures self.client.Hashnode? ==> x.sent == [Request(query, variables)]
    ensures x.result.Success? ==>
      && fetch(x.sent[0]).Success?
      && HasKeys(fetch(x.sent[0]).value, [root, field])
      && Success(x.result.value) == DecodeComment(At(fetch(x.sent[0]).value, [root, field]), self.client, kind)
      && x.result.value.kind == kind
    ensures self.client.Hashnode? && fetch(x.sent[0]).Failure? ==> x.result == Failure(fetch(x.sent[0]).error)
    ensures self.client.Hashnode? && fetch(x.sent[0]).Success? && HasKeys(fetch(x.sent[0]).value, [root, field]) ==>
      x.result == DecodeComment(At(fetch(x.sent[0]).value, [root, field]), self.client, kind)
    ensures self.client.Hashnode? && fetch(x.sent[0]).Success? && !HasKeys(fetch(x.sent[0]).value, [root, field])
      ==> x.result.Failure?
  {
    Lookup(self.client, fetch, query, variables, [root, field], (n: Json) => DecodeComment(n, self.client, kind))
  }

  /** `User.add_comment`: decodes data['addComment']['comment']. */
  function AddComment(self: User, fetch: Fetch, postId: Json, content: Json): (x: Exchange<Comment>)
    ensures x == CommentCall(self, fetch, Transport.AddComment, map["postId" := postId, "content" := content],
                             "addComment", "comment", TopLevel)
    ensures Conforms(Request(Transport.AddComment, map["postId" := postId, "content" := content]))
  {
    CommentCall(self, fetch, Transport.AddComment, map["postId" := postId, "content" := content], "addComment", "comment", TopLevel)
  }

  /** `User.update_comment`: decodes data['updateComment']['comment']. */
  function UpdateComment(self: User, fetch: Fetch, commentId: Json, content: Json): (x: Exchange<Comment>)
    ensures x == CommentCall(self, fetch, Transport.UpdateComment, map["commentId" := commentId, "content" := content],
                             "updateComment", "comment", TopLevel)
    ensures Conforms(Request(Transport.UpdateComment, map["commentId" := commentId, "content" := content]))
  {
    CommentCall(self, fetch, Transport.UpdateComment, map["commentId" := commentId, "content" := content],
                "updateComment", "comment", TopLevel)
  }

  /** `User.add_reply`: decodes data['addReply']['reply'] as a `Reply`. */
  function AddReply(self: User, fetch: Fetch, commentId: Json, content: Json): (x: Exchange<Comment>)
    ensures x == CommentCall(self, fetch, Transport.AddReply, map["commentId" := commentId, "content" := content],
                             "addReply", "reply", Reply)
    ensures Conforms(Request(Transport.AddReply, map["commentId" := commentId, "content" := content]))
  {
    CommentCall(self, fetch, Transport.AddReply, map["commentId" := commentId, "content" := content], "addReply", "reply", Reply)
  }

  /** `User.update_reply`: decodes data['updateReply']['reply'] as a `Reply`. */
  function UpdateReply(self: User, fetch: Fetch, commentId: Json, replyId: Json, content: Json): (x: Exchange<Comment>)
    ensures x == CommentCall(self, fetch, Transport.UpdateReply,
                             map["commentId" := commentId, "content" := content, "replyId" := replyId],
                             "updateReply", "reply", Reply)
    ensures Conforms(Request(Transport.UpdateReply, map["commentId" := commentId, "content" := content, "replyId" := replyId]))
  {
    CommentCall(self, fetch, Transport.UpdateReply, map["commentId" := commentId, "content" := content, "replyId" := replyId],
                "updateReply", "reply", Reply)
  }

  /** `User.remove_comment`: the reply is ignored. */
  function RemoveComment(self: User, fetch: Fetch, commentId: Json): (x: Exchange<string>)
    ensures self.client.RawGql? ==> x == Refused(AttributeError("fetch_data"))
    ensures self.client.Hashnode? ==> x.sent == [Request(Transport.RemoveComment, map["commentId" := commentId])]
                                      && Conforms(x.sent[0])
    ensures x.result.Success? <==> self.client.Hashnode? && fetch(x.sent[0]).Success?
    ensures self.client.Hashnode? && fetch(x.sent[0]).Failure? ==> x.result == Failure(fetch(x.sent[0]).error)
    ensures x.result.Success? ==> x.result.value == "Successfully removed comment"
  {
    Constant(Send(self.client, fetch, Transport.RemoveComment, map["commentId" := commentId]), "Successfully removed comment")
  }

  /** `User.remove_reply`: the reply is ignored. */
  function RemoveReply(self: User, fetch: Fetch, commentId: Json, replyId: Json): (x: Exchange<string>)
    ensures self.client.RawGql? ==> x == Refused(AttributeError("fetch_data"))
    ensures self.client.Hashnode? ==>
      x.sent == [Request(Transport.RemoveReply, map["commentId" := commentId, "replyId" := replyId])]
      && Conforms(x.sent[0])
    ensures x.result.Success? <==> self.client.Hashnode? && fetch(x.sent[0]).Success?
    ensures self.client.Hashnode? && fetch(x.sent[0]).Failure? ==> x.result == Failure(fetch(x.sent[0]).error)
    ensures x.result.Success? ==> x.result.value == "Successfully removed reply"
  {
    Constant(Send(self.client, fetch, Transport.RemoveReply, map["commentId" := commentId, "replyId" := replyId]),
             "Successfully removed reply")
  }
}
