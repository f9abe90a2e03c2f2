/**
 * The `Post` snapshot, its constructor and `get_comments`
 * (hashnode_py/resources/post.py), and the single-post lookup
 * `HashnodeClient.get_post`, which the publication's `update_post` also uses.
 */
module Posts {
  import opened Wrappers
  import opened Json
  import opened Transport
  import opened Comments

  datatype Post = Post(
    client: Handle,
    id: Json,
    slug: Json,
    title: Json,
    subtitle: Json,
    author: Json,
    url: Json,
    publication: Json,
    cuid: Json,
    coverImage: Json,
    brief: Json,
    readTime: Json,
    views: Json,
    reactionCount: Json,
    responseCount: Json,
    featured: Json,
    bookmarked: Json,
    featuredAt: Json,
    publishedAt: Json,
    updatedAt: Json,
    isFollowed: Json,
    content: Json)

  /** The top-level fields the single-post, feed and user-posts selections all ask for. */
  const PostSelection: set<string> := {
    "id", "slug", "title", "subtitle", "author", "url", "publication", "cuid", "coverImage",
    "brief", "readTimeInMinutes", "views", "reactionCount", "responseCount", "featured",
    "bookmarked", "featuredAt", "publishedAt", "updatedAt", "isFollowed", "content"}

  /**
   * The nodes the constructor accepts: every field present; author,
   * publication and content must be dicts, coverImage may be null.
   */
  predicate Decodable(node: Json) {
    && Has(node, "id")
    && Has(node, "slug")
    && Has(node, "title")
    && Has(node, "subtitle")
    && HasPath(node, "author", "username")
    && Has(node, "url")
    && HasPath(node, "publication", "title")
    && Has(node, "cuid")
    && HasGuarded(node, "coverImage", "url")
    && Has(node, "brief")
    && Has(node, "readTimeInMinutes")
    && Has(node, "views")
    && Has(node, "reactionCount")
    && Has(node, "responseCount")
    && Has(node, "featured")
    && Has(node, "bookmarked")
    && Has(node, "featuredAt")
    && Has(node, "publishedAt")
    && Has(node, "updatedAt")
    && Has(node, "isFollowed")
    && HasPath(node, "content", "markdown")
  }

  /** `Post(data, client)`. */
  function DecodePost(node: Json, client: Handle): (r: Result<Post, Err>)
    ensures r.Success? <==> Decodable(node)
    ensures r.Success? ==> r.value == Post(
      client := client,
      id := node.fields["id"],
      slug := node.fields["slug"],
      title := node.fields["title"],
      subtitle := node.fields["subtitle"],
      author := node.fields["author"].fields["username"],
      url := node.fields["url"],
      publication := node.fields["publication"].fields["title"],
      cuid := node.fields["cuid"],
      coverImage := GuardedAt(node, "coverImage", "url"),
      brief := node.fields["brief"],
      readTime := node.fields["readTimeInMinutes"],
      views := node.fields["views"],
      reactionCount := node.fields["reactionCount"],
      responseCount := node.fields["responseCount"],
      featured := node.fields["featured"],
      bookmarked := node.fields["bookmarked"],
      featuredAt := node.fields["featuredAt"],
      publishedAt := node.fields["publishedAt"],
      updatedAt := node.fields["updatedAt"],
      isFollowed := node.fields["isFollowed"],
      content := node.fields["content"].fields["markdown"])
  {
    var id :- Field(node, "id");
    var slug :- Field(node, "slug");
    var title :- Field(node, "title");
    var subtitle :- Field(node, "subtitle");
    var author :- Nested(node, "author", "username");
    var url :- Field(node, "url");
    var publication :- Nested(node, "publication", "title");
    var cuid :- Field(node, "cuid");
    var coverImage :- Guarded(node, "coverImage", "url");
    var brief :- Field(node, "brief");
    var readTime :- Field(node, "readTimeInMinutes");
    var views :- Field(node, "views");
    var reactionCount :- Field(node, "reactionCount");
    var responseCount :- Field(node, "responseCount");
    var featured :- Field(node, "featured");
    var bookmarked :- Field(node, "bookmarked");
    var featuredAt :- Field(node, "featuredAt");
    var publishedAt :- Field(node, "publishedAt");
    var updatedAt :- Field(node, "updatedAt");
    var isFollowed :- Field(node, "isFollowed");
    var content :- Nested(node, "content", "markdown");
    Success(Post(client, id, slug, title, subtitle, author, url, publication, cuid, coverImage, brief,
                 readTime, views, reactionCount, responseCount, featured, bookmarked, featuredAt,
                 publishedAt, updatedAt, isFollowed, content))
  }

  /** The post node the selections describe; a None cover image is sent as null. */
  function EncodePost(p: Post): Json {
    JObj(map[
      "id" := p.id,
      "slug" := p.slug,
      "title" := p.title,
      "subtitle" := p.subtitle,
      "author" := JObj(map["username" := p.author]),
      "url" := p.url,
      "publication" := JObj(map["title" := p.publication]),
      "cuid" := p.cuid,
      "coverImage" := if p.coverImage == JNull then JNull else JObj(map["url" := p.coverImage]),
      "brief" := p.brief,
      "readTimeInMinutes" := p.readTime,
      "views" := p.views,
      "reactionCount" := p.reactionCount,
      "responseCount" := p.responseCount,
      "featured" := p.featured,
      "bookmarked" := p.bookmarked,
      "featuredAt" := p.featuredAt,
      "publishedAt" := p.publishedAt,
      "updatedAt" := p.updatedAt,
      "isFollowed" := p.isFollowed,
      "content" := JObj(map["markdown" := p.content])])
  }

  lemma EncodedIdFields(p: Post)
    ensures var e := EncodePost(p);
      && Has(e, "id") && Has(e, "slug") && Has(e, "title") && Has(e, "subtitle")
      && e.fields["id"] == p.id && e.fields["slug"] == p.slug && e.fields["title"] == p.title
      && e.fields["subtitle"] == p.subtitle
  {
  }

  lemma EncodedNestedFields(p: Post)
    ensures var e := EncodePost(p);
      && HasPath(e, "author", "username") && Has(e, "url") && HasPath(e, "publication", "title")
      && e.fields["author"].fields["username"] == p.author
      && e.fields["url"] == p.url && e.fields["publication"].fields["title"] == p.publication
  {
  }

  lemma EncodedCoverFields(p: Post)
    ensures var e := EncodePost(p);
      && Has(e, "cuid") && HasGuarded(e, "coverImage", "url") && Has(e, "brief")
      && e.fields["cuid"] == p.cuid && GuardedAt(e, "coverImage", "url") == p.coverImage
      && e.fields["brief"] == p.brief
  {
    var cover := EncodePost(p).fields["coverImage"];
    assert p.coverImage != JNull ==> "url" in cover.fields && Truthy(cover);
  }

  lemma EncodedCountFields(p: Post)
    ensures var e := EncodePost(p);
      && Has(e, "readTimeInMinutes") && Has(e, "views") && Has(e, "reactionCount") && Has(e, "responseCount")
      && e.fields["readTimeInMinutes"] == p.readTime
      && e.fields["views"] == p.views && e.fields["reactionCount"] == p.reactionCount
      && e.fields["responseCount"] == p.responseCount
  {
  }

  lemma EncodedTailFields(p: Post)
    ensures var e := EncodePost(p);
      && Has(e, "featured") && Has(e, "bookmarked") && Has(e, "featuredAt") && Has(e, "publishedAt")
      && Has(e, "updatedAt") && Has(e, "isFollowed") && HasPath(e, "content", "markdown")
      && e.fields["featured"] == p.featured && e.fields["bookmarked"] == p.bookmarked
      && e.fields["featuredAt"] == p.featuredAt && e.fields["publishedAt"] == p.publishedAt
      && e.fields["updatedAt"] == p.updatedAt && e.fields["isFollowed"] == p.isFollowed
      && e.fields["content"].fields["markdown"] == p.content
  {
  }

  lemma PostRoundTrip(p: Post)
    ensures DecodePost(EncodePost(p), p.client) == Success(p)
  {
    EncodedIdFields(p);
    EncodedNestedFields(p);
    EncodedCoverFields(p);
    EncodedCountFields(p);
    EncodedTailFields(p);
  }

  /**
   * The decoder reads only the selected fields: two nodes that agree on
   * them (a feed node and a single-post node, say, whatever else they
   * carry) decode to posts that agree on every modelled attribute, up to
   * the client each is given. The raw `data` attribute, which would keep
   * the difference, is not part of the record.
   */
  lemma DecodeReadsOnlySelection(n1: Json, n2: Json, c1: Handle, c2: Handle)
    requires n1.JObj? && n2.JObj?
    requires forall k :: k in PostSelection ==>
               (k in n1.fields <==> k in n2.fields) && (k in n1.fields ==> n1.fields[k] == n2.fields[k])
    ensures DecodePost(n1, c1).Success? == DecodePost(n2, c2).Success?
    ensures DecodePost(n1, c1).Success? ==> DecodePost(n1, c1).value == DecodePost(n2, c2).value.(client := c1)
  {
    assert Decodable(n1) <==> Decodable(n2);
  }

  /** `HashnodeClient.get_post`: sends {'id': post_id} and decodes data['post']. */
  function GetPost(self: HashnodeClient, fetch: Fetch, postId: Json): (x: Exchange<Post>)
    ensures x.sent == [Request(PostInfo, map["id" := postId])] && Conforms(x.sent[0])
    ensures x.result.Success? ==>
      && fetch(x.sent[0]).Success?
      && Has(fetch(x.sent[0]).value, "post")
      && Success(x.result.value) == DecodePost(fetch(x.sent[0]).value.fields["post"], Hashnode(self))
    ensures fetch(x.sent[0]).Failure? ==> x.result == Failure(fetch(x.sent[0]).error)
    ensures fetch(x.sent[0]).Success? && Has(fetch(x.sent[0]).value, "post") ==>
      x.result == DecodePost(fetch(x.sent[0]).value.fields["post"], Hashnode(self))
    ensures fetch(x.sent[0]).Success? && !Has(fetch(x.sent[0]).value, "post") ==> x.result.Failure?
  {
    var reply := FetchData(fetch, PostInfo, Some(map["id" := postId]));
    Then(reply, (data: Json) => var node :- Field(data, "post"); DecodePost(node, Hashnode(self)))
  }

  /** `[Comment(i['node'], client) for i in edges]`. */
  function DecodeComments(edges: Json, client: Handle): (r: Result<seq<Comment>, Err>)
    ensures r.Success? <==> edges.JArr? && forall i :: 0 <= i < |edges.items| ==>
                              Has(edges.items[i], "node") && DecodeComment(edges.items[i].fields["node"], client).Success?
    ensures r.Success? ==> EdgesDecodeTo(edges, (n: Json) => DecodeComment(n, client), r.value)
  {
    DecodeEdges(edges, (n: Json) => DecodeComment(n, client))
  }

  /**
   * `Post.get_comments`: sends {'id': self.id, 'first': limit} and builds one
   * comment per edge of data['post']['comments']['edges'], in edge order.
   */
  function GetComments(self: Post, fetch: Fetch, limit: int := 10): (x: Exchange<seq<Comment>>)
    ensures self.client.RawGql? ==> x == Refused(AttributeError("fetch_data"))
    ensures self.client.Hashnode? ==>
      x.sent == [Request(Comments, map["id" := self.id, "first" := JInt(limit)])]
    ensures x.result.Success? ==>
      && fetch(x.sent[0]).Success?
      && HasKeys(fetch(x.sent[0]).value, ["post", "comments", "edges"])
      && EdgesDecodeTo(At(fetch(x.sent[0]).value, ["post", "comments", "edges"]),
                       (n: Json) => DecodeComment(n, self.client), x.result.value)
    ensures self.client.Hashnode? && fetch(x.sent[0]).Failure? ==> x.result == Failure(fetch(x.sent[0]).error)
    ensures self.client.Hashnode? && fetch(x.sent[0]).Success? && HasKeys(fetch(x.sent[0]).value, ["post", "comments", "edges"]) ==>
      x.result == DecodeComments(At(fetch(x.sent[0]).value, ["post", "comments", "edges"]), self.client)
    ensures self.client.Hashnode? && fetch(x.sent[0]).Success? && !HasKeys(fetch(x.sent[0]).value, ["post", "comments", "edges"]) ==>
      x.result.Failure?
  {
    Lookup(self.client, fetch, Comments, map["id" := self.id, "first" := JInt(limit)], ["post", "comments", "edges"],
           (edges: Json) => DecodeComments(edges, self.client))
  }
}
