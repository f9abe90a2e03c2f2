/**
 * `Publication` (hashnode_py/resources/publication.py): the snapshot and
 * the post, draft and webhook operations it offers.
 */
module Publications {
  import opened Wrappers
  import opened Json
  import opened Transport
  import opened Events
  import opened Posts
  import opened Drafts
  import opened Webhooks

  datatype Publication = Publication(
    client: Handle,
    id: Json,
    title: Json,
    displayTitle: Json,
    descriptionSeo: Json,
    about: Json,
    url: Json,
    author: Json,
    headerColor: Json,
    gaTrackingId: Json,
    followersCount: Json,
    pinnedPost: Json)

  /**
   * The nodes the constructor accepts: author and integrations must be dicts,
   * while about and pinnedPost may be null.
   */
  predicate Decodable(node: Json) {
    && Has(node, "id")
    && Has(node, "title")
    && Has(node, "displayTitle")
    && Has(node, "descriptionSEO")
    && HasGuarded(node, "about", "text")
    && Has(node, "url")
    && HasPath(node, "author", "username")
    && Has(node, "headerColor")
    && HasPath(node, "integrations", "gaTrackingID")
    && Has(node, "followersCount")
    && HasGuarded(node, "pinnedPost", "id")
  }

  /** `Publication(data, client)`. */
  function DecodePublication(node: Json, client: Handle): (r: Result<Publication, Err>)
    ensures r.Success? <==> Decodable(node)
    ensures r.Success? ==> r.value == Publication(
      client := client,
      id := node.fields["id"],
      title := node.fields["title"],
      displayTitle := node.fields["displayTitle"],
      descriptionSeo := node.fields["descriptionSEO"],
      about := GuardedAt(node, "about", "text"),
      url := node.fields["url"],
      author := node.fields["author"].fields["username"],
      headerColor := node.fields["headerColor"],
      gaTrackingId := node.fields["integrations"].fields["gaTrackingID"],
      followersCount := node.fields["followersCount"],
      pinnedPost := GuardedAt(node, "pinnedPost", "id"))
  {
    var id :- Field(node, "id");
    var title :- Field(node, "title");
    var displayTitle :- Field(node, "displayTitle");
    var descriptionSeo :- Field(node, "descriptionSEO");
    var about :- Guarded(node, "about", "text");
    var url :- Field(node, "url");
    var author :- Nested(node, "author", "username");
    var headerColor :- Field(node, "headerColor");
    var gaTrackingId :- Nested(node, "integrations", "gaTrackingID");
    var followersCount :- Field(node, "followersCount");
    var pinnedPost :- Guarded(node, "pinnedPost", "id");
    Success(Publication(client, id, title, displayTitle, descriptionSeo, about, url, author, headerColor,
                        gaTrackingId, followersCount, pinnedPost))
  }

  /** The publication node the publication query selects. */
  function EncodePublication(p: Publication): Json {
    JObj(map[
      "id" := p.id,
      "title" := p.title,
      "displayTitle" := p.displayTitle,
      "descriptionSEO" := p.descriptionSeo,
      "about" := Wrap("text", p.about),
      "url" := p.url,
      "author" := JObj(map["username" := p.author]),
      "headerColor" := p.headerColor,
      "integrations" := JObj(map["gaTrackingID" := p.gaTrackingId]),
      "followersCount" := p.followersCount,
      "pinnedPost" := Wrap("id", p.pinnedPost)])
  }

  lemma EncodedIsDecodable(p: Publication)
    ensures Decodable(EncodePublication(p))
    ensures GuardedAt(EncodePublication(p), "about", "text") == p.about
    ensures GuardedAt(EncodePublication(p), "pinnedPost", "id") == p.pinnedPost
  {
    var e := EncodePublication(p);
    WrapGuarded(e, "about", "text", p.about);
    WrapGuarded(e, "pinnedPost", "id", p.pinnedPost);
  }

  lemma EncodedFields(p: Publication)
    ensures var e := EncodePublication(p).fields;
      && e["id"] == p.id && e["title"] == p.title && e["displayTitle"] == p.displayTitle
      && e["descriptionSEO"] == p.descriptionSeo && e["url"] == p.url
      && e["author"].fields["username"] == p.author && e["headerColor"] == p.headerColor
      && e["integrations"].fields["gaTrackingID"] == p.gaTrackingId && e["followersCount"] == p.followersCount
  {
  }

  lemma PublicationRoundTrip(p: Publication)
    ensures DecodePublication(EncodePublication(p), p.client) == Success(p)
  {
    EncodedIsDecodable(p);
    EncodedFields(p);
  }

  /** A publication whose integrations are null cannot be decoded: the unguarded read raises. */
  lemma NullIntegrationsFails(node: Json, client: Handle)
    requires Has(node, "integrations") && node.fields["integrations"] == JNull
    ensures DecodePublication(node, client).Failure?
  {
  }

  /** Whether an optional Python list is truthy: present and non-empty. */
  predicate Given(ids: Option<seq<Json>>) {
    ids.Some? && ids.value != []
  }

  /**
   * The `tags` variable: `[{'id': i} for i in tags_id]` when tag ids are
   * given, else the slug dicts when given, else None.
   */
  function TagSelection(tagsId: Option<seq<Json>>, tagsSlug: Json): (tags: Json)
    ensures Given(tagsId) ==> tags.JArr? && |tags.items| == |tagsId.value|
                              && forall i :: 0 <= i < |tagsId.value| ==>
                                   tags.items[i] == JObj(map["id" := tagsId.value[i]])
    ensures !Given(tagsId) && Truthy(tagsSlug) ==> tags == tagsSlug
    ensures tags == JNull <==> !Given(tagsId) && !Truthy(tagsSlug)
  {
    if Given(tagsId) then
      JArr(seq(|tagsId.value|, i requires 0 <= i < |tagsId.value| => JObj(map["id" := tagsId.value[i]])))
    else if Truthy(tagsSlug) then tagsSlug
    else JNull
  }

  /** The keyword arguments of `publish_post`, with their Python defaults in `DefaultPublish`. */
  datatype PublishArgs = PublishArgs(
    title: Json,
    content: Json,
    tagsId: Option<seq<Json>>,
    tagsSlug: Json,
    subtitle: Json,
    imageUrl: Json,
    slug: Json,
    originUrl: Json,
    disableComments: bool,
    publishAs: Json,
    seriesId: Json,
    scheduled: bool,
    enableTable: bool,
    coAuthors: Json)

  function DefaultPublish(title: Json, content: Json): PublishArgs {
    PublishArgs(title, content, None, JNull, JNull, JNull, JNull, JNull, false, JNull, JNull, false, false, JNull)
  }

  /** The variable map `publish_post` builds once the tags are settled. */
  function PublishMap(self: Publication, a: PublishArgs): Vars {
    map[
      "title" := a.title,
      "content" := a.content,
      "tags" := TagSelection(a.tagsId, a.tagsSlug),
      "subtitle" := a.subtitle,
      "publicationId" := self.id,
      "imageUrl" := a.imageUrl,
      "slug" := a.slug,
      "originUrl" := a.originUrl,
      "disableComments" := JBool(a.disableComments),
      "publishAs" := a.publishAs,
      "seriesId" := a.seriesId,
      "settings" := JObj(map["scheduled" := JBool(a.scheduled),
                             "enableTableOfContent" := JBool(a.enableTable)]),
      "coAuthors" := a.coAuthors]
  }

  /** The publish request names the mutation's four required variables and only declared ones. */
  lemma PublishMapFacts(self: Publication, a: PublishArgs)
    ensures var v := PublishMap(self, a);
      && Conforms(Request(PublishPost, v))
      && "settings" in v
  {
    var v := PublishMap(self, a);
    forall k | k in v.Keys
      ensures k in Declared(PublishPost)
    {
    }
  }

  /** The values the publish request carries for the publication, the post and its tags. */
  lemma PublishMapValues(self: Publication, a: PublishArgs)
    ensures var v := PublishMap(self, a);
      && "publicationId" in v && "title" in v && "content" in v && "tags" in v && "settings" in v
      && v["publicationId"] == self.id && v["title"] == a.title && v["content"] == a.content
      && v["tags"] == TagSelection(a.tagsId, a.tagsSlug)
      && v["settings"] == JObj(map["scheduled" := JBool(a.scheduled), "enableTableOfContent" := JBool(a.enableTable)])
  {
  }

  /** The publish request carries every variable the mutation declares, and no other. */
  lemma PublishMapKeys(self: Publication, a: PublishArgs)
    ensures PublishMap(self, a).Keys == Declared(PublishPost)
  {
    var v := PublishMap(self, a);
    PublishMapFacts(self, a);
    forall k | k in Declared(PublishPost)
      ensures k in v.Keys
    {
    }
  }

  /** The optional arguments are passed through unchanged. */
  lemma PublishMapPassThrough(self: Publication, a: PublishArgs)
    ensures var v := PublishMap(self, a);
      && "subtitle" in v && "imageUrl" in v && "slug" in v && "originUrl" in v
      && v["subtitle"] == a.subtitle && v["imageUrl"] == a.imageUrl
      && v["slug"] == a.slug && v["originUrl"] == a.originUrl
  {
  }

  lemma PublishMapOptions(self: Publication, a: PublishArgs)
    ensures var v := PublishMap(self, a);
      && "disableComments" in v && "publishAs" in v && "seriesId" in v && "coAuthors" in v
      && v["disableComments"] == JBool(a.disableComments) && v["publishAs"] == a.publishAs
      && v["seriesId"] == a.seriesId && v["coAuthors"] == a.coAuthors
  {
  }

  /**
   * The variables `publish_post` sends, or the ValueError it raises before
   * any request when neither tag ids nor tag slugs are given.
   */
  function PublishVariables(self: Publication, a: PublishArgs): (r: Result<Vars, Err>)
    ensures r.Failure? <==> !Given(a.tagsId) && !Truthy(a.tagsSlug)
    ensures r.Failure? ==> r.error == ValueError("Either tags_id or tags_slug must be provided.")
    ensures r.Success? ==>
      && Conforms(Request(PublishPost, r.value))
      && "settings" in r.value
      && r.value["publicationId"] == self.id
      && r.value["title"] == a.title && r.value["content"] == a.content
      && r.value["tags"] == TagSelection(a.tagsId, a.tagsSlug) && r.value["tags"] != JNull
      && r.value["settings"] == JObj(map["scheduled" := JBool(a.scheduled),
                                         "enableTableOfContent" := JBool(a.enableTable)])
    ensures r.Success? ==>
      && r.value.Keys == Declared(PublishPost)
      && "subtitle" in r.value && "imageUrl" in r.value && "slug" in r.value && "originUrl" in r.value
      && "disableComments" in r.value && "publishAs" in r.value && "seriesId" in r.value && "coAuthors" in r.value
      && r.value["subtitle"] == a.subtitle && r.value["imageUrl"] == a.imageUrl
      && r.value["slug"] == a.slug && r.value["originUrl"] == a.originUrl
      && r.value["disableComments"] == JBool(a.disableComments) && r.value["publishAs"] == a.publishAs
      && r.value["seriesId"] == a.seriesId && r.value["coAuthors"] == a.coAuthors
  {
    if !Given(a.tagsId) && !Truthy(a.tagsSlug) then
      Failure(ValueError("Either tags_id or tags_slug must be provided."))
    else
      PublishMapFacts(self, a);
      PublishMapValues(self, a);
      PublishMapKeys(self, a);
      PublishMapPassThrough(self, a);
      PublishMapOptions(self, a);
      Success(PublishMap(self, a))
  }

  /** `f'{prefix}"{node[k1]...[kn]}"'`: the reply path read, then formatted with str(). */
  function IdMessage(data: Json, path: seq<string>, prefix: string): (r: Result<string, Err>)
    ensures r.Success? <==> HasKeys(data, path)
    ensures r.Success? ==> r.value == prefix + "\"" + Format(At(data, path)) + "\""
  {
    var id :- Path(data, path);
    Success(prefix + "\"" + Format(id) + "\"")
  }

  /** Sends the publish mutation and reads the new post's id from the reply. */
  function SendPublish(self: Publication, fetch: Fetch, variables: Vars): (x: Exchange<string>)
    ensures self.client.RawGql? ==> x == Refused(AttributeError("fetch_data"))
    ensures self.client.Hashnode? ==> x.sent == [Request(PublishPost, variables)]
    ensures x.result.Success? ==>
      && fetch(x.sent[0]).Success?
      && HasKeys(fetch(x.sent[0]).value, ["publishPost", "post", "id"])
      && x.result.value == "Successfully published with id: \""
                           + Format(At(fetch(x.sent[0]).value, ["publishPost", "post", "id"])) + "\""
    ensures self.client.Hashnode? && fetch(x.sent[0]).Failure? ==> x.result == Failure(fetch(x.sent[0]).error)
    ensures self.client.Hashnode? && fetch(x.sent[0]).Success? ==>
      x.result == IdMessage(fetch(x.sent[0]).value, ["publishPost", "post", "id"], "Successfully published with id: ")
  {
    Then(Send(self.client, fetch, PublishPost, variables),
         (data: Json) => IdMessage(data, ["publishPost", "post", "id"], "Successfully published with id: "))
  }

  /** `Publication.publish_post`: the tag check comes before any request. */
  function PublishPostCall(self: Publication, fetch: Fetch, a: PublishArgs): (x: Exchange<string>)
    ensures PublishVariables(self, a).Failure? ==> x == Refused(PublishVariables(self, a).error)
    ensures PublishVariables(self, a).Success? ==> x == SendPublish(self, fetch, PublishVariables(self, a).value)
  {
    match PublishVariables(self, a)
    case Failure(e) => Refused(e)
    case Success(variables) => SendPublish(self, fetch, variables)
  }

  /** A call with neither tag ids nor tag slugs never reaches the transport. */
  lemma PublishWithoutTagsRefused(self: Publication, fetch: Fetch, title: Json, content: Json)
    ensures PublishPostCall(self, fetch, DefaultPublish(title, content))
            == Refused(ValueError("Either tags_id or tags_slug must be provided."))
  {
  }

  /** The keyword arguments of `update_post`. */
  datatype UpdateArgs = UpdateArgs(
    postId: Json,
    title: Json,
    subtitle: Json,
    content: Json,
    publishedAt: Json,
    tagsId: Option<seq<Json>>,
    tagsSlug: Json,
    imageUrl: Json,
    slug: Json,
    originUrl: Json,
    publicationId: Json,
    disableComments: bool,
    publishAs: Json,
    seriesId: Json,
    enableTable: bool,
    coAuthors: Json)

  /** The variable map `update_post` builds once the content and the tags are settled. */
  function UpdateMap(self: Publication, a: UpdateArgs, content: Json): Vars {
    map[
      "postId" := a.postId,
      "title" := a.title,
      "subtitle" := a.subtitle,
      "publishedAt" := a.publishedAt,
      "content" := content,
      "imageUrl" := a.imageUrl,
      "slug" := a.slug,
      "originUrl" := a.originUrl,
      "tags" := TagSelection(a.tagsId, a.tagsSlug),
      "publishAs" := a.publishAs,
      "seriesId" := a.seriesId,
      "settings" := JObj(map["disableComments" := JBool(a.disableComments),
                             "isTableOfContentEnabled" := JBool(a.enableTable)]),
      "coAuthors" := a.coAuthors,
      "publicationId" := if !Truthy(a.publicationId) then self.id else a.publicationId]
  }

  lemma UpdateMapFacts(self: Publication, a: UpdateArgs, content: Json)
    ensures var v := UpdateMap(self, a, content);
      && Conforms(Request(Transport.UpdatePost, v))
      && "postId" in v && "content" in v && "tags" in v && "publicationId" in v && "settings" in v
  {
    var v := UpdateMap(self, a, content);
    forall k | k in v.Keys
      ensures k in Declared(Transport.UpdatePost)
    {
    }
  }

  /** The update request carries every variable the mutation declares, and no other. */
  lemma UpdatePostVariablesKeys(self: Publication, a: UpdateArgs, content: Json)
    ensures UpdatePostVariables(self, a, content).Keys == Declared(Transport.UpdatePost)
  {
    var v := UpdateMap(self, a, content);
    UpdateMapFacts(self, a, content);
    forall k | k in Declared(Transport.UpdatePost)
      ensures k in v.Keys
    {
    }
  }

  /** The post's own fields are passed through unchanged. */
  lemma UpdatePostVariablesPassThrough(self: Publication, a: UpdateArgs, content: Json)
    ensures var v := UpdatePostVariables(self, a, content);
      && "title" in v && "subtitle" in v && "publishedAt" in v && "imageUrl" in v
      && v["title"] == a.title && v["subtitle"] == a.subtitle
      && v["publishedAt"] == a.publishedAt && v["imageUrl"] == a.imageUrl
  {
  }

  /** The remaining optional arguments are passed through unchanged. */
  lemma UpdatePostVariablesOptions(self: Publication, a: UpdateArgs, content: Json)
    ensures var v := UpdatePostVariables(self, a, content);
      && "slug" in v && "originUrl" in v && "publishAs" in v && "seriesId" in v && "coAuthors" in v
      && v["slug"] == a.slug && v["originUrl"] == a.originUrl && v["publishAs"] == a.publishAs
      && v["seriesId"] == a.seriesId && v["coAuthors"] == a.coAuthors
  {
  }

  /**
   * The variables `update_post` sends once the content is settled; a falsy
   * publication id is replaced by the publication's own.
   */
  function UpdatePostVariables(self: Publication, a: UpdateArgs, content: Json): (v: Vars)
    ensures Conforms(Request(Transport.UpdatePost, v))
    ensures "content" in v && "tags" in v && "publicationId" in v && "settings" in v
    ensures v["postId"] == a.postId && v["content"] == content
    ensures v["tags"] == TagSelection(a.tagsId, a.tagsSlug)
    ensures v["publicationId"] == (if Truthy(a.publicationId) then a.publicationId else self.id)
    ensures v["settings"] == JObj(map["disableComments" := JBool(a.disableComments),
                                      "isTableOfContentEnabled" := JBool(a.enableTable)])
  {
    UpdateMapFacts(self, a, content);
    UpdateMap(self, a, content)
  }

  /** Sends the update mutation with the settled content and reads the updated post's id. */
  function SendUpdate(self: Publication, fetch: Fetch, variables: Vars): (x: Exchange<string>)
    ensures self.client.RawGql? ==> x == Refused(AttributeError("fetch_data"))
    ensures self.client.Hashnode? ==> x.sent == [Request(Transport.UpdatePost, variables)]
    ensures x.result.Success? ==>
      && fetch(x.sent[0]).Success?
      && HasKeys(fetch(x.sent[0]).value, ["updatePost", "post", "id"])
      && x.result.value == "Successfully Updated with id: \""
                           + Format(At(fetch(x.sent[0]).value, ["updatePost", "post", "id"])) + "\""
    ensures self.client.Hashnode? && fetch(x.sent[0]).Failure? ==> x.result == Failure(fetch(x.sent[0]).error)
    ensures self.client.Hashnode? && fetch(x.sent[0]).Success? ==>
      x.result == IdMessage(fetch(x.sent[0]).value, ["updatePost", "post", "id"], "Successfully Updated with id: ")
  {
    Then(Send(self.client, fetch, Transport.UpdatePost, variables),
         (data: Json) => IdMessage(data, ["updatePost", "post", "id"], "Successfully Updated with id: "))
  }

  /**
   * `Publication.update_post`. A falsy content is first replaced by the
   * markdown of the post looked up by id, one request more, whose failure
   * ends the call; the raw gql handle has no `get_post`.
   */
  function UpdatePostCall(self: Publication, fetch: Fetch, a: UpdateArgs): (x: Exchange<string>)
    ensures Truthy(a.content) ==> x == SendUpdate(self, fetch, UpdatePostVariables(self, a, a.content))
    ensures !Truthy(a.content) && self.client.RawGql? ==> x == Refused(AttributeError("get_post"))
    ensures !Truthy(a.content) && self.client.Hashnode? ==>
      var lookup := GetPost(self.client.hashnode, fetch, a.postId);
      && x.sent != [] && x.sent[0] == Request(PostInfo, map["id" := a.postId])
      && (lookup.result.Failure? ==> x == Exchange(lookup.sent, Failure(lookup.result.error)))
      && (lookup.result.Success? ==>
            x.sent == lookup.sent + SendUpdate(self, fetch, UpdatePostVariables(self, a, lookup.result.value.content)).sent
            && x.result == SendUpdate(self, fetch, UpdatePostVariables(self, a, lookup.result.value.content)).result)
  {
    if Truthy(a.content) then SendUpdate(self, fetch, UpdatePostVariables(self, a, a.content))
    else match self.client
      case RawGql(_) => Refused(AttributeError("get_post"))
      case Hashnode(h) =>
        var lookup := GetPost(h, fetch, a.postId);
        match lookup.result
        case Failure(e) => Exchange(lookup.sent, Failure(e))
        case Success(post) =>
          var update := SendUpdate(self, fetch, UpdatePostVariables(self, a, post.content));
          Exchange(lookup.sent + update.sent, update.result)
  }

  /**
   * Whichever way the content was settled, a successful update reports the
   * id the update mutation's reply holds, the last request sent.
   */
  lemma UpdatePostReportsId(self: Publication, fetch: Fetch, a: UpdateArgs)
    ensures var x := UpdatePostCall(self, fetch, a);
      x.result.Success? ==>
        && x.sent != [] && x.sent[|x.sent| - 1].query == Transport.UpdatePost
        && fetch(x.sent[|x.sent| - 1]).Success?
        && HasKeys(fetch(x.sent[|x.sent| - 1]).value, ["updatePost", "post", "id"])
        && x.result.value == "Successfully Updated with id: \""
                             + Format(At(fetch(x.sent[|x.sent| - 1]).value, ["updatePost", "post", "id"])) + "\""
  {
    if !Truthy(a.content) {
      LookedUpContentReportsId(self, fetch, a);
    }
  }

  /** The update after a lookup of the post's content: its reply is the last one. */
  lemma LookedUpContentReportsId(self: Publication, fetch: Fetch, a: UpdateArgs)
    requires !Truthy(a.content)
    ensures var x := UpdatePostCall(self, fetch, a);
      x.result.Success? ==>
        && x.sent != [] && x.sent[|x.sent| - 1].query == Transport.UpdatePost
        && fetch(x.sent[|x.sent| - 1]).Success?
        && HasKeys(fetch(x.sent[|x.sent| - 1]).value, ["updatePost", "post", "id"])
        && x.result.value == "Successfully Updated with id: \""
                             + Format(At(fetch(x.sent[|x.sent| - 1]).value, ["updatePost", "post", "id"])) + "\""
  {
    var x := UpdatePostCall(self, fetch, a);
    if x.result.Success? {
      var lookup := GetPost(self.client.hashnode, fetch, a.postId);
      var v := UpdatePostVariables(self, a, lookup.result.value.content);
      assert x == Exchange(lookup.sent + SendUpdate(self, fetch, v).sent, SendUpdate(self, fetch, v).result);
      UpdateAfter(self, fetch, lookup.sent, v);
    }
  }

  /** An update sent after other requests: its reply is the last one, and the message quotes its id. */
  lemma UpdateAfter(self: Publication, fetch: Fetch, before: seq<Request>, v: Vars)
    ensures var u := SendUpdate(self, fetch, v);
      var x := Exchange(before + u.sent, u.result);
      x.result.Success? ==>
        && x.sent != [] && x.sent[|x.sent| - 1].query == Transport.UpdatePost
        && fetch(x.sent[|x.sent| - 1]).Success?
        && HasKeys(fetch(x.sent[|x.sent| - 1]).value, ["updatePost", "post", "id"])
        && x.result.value == "Successfully Updated with id: \""
                             + Format(At(fetch(x.sent[|x.sent| - 1]).value, ["updatePost", "post", "id"])) + "\""
  {
    var u := SendUpdate(self, fetch, v);
    if u.result.Success? {
      assert (before + u.sent)[|before + u.sent| - 1] == u.sent[0];
    }
  }

  /** `Publication.remove_post`: the message carries a stray quote, as written. */
  function RemovePostCall(self: Publication, fetch: Fetch, postId: Json): (x: Exchange<string>)
    ensures self.client.RawGql? ==> x == Refused(AttributeError("fetch_data"))
    ensures self.client.Hashnode? ==> x.sent == [Request(RemovePost, map["postId" := postId])]
                                      && Conforms(x.sent[0])
    ensures x.result.Success? <==> self.client.Hashnode? && fetch(x.sent[0]).Success?
    ensures self.client.Hashnode? && fetch(x.sent[0]).Failure? ==> x.result == Failure(fetch(x.sent[0]).error)
    ensures x.result.Success? ==> x.result.value == "Successfully removed\""
  {
    Constant(Send(self.client, fetch, RemovePost, map["postId" := postId]), "Successfully removed\"")
  }

  /** `[Draft(i['node'], client) for i in edges]`. */
  function DecodeDrafts(edges: Json, client: Handle): (r: Result<seq<Draft>, Err>)
    ensures r.Success? <==> edges.JArr? && forall i :: 0 <= i < |edges.items| ==>
                              Has(edges.items[i], "node") && DecodeDraft(edges.items[i].fields["node"], client).Success?
    ensures r.Success? ==> EdgesDecodeTo(edges, (n: Json) => DecodeDraft(n, client), r.value)
  {
    DecodeEdges(edges, (n: Json) => DecodeDraft(n, client))
  }

  /**
   * `Publication.get_drafts`: sends {'id': self.id, 'first': limit} and builds
   * one draft per edge of data['publication']['drafts']['edges'], in order.
   */
  function GetDrafts(self: Publication, fetch: Fetch, limit: int := 10): (x: Exchange<seq<Draft>>)
    ensures self.client.RawGql? ==> x == Refused(AttributeError("fetch_data"))
    ensures self.client.Hashnode? ==>
      x.sent == [Request(Transport.Drafts, map["id" := self.id, "first" := JInt(limit)])]
      && Conforms(x.sent[0])
    ensures x.result.Success? ==>
      && fetch(x.sent[0]).Success?
      && HasKeys(fetch(x.sent[0]).value, ["publication", "drafts", "edges"])
      && Success(x.result.value) == DecodeDrafts(At(fetch(x.sent[0]).value, ["publication", "drafts", "edges"]), self.client)
    ensures self.client.Hashnode? && fetch(x.sent[0]).Failure? ==> x.result == Failure(fetch(x.sent[0]).error)
    ensures self.client.Hashnode? && fetch(x.sent[0]).Success? && HasKeys(fetch(x.sent[0]).value, ["publication", "drafts", "edges"]) ==>
      x.result == DecodeDrafts(At(fetch(x.sent[0]).value, ["publication", "drafts", "edges"]), self.client)
    ensures self.client.Hashnode? && fetch(x.sent[0]).Success? && !HasKeys(fetch(x.sent[0]).value, ["publication", "drafts", "edges"]) ==>
      x.result.Failure?
  {
    Lookup(self.client, fetch, Transport.Drafts, map["id" := self.id, "first" := JInt(limit)],
           ["publication", "drafts", "edges"], (edges: Json) => DecodeDrafts(edges, self.client))
  }

  /** `Publication.publish_draft`: reads the new post's id from the reply. */
  function PublishDraftCall(self: Publication, fetch: Fetch, draftId: Json): (x: Exchange<string>)
    ensures self.client.RawGql? ==> x == Refused(AttributeError("fetch_data"))
    ensures self.client.Hashnode? ==> x.sent == [Request(PublishDraft, map["draftId" := draftId])]
                                      && Conforms(x.sent[0])
    ensures x.result.Success? ==>
      && fetch(x.sent[0]).Success?
      && HasKeys(fetch(x.sent[0]).value, ["publishDraft", "post", "id"])
      && x.result.value == "Successfully published with id: \""
                           + Format(At(fetch(x.sent[0]).value, ["publishDraft", "post", "id"])) + "\""
    ensures self.client.Hashnode? && fetch(x.sent[0]).Failure? ==> x.result == Failure(fetch(x.sent[0]).error)
    ensures self.client.Hashnode? && fetch(x.sent[0]).Success? ==>
      x.result == IdMessage(fetch(x.sent[0]).value, ["publishDraft", "post", "id"], "Successfully published with id: ")
  {
    Then(Send(self.client, fetch, PublishDraft, map["draftId" := draftId]),
         (data: Json) => IdMessage(data, ["publishDraft", "post", "id"], "Successfully published with id: "))
  }

  /** The variables `create_webhook` sends. */
  function CreateWebhookVariables(self: Publication, url: Json, events: Json, secret: Json): (v: Vars)
    ensures Conforms(Request(CreateWebhook, v))
    ensures v["publicationId"] == self.id && v["url"] == url && v["events"] == events && v["secret"] == secret
  {
    map["publicationId" := self.id, "url" := url, "events" := events, "secret" := secret]
  }

  /**
   * `Publication.create_webhook` as written. A None list raises before any
   * request; an empty list is sent empty and the webhook constructor is
   * applied to the whole reply; on a non-empty list the loop is still
   * appending after `budget` steps and no request has been made.
   */
  method CreateWebhookCall(self: Publication, fetch: Fetch, url: Json, events: PyList?, secret: Json, budget: nat)
    returns (run: Run<Webhook>)
    modifies events
    ensures events == null ==> run == Returned(Refused(TypeError("'NoneType' object is not iterable")))
    ensures events != null && old(events.items) == [] ==>
      && events.items == []
      && run == Returned(Then(Send(self.client, fetch, CreateWebhook, CreateWebhookVariables(self, url, JArr([]), secret)),
                              (data: Json) => DecodeWebhook(data, self.client)))
    ensures events != null && old(events.items) != [] ==>
      && run == StillRunning(budget)
      && events.items == Grown(old(events.items), budget)
  {
    if events == null {
      return Returned(Refused(TypeError("'NoneType' object is not iterable")));
    }
    var cursor, exited := AppendUppercased(events, budget);
    if !exited {
      return StillRunning(cursor);
    }
    var variables := CreateWebhookVariables(self, url, ListJson(events.items), secret);
    var reply := Send(self.client, fetch, CreateWebhook, variables);
    run := Returned(Then(reply, (data: Json) => DecodeWebhook(data, self.client)));
  }

  /**
   * `Publication.create_webhook` as evidently intended: the events are
   * upper-cased in place and the webhook is read from
   * `data['createWebhook']['webhook']`.
   */
  method CreateWebhookUppercased(self: Publication, fetch: Fetch, url: Json, events: PyList?, secret: Json)
    returns (x: Exchange<Webhook>)
    modifies events
    ensures events == null ==> x == Refused(TypeError("'NoneType' object is not iterable"))
    ensures events != null ==>
      && events.items == Uppercased(old(events.items))
      && x == Then(Send(self.client, fetch, CreateWebhook,
                        CreateWebhookVariables(self, url, ListJson(Uppercased(old(events.items))), secret)),
                   (data: Json) => DecodeWebhookReply(data, "createWebhook", self.client))
  {
    if events == null {
      return Refused(TypeError("'NoneType' object is not iterable"));
    }
    UppercaseInPlace(events);
    var variables := CreateWebhookVariables(self, url, ListJson(events.items), secret);
    var reply := Send(self.client, fetch, CreateWebhook, variables);
    x := Then(reply, (data: Json) => DecodeWebhookReply(data, "createWebhook", self.client));
  }
}
