/** `Tag` (hashnode_py/resources/tag.py). */
module Tags {
  import opened Wrappers
  import opened Json
  import opened Transport

  datatype Tag = Tag(
    client: Handle,
    id: Json,
    name: Json,
    slug: Json,
    logo: Json,
    tagline: Json,
    info: Json,
    followersCount: Json,
    postsCount: Json)

  /** The fields the tag lookup and the tagsFollowing selection both request. */
  const SelectedTagFields: set<string> :=
    {"id", "name", "slug", "logo", "tagline", "info", "followersCount", "postsCount"}

  /** The nodes the constructor accepts: every field present; `info` may be null. */
  predicate Decodable(node: Json) {
    && Has(node, "id")
    && Has(node, "name")
    && Has(node, "slug")
    && Has(node, "logo")
    && Has(node, "tagline")
    && HasGuarded(node, "info", "text")
    && Has(node, "followersCount")
    && Has(node, "postsCount")
  }

  /** `Tag(data, client)`. */
  function DecodeTag(node: Json, client: Handle): (r: Result<Tag, Err>)
    ensures r.Success? <==> Decodable(node)
    ensures r.Success? ==> r.value == Tag(
      client := client,
      id := node.fields["id"],
      name := node.fields["name"],
      slug := node.fields["slug"],
      logo := node.fields["logo"],
      tagline := node.fields["tagline"],
      info := GuardedAt(node, "info", "text"),
      followersCount := node.fields["followersCount"],
      postsCount := node.fields["postsCount"])
  {
    var id :- Field(node, "id");
    var name :- Field(node, "name");
    var slug :- Field(node, "slug");
    var logo :- Field(node, "logo");
    var tagline :- Field(node, "tagline");
    var info :- Guarded(node, "info", "text");
    var followersCount :- Field(node, "followersCount");
    var postsCount :- Field(node, "postsCount");
    Success(Tag(client, id, name, slug, logo, tagline, info, followersCount, postsCount))
  }

  /**
   * The tag node the tag lookup and the tagsFollowing selection both
   * describe; a None `info` is sent as null.
   */
  function EncodeTag(t: Tag): Json {
    JObj(map[
      "id" := t.id,
      "name" := t.name,
      "slug" := t.slug,
      "logo" := t.logo,
      "tagline" := t.tagline,
      "info" := if t.info == JNull then JNull else JObj(map["text" := t.info]),
      "followersCount" := t.followersCount,
      "postsCount" := t.postsCount])
  }

  lemma TagRoundTrip(t: Tag)
    ensures DecodeTag(EncodeTag(t), t.client) == Success(t)
  {
    var info := EncodeTag(t).fields["info"];
    assert t.info != JNull ==> "text" in info.fields && Truthy(info);
  }

  /** A null `info` object gives None instead of failing; a present one gives its text. */
  lemma InfoGuard(node: Json, client: Handle)
    requires Decodable(node)
    ensures node.fields["info"] == JNull ==> DecodeTag(node, client).value.info == JNull
    ensures node.fields["info"].JObj? && node.fields["info"].fields != map[] ==>
              DecodeTag(node, client).value.info == node.fields["info"].fields["text"]
  {
  }

  /**
   * The decoder reads only the selected fields: a tag looked up by slug and
   * the same tag among a user's followed tags agree on every modelled
   * attribute, whatever else their nodes hold. The raw `data` attribute,
   * which would keep the difference, is not part of the record.
   */
  lemma DecodeReadsOnlySelection(n1: Json, n2: Json, c1: Handle, c2: Handle)
    requires n1.JObj? && n2.JObj?
    requires forall k :: k in SelectedTagFields ==>
               (k in n1.fields <==> k in n2.fields) && (k in n1.fields ==> n1.fields[k] == n2.fields[k])
    ensures DecodeTag(n1, c1).Success? == DecodeTag(n2, c2).Success?
    ensures DecodeTag(n1, c1).Success? ==> DecodeTag(n1, c1).value == DecodeTag(n2, c2).value.(client := c1)
  {
    assert Decodable(n1) <==> Decodable(n2);
  }
}
