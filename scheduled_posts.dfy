/** `ScheduledPost` (hashnode_py/resources/scheduled_post.py). */
module ScheduledPosts {
  import opened Wrappers
  import opened Json
  import opened Transport

  datatype ScheduledPost = ScheduledPost(
    client: Handle,
    id: Json,
    author: Json,
    draftId: Json,
    scheduledDate: Json,
    scheduledBy: Json,
    publicationId: Json)

  /** The nodes the constructor accepts: none of the nested objects is optional. */
  predicate Decodable(node: Json) {
    && Has(node, "id")
    && HasPath(node, "author", "username")
    && HasPath(node, "draft", "id")
    && Has(node, "scheduledDate")
    && HasPath(node, "scheduledBy", "username")
    && HasPath(node, "publication", "id")
  }

  /** `ScheduledPost(data, client)`. */
  function DecodeScheduledPost(node: Json, client: Handle): (r: Result<ScheduledPost, Err>)
    ensures r.Success? <==> Decodable(node)
    ensures r.Success? ==> r.value == ScheduledPost(
      client := client,
      id := node.fields["id"],
      author := node.fields["author"].fields["username"],
      draftId := node.fields["draft"].fields["id"],
      scheduledDate := node.fields["scheduledDate"],
      scheduledBy := node.fields["scheduledBy"].fields["username"],
      publicationId := node.fields["publication"].fields["id"])
  {
    var id :- Field(node, "id");
    var author :- Nested(node, "author", "username");
    var draftId :- Nested(node, "draft", "id");
    var scheduledDate :- Field(node, "scheduledDate");
    var scheduledBy :- Nested(node, "scheduledBy", "username");
    var publicationId :- Nested(node, "publication", "id");
    Success(ScheduledPost(client, id, author, draftId, scheduledDate, scheduledBy, publicationId))
  }

  /** The scheduledPost node the schedule and reschedule mutations select. */
  function EncodeScheduledPost(s: ScheduledPost): Json {
    JObj(map[
      "id" := s.id,
      "author" := JObj(map["username" := s.author]),
      "draft" := JObj(map["id" := s.draftId]),
      "scheduledDate" := s.scheduledDate,
      "scheduledBy" := JObj(map["username" := s.scheduledBy]),
      "publication" := JObj(map["id" := s.publicationId])])
  }

  lemma ScheduledPostRoundTrip(s: ScheduledPost)
    ensures DecodeScheduledPost(EncodeScheduledPost(s), s.client) == Success(s)
  {
  }

  /** A mutation reply wraps its payload as `{root: {field: payload}}`. */
  function Reply(root: string, field: string, payload: Json): Json {
    JObj(map[root := JObj(map[field := payload])])
  }

  /**
   * The constructor applied to a whole schedule reply, whose only top-level
   * key is the mutation's root field, fails on the missing 'id'.
   */
  lemma RawReplyFails(root: string, payload: Json, client: Handle)
    requires root != "id"
    ensures DecodeScheduledPost(Reply(root, "scheduledPost", payload), client) == Failure(KeyError("id"))
  {
  }

  /** `ScheduledPost(data[root]['scheduledPost'], client)`: the subtree the reply path documents. */
  function DecodeScheduledReply(reply: Json, root: string, client: Handle): (r: Result<ScheduledPost, Err>)
    ensures r.Success? <==> HasPath(reply, root, "scheduledPost") && Decodable(reply.fields[root].fields["scheduledPost"])
    ensures r.Success? ==> r == DecodeScheduledPost(reply.fields[root].fields["scheduledPost"], client)
  {
    var node :- Nested(reply, root, "scheduledPost");
    DecodeScheduledPost(node, client)
  }

  /** Decoding the subtree of a reply that carries a scheduled post gives back that post. */
  lemma ScheduledReplyRoundTrip(root: string, s: ScheduledPost)
    ensures DecodeScheduledReply(Reply(root, "scheduledPost", EncodeScheduledPost(s)), root, s.client) == Success(s)
  {
    ScheduledPostRoundTrip(s);
  }
}
