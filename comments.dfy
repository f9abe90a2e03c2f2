/** `Comment` and `Reply` (hashnode_py/resources/comment.py). */
module Comments {
  import opened Wrappers
  import opened Json
  import opened Transport

  /** `Reply` subclasses `Comment` without adding anything. */
  datatype Kind = TopLevel | Reply

  datatype Comment = Comment(
    kind: Kind,
    client: Handle,
    id: Json,
    content: Json,
    author: Json,
    dateAdded: Json,
    stamp: Json,
    totalReactions: Json,
    myTotalReactions: Json)

  /** The nodes the constructor accepts: no field is optional, content and author must be dicts. */
  predicate Decodable(node: Json) {
    && Has(node, "id")
    && HasPath(node, "content", "text")
    && HasPath(node, "author", "username")
    && Has(node, "dateAdded")
    && Has(node, "stamp")
    && Has(node, "totalReactions")
    && Has(node, "myTotalReactions")
  }

  /** `Comment(data, client)` (or `Reply(data, client)` with `kind := Reply`). */
  function DecodeComment(node: Json, client: Handle, kind: Kind := TopLevel): (r: Result<Comment, Err>)
    ensures r.Success? <==> Decodable(node)
    ensures r.Success? ==> r.value == Comment(
      kind := kind,
      client := client,
      id := node.fields["id"],
      content := node.fields["content"].fields["text"],
      author := node.fields["author"].fields["username"],
      dateAdded := node.fields["dateAdded"],
      stamp := node.fields["stamp"],
      totalReactions := node.fields["totalReactions"],
      myTotalReactions := node.fields["myTotalReactions"])
  {
    var id :- Field(node, "id");
    var content :- Nested(node, "content", "text");
    var author :- Nested(node, "author", "username");
    var dateAdded :- Field(node, "dateAdded");
    var stamp :- Field(node, "stamp");
    var totalReactions :- Field(node, "totalReactions");
    var myTotalReactions :- Field(node, "myTotalReactions");
    Success(Comment(kind, client, id, content, author, dateAdded, stamp, totalReactions, myTotalReactions))
  }

  /** The comment node the comment and reply selections describe. */
  function EncodeComment(c: Comment): Json {
    JObj(map[
      "id" := c.id,
      "content" := JObj(map["text" := c.content]),
      "author" := JObj(map["username" := c.author]),
      "dateAdded" := c.dateAdded,
      "stamp" := c.stamp,
      "totalReactions" := c.totalReactions,
      "myTotalReactions" := c.myTotalReactions])
  }

  /** Decoding the node a comment selection returns gives back the comment. */
  lemma CommentRoundTrip(c: Comment)
    ensures DecodeComment(EncodeComment(c), c.client, c.kind) == Success(c)
  {
  }

  /** A reply decodes to the same fields as a comment, and fails on the same nodes. */
  lemma ReplyIsComment(node: Json, client: Handle)
    ensures DecodeComment(node, client, Reply).Success? == DecodeComment(node, client).Success?
    ensures DecodeComment(node, client, Reply).Success? ==>
      DecodeComment(node, client, Reply).value == DecodeComment(node, client).value.(kind := Reply)
  {
  }
}
