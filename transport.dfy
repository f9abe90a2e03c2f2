/**
 * The query catalogue (as opaque identifiers with the variables each
 * template declares), the client handles resources carry, the abstract
 * fetch oracle standing for the gql transport, and `fetch_data`.
 */
module Transport {
  import opened Wrappers
  import opened Json

  /** One identifier per GraphQL template under hashnode_py/queries. */
  datatype QueryId =
    | UserInfo | SocialMedia | Badges | Publications | UserPosts | TagsFollowing
    | PublicationInfo | Drafts | PostInfo | Comments | Feed | TagInfo
    | FollowersInfo | FollowsInfo
    | ToggleFollow | LikePost | PublishPost | UpdatePost | RemovePost
    | LikeComment | AddComment | UpdateComment | RemoveComment
    | AddReply | UpdateReply | RemoveReply
    | PublishDraft | ScheduleDraft | RescheduleDraft | CancelSchedule
    | CreateWebhook | UpdateWebhook | RemoveWebhook

  /** The `$variables` a template declares. */
  function Declared(q: QueryId): set<string> {
    match q
    case UserInfo => {"username"}
    case SocialMedia => {"username"}
    case Badges => {"username"}
    case Publications => {"username"}
    case UserPosts => {"username", "page_size", "page"}
    case TagsFollowing => {"username"}
    case PublicationInfo => {"id", "host"}
    case Drafts => {"id", "first"}
    case PostInfo => {"id"}
    case Comments => {"id", "first"}
    case Feed => {"first", "type", "minReadTime", "maxReadTime", "tags"}
    case TagInfo => {"slug"}
    case FollowersInfo => {"username", "pageSize", "page"}
    case FollowsInfo => {"username", "pageSize", "page"}
    case ToggleFollow => {"username"}
    case LikePost => {"postId", "likesCount"}
    case PublishPost =>
      {"title", "subtitle", "publicationId", "content", "imageUrl", "slug", "originUrl",
       "tags", "disableComments", "publishAs", "seriesId", "settings", "coAuthors"}
    case UpdatePost =>
      {"postId", "title", "subtitle", "publishedAt", "content", "imageUrl", "slug", "originUrl",
       "tags", "publishAs", "seriesId", "settings", "coAuthors", "publicationId"}
    case RemovePost => {"postId"}
    case LikeComment => {"commentId", "likesCount"}
    case AddComment => {"postId", "content"}
    case UpdateComment => {"commentId", "content"}
    case RemoveComment => {"commentId"}
    case AddReply => {"commentId", "content"}
    case UpdateReply => {"commentId", "content", "replyId"}
    case RemoveReply => {"commentId", "replyId"}
    case PublishDraft => {"draftId"}
    case ScheduleDraft => {"draftId", "publishAt", "authorId"}
    case RescheduleDraft => {"draftId", "publishAt"}
    case CancelSchedule => {"draftId"}
    case CreateWebhook => {"publicationId", "url", "events", "secret"}
    case UpdateWebhook => {"webhookId", "url", "events", "secret"}
    case RemoveWebhook => {"webhookId"}
  }

  /** The declared variables whose GraphQL type is non-null (`!`), which must be supplied. */
  function Required(q: QueryId): (r: set<string>)
    ensures r <= Declared(q)
  {
    match q
    case PublicationInfo => {}
    case Drafts => {"first"}
    case Feed => {"first"}
    case ToggleFollow => {}
    case LikePost => {"postId"}
    case PublishPost => {"title", "publicationId", "content", "tags"}
    case UpdatePost => {"postId"}
    case LikeComment => {"commentId"}
    case _ => Declared(q)
  }

  datatype Request = Request(query: QueryId, variables: Vars)

  /** A request names every required variable and no undeclared one. */
  predicate Conforms(req: Request) {
    Required(req.query) <= req.variables.Keys <= Declared(req.query)
  }

  /**
   * The transport: given the document and the variables it returns the
   * reply's data or the error gql raises. It is a parameter everywhere.
   */
  type Fetch = Request -> Result<Json, Err>

  /** A token that passed the constructor's check. */
  type Token = s: string | s != "" witness "t"

  /** A `HashnodeClient`, reduced to the token it was built from. */
  datatype HashnodeClient = HashnodeClient(token: Token)

  /**
   * What a resource holds as `client`: a `HashnodeClient`, or (for feed
   * posts) the raw gql `Client`, which has no `fetch_data`.
   */
  datatype Handle = Hashnode(hashnode: HashnodeClient) | RawGql(token: Token)

  /** The requests issued by one operation, in order, and its outcome. */
  datatype Exchange<T> = Exchange(sent: seq<Request>, result: Result<T, Err>)

  /**
   * The outcome of an operation that runs a loop for a caller-chosen step
   * budget: it returned with an exchange, or it was still looping when the
   * budget ran out.
   */
  datatype Run<T> = Returned(exchange: Exchange<T>) | StillRunning(steps: nat)

  /** An exchange that failed locally, before any request. */
  function Refused<T>(e: Err): (x: Exchange<T>)
    ensures x.sent == [] && x.result == Failure(e)
  {
    Exchange([], Failure(e))
  }

  /**
   * `HashnodeClient.fetch_data`: a missing or empty variable map becomes {}
   * and the request is handed to the transport once; its error, if any,
   * is returned unchanged.
   */
  function FetchData(fetch: Fetch, query: QueryId, variables: Option<Vars>): (x: Exchange<Json>)
    ensures |x.sent| == 1 && x.sent[0].query == query
    ensures variables.None? ==> x.sent[0].variables == map[]
    ensures variables.Some? ==> x.sent[0].variables == variables.value
    ensures x.result == fetch(x.sent[0])
  {
    var vars := if variables.None? || variables.value == map[] then map[] else variables.value;
    var req := Request(query, vars);
    Exchange([req], fetch(req))
  }

  /** `self.client.fetch_data(query, variables)` on a resource's handle. */
  function Send(client: Handle, fetch: Fetch, query: QueryId, variables: Vars): (x: Exchange<Json>)
    ensures client.RawGql? ==> x == Refused(AttributeError("fetch_data"))
    ensures client.Hashnode? ==> x.sent == [Request(query, variables)]
                                  && x.result == fetch(Request(query, variables))
  {
    match client
    case RawGql(_) => Refused(AttributeError("fetch_data"))
    case Hashnode(_) => FetchData(fetch, query, Some(variables))
  }

  /** Applies a decoder to the reply of an exchange; a failed fetch passes through unchanged. */
  function Then<T>(x: Exchange<Json>, decode: Json -> Result<T, Err>): (y: Exchange<T>)
    ensures y.sent == x.sent
    ensures x.result.Failure? ==> y.result == Failure(x.result.error)
    ensures x.result.Success? ==> y.result == decode(x.result.value)
  {
    match x.result
    case Failure(e) => Exchange(x.sent, Failure(e))
    case Success(data) => Exchange(x.sent, decode(data))
  }

  /**
   * The common shape of a resource call: one request through the handle,
   * then `decode` applied to the value at `path` in the reply.
   */
  function Lookup<T>(client: Handle, fetch: Fetch, query: QueryId, variables: Vars, path: seq<string>,
                     decode: Json -> Result<T, Err>): (x: Exchange<T>)
    ensures client.RawGql? ==> x == Refused(AttributeError("fetch_data"))
    ensures client.Hashnode? ==> x.sent == [Request(query, variables)]
    ensures x.result.Success? ==>
      && fetch(x.sent[0]).Success?
      && HasKeys(fetch(x.sent[0]).value, path)
      && Success(x.result.value) == decode(At(fetch(x.sent[0]).value, path))
    ensures client.Hashnode? && fetch(Request(query, variables)).Failure? ==>
      x.result == Failure(fetch(Request(query, variables)).error)
    ensures client.Hashnode? && fetch(Request(query, variables)).Success?
            && HasKeys(fetch(Request(query, variables)).value, path) ==>
      x.result == decode(At(fetch(Request(query, variables)).value, path))
    ensures client.Hashnode? && fetch(Request(query, variables)).Success?
            && !HasKeys(fetch(Request(query, variables)).value, path) ==>
      x.result.Failure?
  {
    Then(Send(client, fetch, query, variables), (data: Json) => DecodeAt(data, path, decode))
  }

  /** `decode(data[k1]...[kn])`. */
  function DecodeAt<T>(data: Json, path: seq<string>, decode: Json -> Result<T, Err>): (r: Result<T, Err>)
    ensures r.Success? ==> HasKeys(data, path) && r == decode(At(data, path))
    ensures HasKeys(data, path) ==> r == decode(At(data, path))
    ensures !HasKeys(data, path) ==> r.Failure?
  {
    var node :- Path(data, path);
    decode(node)
  }

  /** Ignores the reply and returns a fixed message once the request succeeded. */
  function Constant(x: Exchange<Json>, message: string): (y: Exchange<string>)
    ensures y.sent == x.sent
    ensures x.result.Failure? ==> y.result == Failure(x.result.error)
    ensures x.result.Success? ==> y.result == Success(message)
  {
    Then(x, _ => Success(message))
  }
}
