# hashnode_py, modelled in Dafny

hashnode_py is a thin Python client for the Hashnode GraphQL API. Every
operation has the same shape:

1. Build a GraphQL variable map from the arguments.
2. Hand it to `HashnodeClient.fetch_data`, which calls the `gql` transport.
3. Project the reply into a flat resource object (`User`, `Post`,
   `Publication`, `Draft`, `Webhook`, `Tag`, `Comment`, `ScheduledPost`,
   `Followers`/`Follows`), or into a message string.

This project models that local logic around an abstract transport.

- **Replies.** A reply is a `Json` value. Python truthiness is `Json.Truthy`.
  `node[key]`, the guarded `node[key][sub] if node[key] else None`, and
  iteration become `Result`-returning functions. The `Result` carries the
  Python exception (`KeyError`, `TypeError`, `ValueError`, `AttributeError`)
  the code would raise.
- **Transport.** It is a parameter `fetch: Request -> Result<Json, Err>`. A
  `Request` pairs an opaque query identifier with a variable map.
  `Transport.Declared` and `Transport.Required` give the `$variables` each
  template under `hashnode_py/queries` declares, and which of them are
  non-null. `Conforms` says a request names every required variable and no
  undeclared one.
- **Exchanges.** Every operation returns an `Exchange`: the requests it sent,
  in order, and its outcome. So "raises before any request" and "sends
  exactly this request" can be stated directly.
- **Handles.** A resource holds either a `HashnodeClient` (reduced to its
  token) or, for feed posts, the raw `gql` client. The raw client has no
  `fetch_data`, so calls through it fail with an AttributeError.
- **Decoders.** Each resource constructor is a decoder `DecodeX(node, client)`.
  Its contract states exactly which nodes it accepts (`Decodable`) and the
  record it builds. A matching `EncodeX` gives the node the GraphQL selection
  describes, and a `...RoundTrip` lemma proves that decoding an encoded
  record gives the record back. Null-guarded objects are `coverImage`,
  `about`, `pinnedPost`, `content` of a draft, `lastBackup` and `info`. The
  unguarded ones are `bio`, `author`, `publication`, `content` of a post or
  comment, `integrations`, `draft` and `scheduledBy`. A null among the
  unguarded ones makes decoding fail; the decoders' contracts (and two
  lemmas) exhibit this.
- **The events loop.** `Publication.create_webhook` and `Webhook.update` run
  `for i in events: events.append(i.upper())`. This is modelled
  imperatively: `Events.PyList` is a class holding the caller's list, and
  `Events.AppendUppercased` is a method whose `while` loop appends to it. The
  loop runs for a step budget the caller chooses, and the method proves it
  never exits on a non-empty list.
- **`get_feed`.** Its variable selection is a `method` with the source's
  sequence of `if` statements. It is proved equal to the declarative
  precedence function `Client.FeedSelection`.

Where the prose documentation and the code disagree, the model follows the
code. `get_feed` says the number of posts "must be less than 50", but the
guard is `> 50`, so 50 is accepted. `Client.FeedSelection` states the guard
as written.

## Model

| member | source | states |
|---|---|---|
| Client.NewClient | hashnode_py/client.py:23-25 | a None or empty token raises ValueError("No token provided"), and only then; otherwise the client keeps the token |
| Transport.FetchData | hashnode_py/client.py:208-214 | exactly one request is sent, with the given query; a None or empty variable map is sent as {}; the result is the transport's, unchanged |
| Transport.Send | hashnode_py/resources/post.py:50 | `self.client.fetch_data` through a HashnodeClient sends the one request; through the raw gql client it fails with AttributeError('fetch_data') and sends nothing |
| Client.GetUser | hashnode_py/client.py:47-52 | sends {'username'} to the user query (conforming to the template); a transport error is returned unchanged; a reply holding 'user' gives exactly DecodeUser of it with a HashnodeClient handle, and a reply without it fails |
| Client.PublicationVariables | hashnode_py/client.py:63-69 | fails with ValueError iff both host_id and host_url are falsy; a truthy host_id wins and gives {'id': host_id}, else {'host': host_url}; the map always has exactly one key and conforms |
| Client.GetPublication | hashnode_py/client.py:63-73 | when the variables fail, no request is sent; otherwise exactly the variable map is sent; a transport error is returned unchanged; a reply holding 'publication' gives exactly its decoded Publication, and one without it fails |
| Posts.GetPost | hashnode_py/client.py:83-88 | sends {'id': post_id} (conforming); a transport error is returned unchanged; a reply holding 'post' gives exactly DecodePost of it with a HashnodeClient handle, and one without it fails |
| Client.GetTag | hashnode_py/client.py:98-103 | sends {'slug'}; a transport error is returned unchanged; a reply holding 'tag' gives exactly its decoded Tag, and one without it fails |
| Client.DecodePageReply | hashnode_py/client.py:118-121 | succeeds iff user.<root>.nodes is a list of decodable users and user.<root>.pageInfo holds the four page keys; then one User per node in node order, and pageInfo handed to the page unchanged |
| Client.GetPage | hashnode_py/client.py:115-141 | sends exactly {'username', 'pageSize', 'page'} to the followers or follows query (conforming); a transport error is returned unchanged; otherwise the result is exactly the decoded page of the reply |
| Client.FeedSelection | hashnode_py/client.py:159-193 | fails iff n > 50 (ValueError, before any request) or feed_type is truthy but not a string (AttributeError 'upper'); on success 'first' maps to n, and the map is {'first', tags} if tags is truthy, else {'first', maxReadTime} if that is truthy, else {'first', minReadTime}, else {'first', upper-cased type}, else exactly {'first': n} |
| Client.FeedVariables | hashnode_py/client.py:159-193 | the sequential ifs of get_feed compute exactly FeedSelection: the last truthy filter in the order type, minReadTime, maxReadTime, tags replaces the earlier ones, and the type is upper-cased |
| Client.GetFeed | hashnode_py/client.py:159-199 | no request when the selection fails; otherwise one feed request with the selected variables, and the posts of feed.edges decoded in edge order, each holding the raw gql client |
| Client.DecodeFeed | hashnode_py/client.py:196-198 | succeeds iff feed.edges is a list of dicts holding 'node' whose every node decodes to a Post; then the posts are those nodes decoded in edge order, each holding the given client |
| Client.GetFeedHydrated | hashnode_py/client.py:159-199 | the same selection and request as get_feed, with the posts holding a HashnodeClient handle |
| Client.FeedPostsCannotFetch | hashnode_py/client.py:197 | get_comments on any post of the feed, as written, fails with AttributeError('fetch_data') and sends nothing; the same nodes decoded with a HashnodeClient decode alike and send the comments request |
| Users.DecodeUser | hashnode_py/resources/user.py:38-52 | succeeds iff every field is present and bio is a dict holding text; the User holds each field verbatim and bio.text |
| Users.UserRoundTrip | hashnode_py/resources/user.py:38-52 | decoding the encoded user gives the user back |
| Users.NullBioFails | hashnode_py/resources/user.py:41 | a null bio makes decoding fail with a TypeError |
| UserActions.Pick | hashnode_py/resources/user.py:66-75 | a dict literal of node[k] succeeds iff every key is present; its keys are exactly the listed keys with the node's values; the first missing key is the KeyError |
| UserActions.SocialShape | hashnode_py/resources/user.py:66-79 | 'all' gives exactly the eight links; a filter that is a key of the reply's links gives that link (KeyError if it is not one of the eight); any other filter gives None |
| UserActions.SocialFilterAgreesWithAll | hashnode_py/resources/user.py:76-79 | asking for one of the eight links gives the value the 'all' result holds for it |
| UserActions.GetSocialMedia | hashnode_py/resources/user.py:62-79 | sends {'username': self.username}; a transport error is returned unchanged; a reply holding user.socialMediaLinks gives exactly SocialShape of it, and one without it fails |
| UserActions.BadgeEntry | hashnode_py/resources/user.py:93-97 | 'all' gives {'badge': b}; any other filter f gives a dict with exactly the keys 'badge' and f, holding b['name'] and b[f], failing iff either is missing |
| UserActions.GetBadges | hashnode_py/resources/user.py:89-98 | sends {'username'}; a transport error is returned unchanged; a reply holding user.badges gives exactly BadgeEntries of it (one BadgeEntry per badge, in order), and one without it fails |
| UserActions.BadgeEntries | hashnode_py/resources/user.py:93-98 | succeeds iff the badges are a list whose every badge gives a BadgeEntry; one entry per badge, in order |
| UserActions.Listed | hashnode_py/resources/user.py:114-123 | succeeds iff the edges are a list whose every edge holds a node decoding to a Publication and a role; role=False gives the publications in edge order; role=True gives {'publication': title, 'role': role} pairs zipped in edge order |
| UserActions.RoleListMatchesPublications | hashnode_py/resources/user.py:114-123 | both forms fail on the same replies, and the i-th pair names the i-th publication's title |
| UserActions.RolesReadEvenWhenUnused | hashnode_py/resources/user.py:115 | an edge without a role makes the call fail even with role=False |
| UserActions.GetPublications | hashnode_py/resources/user.py:108-123 | sends {'username'}; a transport error is returned unchanged; a reply holding user.publications.edges gives exactly the listing of those edges, and one without them fails |
| UserActions.DecodePosts | hashnode_py/resources/user.py:138 | succeeds iff the nodes are a list whose every element decodes to a Post; one Post per node, in order |
| UserActions.GetPosts | hashnode_py/resources/user.py:134-139 | sends exactly {'username', 'page_size', 'page'}; a transport error is returned unchanged; a reply holding user.posts.nodes gives exactly DecodePosts of them (one Post per node, in order), and one without them fails |
| UserActions.PostsRoundTrip | hashnode_py/resources/user.py:134-139 | a reply carrying encoded posts gives exactly those posts back |
| UserActions.GetTagsFollowing | hashnode_py/resources/user.py:147-152 | sends {'username'}; a transport error is returned unchanged; a reply holding user.tagsFollowing gives exactly DecodeTags of it (one Tag per element, in order), and one without it fails |
| UserActions.DecodeTags | hashnode_py/resources/user.py:151 | succeeds iff the nodes are a list whose every element decodes to a Tag; one Tag per element, in order |
| UserActions.GetUserPage | hashnode_py/resources/user.py:160-170 | get_followers/get_follows delegate to the client's page lookup with the user's own username; the raw gql handle fails with AttributeError('get_followers') or ('get_follows') |
| UserActions.FollowMessage | hashnode_py/resources/user.py:182-185 | 'Successfully followed X' iff the following flag is truthy, 'Successfully unfollowed X' iff it is falsy |
| UserActions.ToggleFollow | hashnode_py/resources/user.py:178-185 | sends {'username'}; a transport error is returned unchanged; a reply holding toggleFollowUser.user.following gives exactly its FollowMessage, and one without it fails |
| UserActions.LikePost | hashnode_py/resources/user.py:194-198 | sends {'postId', 'likesCount'} (likes default 1); a transport error is returned unchanged; a reply holding likePost.post.title gives the message quoting it, and one without it fails |
| UserActions.LikeComment | hashnode_py/resources/user.py:207-211 | sends {'commentId', 'likesCount'}; a transport error is returned unchanged; a reply holding likeComment.comment.author.username gives the message quoting it, and one without it fails |
| UserActions.CommentCall | hashnode_py/resources/user.py:222-226 | one request; a transport error is returned unchanged; a reply holding data[root][field] gives exactly that node decoded as a comment of the given kind, and one without it fails |
| UserActions.AddComment | hashnode_py/resources/user.py:222-226 | sends {'postId', 'content'} (conforming) and decodes addComment.comment as a Comment |
| UserActions.UpdateComment | hashnode_py/resources/user.py:237-241 | sends {'commentId', 'content'} and decodes updateComment.comment as a Comment |
| UserActions.AddReply | hashnode_py/resources/user.py:263-267 | sends {'commentId', 'content'} and decodes addReply.reply as a Reply |
| UserActions.UpdateReply | hashnode_py/resources/user.py:279-283 | sends {'commentId', 'content', 'replyId'} and decodes updateReply.reply as a Reply |
| UserActions.RemoveComment | hashnode_py/resources/user.py:249-252 | sends {'commentId'}; succeeds iff the request does, with the constant message whatever the reply holds; a transport error is returned unchanged |
| UserActions.RemoveReply | hashnode_py/resources/user.py:292-295 | sends {'commentId', 'replyId'}; succeeds iff the request does, with the constant message; a transport error is returned unchanged |
| Posts.DecodePost | hashnode_py/resources/post.py:18-38 | succeeds iff every field is present, author/publication/content are dicts holding username/title/markdown, and a truthy coverImage holds url; the Post holds each field, and None for a falsy coverImage |
| Posts.PostRoundTrip | hashnode_py/resources/post.py:18-38 | decoding the encoded post gives the post back |
| Posts.DecodeReadsOnlySelection | hashnode_py/queries/post_queries.py:8-28 | two nodes agreeing on the selected fields (a single-post node and a feed node, say) give Posts that agree on every modelled attribute, the client apart (the raw `data` attribute is not modelled) |
| Posts.GetComments | hashnode_py/resources/post.py:48-54 | sends {'id': self.id, 'first': limit} (default 10); a transport error is returned unchanged; a reply holding post.comments.edges gives exactly DecodeComments of them (one Comment per edge, in order), and one without them fails |
| Posts.DecodeComments | hashnode_py/resources/post.py:51-53 | succeeds iff the edges are a list of dicts holding 'node' whose every node decodes to a Comment; one Comment per edge, in order |
| Comments.DecodeComment | hashnode_py/resources/comment.py:11-17 | succeeds iff every field is present and content/author are dicts holding text/username; the Comment holds them verbatim |
| Comments.CommentRoundTrip | hashnode_py/resources/comment.py:11-17 | decoding the encoded comment gives it back |
| Comments.ReplyIsComment | hashnode_py/resources/comment.py:20-28 | decoding as Reply succeeds exactly when decoding as Comment does, with the same fields |
| Tags.DecodeTag | hashnode_py/resources/tag.py:12-19 | succeeds iff every field is present and a truthy info holds text; info is None when info is falsy |
| Tags.TagRoundTrip | hashnode_py/resources/tag.py:12-19 | decoding the encoded tag gives it back |
| Tags.InfoGuard | hashnode_py/resources/tag.py:17 | a null info gives None; a non-empty info dict gives its text |
| Tags.DecodeReadsOnlySelection | hashnode_py/queries/user_queries.py:136-145 | two nodes agreeing on the selected fields (tag lookup and tagsFollowing) give Tags that agree on every modelled attribute, the client apart (the raw `data` attribute is not modelled) |
| ScheduledPosts.DecodeScheduledPost | hashnode_py/resources/scheduled_post.py:13-18 | succeeds iff id and scheduledDate are present and author, draft, scheduledBy, publication are dicts holding username/id/username/id |
| ScheduledPosts.ScheduledPostRoundTrip | hashnode_py/resources/scheduled_post.py:13-18 | decoding the encoded scheduled post gives it back |
| ScheduledPosts.RawReplyFails | hashnode_py/resources/scheduled_post.py:13 | a reply whose only top-level key is the mutation root fails with KeyError('id') |
| ScheduledPosts.DecodeScheduledReply | hashnode_py/queries/mutations.py:310-333 | decodes the scheduledPost subtree under the mutation root, and succeeds iff it is present and decodable |
| ScheduledPosts.ScheduledReplyRoundTrip | hashnode_py/queries/mutations.py:310-333 | a reply wrapping an encoded scheduled post decodes back to it |
| Follows.MakePage | hashnode_py/resources/follow.py:12-17 | succeeds iff pageInfo holds all four keys; the page keeps the users as given and the four values unchanged; the first missing key is the KeyError |
| Follows.FollowsLikeFollowers | hashnode_py/resources/follow.py:20-29 | Follows and Followers are built identically apart from their kind |
| Follows.LastPageKeepsNull | hashnode_py/resources/follow.py:14-17 | null page links are kept as null rather than rejected |
| Drafts.DecodeDraft | hashnode_py/resources/draft.py:17-29 | succeeds iff every field is present, author is a dict, and truthy coverImage/content/lastBackup hold url/text/status and at; guarded fields are None when falsy |
| Drafts.DraftRoundTrip | hashnode_py/resources/draft.py:17-29 | decoding the encoded draft gives it back |
| Drafts.NoBackupYet | hashnode_py/resources/draft.py:26-27 | a null lastBackup gives None for both backup status and time |
| Drafts.ScheduleVariables | hashnode_py/resources/draft.py:42 | {authorId, publishAt, draftId: self.id}, conforming to the mutation |
| Drafts.RescheduleVariables | hashnode_py/resources/draft.py:56 | {publishAt, draftId: self.id}, conforming to the mutation |
| Drafts.Schedule | hashnode_py/resources/draft.py:41-44 | sends the schedule request; a transport error is returned unchanged; otherwise the result is exactly the whole reply decoded as a ScheduledPost |
| Drafts.ScheduleDecodesWrongNode | hashnode_py/resources/draft.py:43-44 | on a well-formed reply, schedule as written fails with KeyError('id'), while decoding the scheduleDraft.scheduledPost subtree gives the scheduled post |
| Drafts.ScheduleFromReply | hashnode_py/resources/draft.py:41-44 | same request as schedule; a transport error is returned unchanged; otherwise the result is exactly scheduleDraft.scheduledPost decoded |
| Drafts.Reschedule | hashnode_py/resources/draft.py:55-58 | sends the reschedule request; a transport error is returned unchanged; otherwise the result is exactly the whole reply decoded |
| Drafts.RescheduleDecodesWrongNode | hashnode_py/resources/draft.py:57-58 | as written it fails with KeyError('id') on a well-formed reply; the subtree decode succeeds |
| Drafts.RescheduleFromReply | hashnode_py/resources/draft.py:55-58 | same request as reschedule; a transport error is returned unchanged; otherwise the result is exactly rescheduleDraft.scheduledPost decoded |
| Drafts.CancelSchedule | hashnode_py/resources/draft.py:66-69 | sends {draftId: self.id}; succeeds iff the request does, with a constant message; a transport error is returned unchanged |
| Publications.DecodePublication | hashnode_py/resources/publication.py:20-30 | succeeds iff every field is present, author and integrations are dicts, and truthy about/pinnedPost hold text/id; about and pinnedPost are None when falsy |
| Publications.PublicationRoundTrip | hashnode_py/resources/publication.py:20-30 | decoding the encoded publication gives it back |
| Publications.NullIntegrationsFails | hashnode_py/resources/publication.py:28 | a null integrations object makes decoding fail |
| Publications.TagSelection | hashnode_py/resources/publication.py:60-63 | truthy tag ids become [{'id': t}] with the same length and order; otherwise a truthy tags_slug is sent unchanged; None iff neither is given |
| Publications.PublishVariables | hashnode_py/resources/publication.py:55-82 | ValueError iff neither tag source is given; otherwise a map whose keys are exactly the mutation's declared variables, with publicationId = self.id, the title, content and non-null tags, settings {scheduled, enableTableOfContent}, and subtitle, imageUrl, slug, originUrl, disableComments, publishAs, seriesId and coAuthors as given |
| Publications.PublishPostCall | hashnode_py/resources/publication.py:55-85 | no request when the variables fail; otherwise the one publish request; a transport error is returned unchanged; a reply holding publishPost.post.id gives the message quoting it, and one without it fails |
| Publications.PublishWithoutTagsRefused | hashnode_py/resources/publication.py:57-58 | publish_post with its default tags raises ValueError and sends nothing |
| Publications.UpdatePostVariables | hashnode_py/resources/publication.py:113-145 | a conforming map with postId, the given content, TagSelection tags, a falsy publication_id replaced by self.id, and settings {disableComments, isTableOfContentEnabled} |
| Publications.UpdatePostVariablesKeys | hashnode_py/resources/publication.py:127-145 | the update map's keys are exactly the mutation's declared variables |
| Publications.UpdatePostVariablesPassThrough | hashnode_py/resources/publication.py:129-133 | title, subtitle, publishedAt and imageUrl are sent as given |
| Publications.UpdatePostVariablesOptions | hashnode_py/resources/publication.py:134-143 | slug, originUrl, publishAs, seriesId and coAuthors are sent as given |
| Publications.SendUpdate | hashnode_py/resources/publication.py:147-148 | the one update request; a transport error is returned unchanged; a reply holding updatePost.post.id gives 'Successfully Updated with id: "<id>"', and one without it fails |
| Publications.UpdatePostCall | hashnode_py/resources/publication.py:119-148 | truthy content: the one update request; falsy content: first the post lookup, whose failure stops the call, then the update carrying the looked-up content; on the raw handle AttributeError('get_post') |
| Publications.UpdatePostReportsId | hashnode_py/resources/publication.py:147-148 | in either content branch, a successful update_post quotes updatePost.post.id from the reply to the last request sent, the update |
| Publications.LookedUpContentReportsId | hashnode_py/resources/publication.py:119-148 | after the content lookup, the update is the last request and its reply's id is quoted |
| Publications.RemovePostCall | hashnode_py/resources/publication.py:156-161 | sends {'postId'}; succeeds iff the request does, with the constant message; a transport error is returned unchanged |
| Publications.DecodeDrafts | hashnode_py/resources/publication.py:175-177 | succeeds iff the edges are a list of dicts holding 'node' whose every node decodes to a Draft; one Draft per edge, in order |
| Publications.GetDrafts | hashnode_py/resources/publication.py:171-177 | sends {'id': self.id, 'first': limit} (default 10); a transport error is returned unchanged; a reply holding publication.drafts.edges gives exactly DecodeDrafts of them, and one without them fails |
| Publications.PublishDraftCall | hashnode_py/resources/publication.py:185-188 | sends {'draftId'}; a transport error is returned unchanged; a reply holding publishDraft.post.id gives the message quoting it, and one without it fails |
| Publications.CreateWebhookVariables | hashnode_py/resources/publication.py:203 | {publicationId: self.id, url, events, secret}, conforming |
| Publications.CreateWebhookCall | hashnode_py/resources/publication.py:200-205 | None events: TypeError, nothing sent; [] : the create request with [] and the whole reply decoded; non-empty: still looping after any budget, the list grown as Events.Grown |
| Publications.CreateWebhookUppercased | hashnode_py/resources/publication.py:200-205 | the list is replaced by its upper-cased form, that list is sent, and createWebhook.webhook is decoded |
| Webhooks.DecodeWebhook | hashnode_py/resources/webhook.py:16-22 | succeeds iff every field is present and publication is a dict holding id; the fields are copied verbatim |
| Webhooks.WebhookRoundTrip | hashnode_py/resources/webhook.py:16-22 | decoding the encoded webhook gives it back |
| Webhooks.DecodeWebhookReply | hashnode_py/queries/mutations.py:374-429 | decodes the webhook subtree under the mutation root, succeeding iff it is present and decodable |
| Webhooks.WebhookReplyDecoding | hashnode_py/resources/webhook.py:45-46 | on a well-formed reply, decoding the whole reply fails with KeyError('id') while the subtree decode gives the webhook |
| Webhooks.UpdateVariables | hashnode_py/resources/webhook.py:37-44 | webhookId = self.id; falsy url, events and secret are replaced by the snapshot's; truthy ones are sent as given; the map conforms |
| Webhooks.BareUpdateResendsSnapshot | hashnode_py/resources/webhook.py:37-42 | with every argument falsy, the request re-sends the snapshot's own url, events and secret |
| Webhooks.UpdateVariablesIdempotent | hashnode_py/resources/webhook.py:37-42 | merging again with the url, events and secret it sent gives the same variables: the merge is idempotent |
| Webhooks.Update | hashnode_py/resources/webhook.py:24-46 | None events: TypeError, nothing sent; []: the list is unchanged and the snapshot's events are sent, the whole reply decoded; non-empty: still looping after any budget, the list grown as Events.Grown |
| Webhooks.UpdateUppercased | hashnode_py/resources/webhook.py:24-46 | the list is replaced by its upper-cased form, the merged variables are sent, and updateWebhook.webhook is decoded |
| Webhooks.Delete | hashnode_py/resources/webhook.py:48-55 | sends {'webhookId': self.id}; succeeds iff the request does, with the constant message; a transport error is returned unchanged |
| Events.AppendUppercased | hashnode_py/resources/webhook.py:34-35 | exits iff the list was empty, leaving it unchanged; otherwise after any budget the cursor is still behind the end and the list is Grown(old, budget), one element longer per step |
| Events.GrownStep | hashnode_py/resources/publication.py:200-201 | one more step from Grown(s, k) appends the upper-cased element under the cursor, and the cursor is still behind the end |
| Events.AppendedSample | hashnode_py/resources/publication.py:200-201 | for ['post_published'], after k steps the list has k + 1 elements, every appended one 'POST_PUBLISHED' |
| Events.UppercaseInPlace | hashnode_py/resources/webhook.py:34-35 | replaces every element by its upper-cased form in place; the length never changes |
| Events.UppercasedSample | hashnode_py/resources/webhook.py:34-35 | ['post_published'] becomes ['POST_PUBLISHED'] |
| Ascii.Upper | hashnode_py/resources/webhook.py:35 | keeps the length and upper-cases each ASCII letter, leaving other characters alone |
| Ascii.UpperIdempotent | hashnode_py/resources/webhook.py:35 | upper-casing twice is upper-casing once |

## Left out

- The `gql` client, its HTTP transport, schema fetching, document parsing and `execute` are not modelled. The transport is the `fetch` parameter, and the query texts are opaque identifiers with their declared variable names.
- Building a fresh `HashnodeClient(self.token)` for each hydrated resource is not modelled: the handle carries only the token.
- Ascii.Upper: only ASCII letters are upper-cased. Python's `str.upper` covers all of Unicode.
- Json.Format: lists and dicts are rendered as placeholders in messages, because Python's `repr` of nested values is not modelled.
- UserActions.SocialShape: a non-string filter is treated as absent from the links. Python raises TypeError for an unhashable filter such as a list; that case is not modelled.
- Publications.TagSelection: tag ids are taken as a list. Other iterables Python would accept are not modelled.
- The raw `data` attribute that User, Post, Publication, Draft, Tag, ScheduledPost and Webhook keep (`self.data = data`) is not modelled: the records hold only the fields the constructors read. Two resources decoded from nodes that differ outside the selection therefore compare equal in the model, while their Python `data` attributes differ.
- Replies are taken as schema-typed: `Json.Items` iterates lists only. A Python `for` loop over a dict (its keys) or a string (its characters) is not modelled, so such a reply fails here where Python would iterate it.
- The `datetime` that `update_post` takes is an opaque pass-through `Json` value.
- Webhooks.Update: the non-terminating loop is run for a caller-chosen step budget, because a method without a termination proof cannot be written here. Running out of memory is not modelled.
- Publications.CreateWebhookCall: it is bounded by a step budget, for the same reason as Webhooks.Update.
- The tests under `tests/` call the live API, so they are not modelled.

## Findings

| source | as written | input that shows it | evidently intended | confidence | as-written member | corrected member |
|---|---|---|---|---|---|---|
| hashnode_py/resources/webhook.py:34-35, hashnode_py/resources/publication.py:200-201 | `for i in events: events.append(i.upper())` appends to the list it iterates | events = ['post_published']: after k steps the list has k + 1 elements and the cursor is still behind the end | replace each event by its upper-cased name | not executed | Events.AppendUppercased, Webhooks.Update, Publications.CreateWebhookCall | Events.UppercaseInPlace, Webhooks.UpdateUppercased, Publications.CreateWebhookUppercased |
| hashnode_py/resources/draft.py:44, 58 | `ScheduledPost(data, ...)` decodes the whole reply | a well-formed reply {'scheduleDraft': {'scheduledPost': {...}}} fails with KeyError('id') | decode data['scheduleDraft']['scheduledPost'] | not executed | Drafts.ScheduleDecodesWrongNode | Drafts.ScheduleFromReply |
| hashnode_py/resources/draft.py:58 | the reschedule reply is decoded whole | a well-formed reply {'rescheduleDraft': {'scheduledPost': {...}}} fails with KeyError('id') | decode data['rescheduleDraft']['scheduledPost'] | not executed | Drafts.RescheduleDecodesWrongNode | Drafts.RescheduleFromReply |
| hashnode_py/resources/webhook.py:46, hashnode_py/resources/publication.py:205 | `Webhook(data, ...)` decodes the whole reply | a well-formed reply {'updateWebhook': {'webhook': {...}}} fails with KeyError('id') | decode data[root]['webhook'] | not executed | Webhooks.WebhookReplyDecoding | Webhooks.DecodeWebhookReply |
| hashnode_py/client.py:197 | feed posts are built with `self.client`, the raw gql client | any feed post: `get_comments` fails with AttributeError('fetch_data') | build them with a HashnodeClient, like every other lookup | not executed | Client.FeedPostsCannotFetch | Client.GetFeedHydrated |
