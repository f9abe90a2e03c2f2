/**
 * `Draft` (hashnode_py/resources/draft.py): the snapshot a publication's
 * draft list yields, and its schedule, reschedule and cancel mutations.
 */
module Drafts {
  import opened Wrappers
  import opened Json
  import opened Transport
  import opened ScheduledPosts

  datatype Draft = Draft(
    client: Handle,
    id: Json,
    slug: Json,
    title: Json,
    subtitle: Json,
    author: Json,
    coverImage: Json,
    readTime: Json,
    content: Json,
    updatedAt: Json,
    lastBackupStatus: Json,
    lastBackupAt: Json,
    lastSuccessfulBackup: Json,
    lastFailedBackup: Json)

  /**
   * The nodes the constructor accepts: the author must be a dict, while the
   * cover image, the content and the last backup may be null.
   */
  predicate Decodable(node: Json) {
    && Has(node, "id")
    && Has(node, "slug")
    && Has(node, "title")
    && Has(node, "subtitle")
    && HasPath(node, "author", "username")
    && HasGuarded(node, "coverImage", "url")
    && Has(node, "readTimeInMinutes")
    && HasGuarded(node, "content", "text")
    && Has(node, "updatedAt")
    && HasGuarded(node, "lastBackup", "status")
    && HasGuarded(node, "lastBackup", "at")
    && Has(node, "lastSuccessfulBackupAt")
    && Has(node, "lastFailedBackupAt")
  }

  /** `Draft(data, client)`. */
  function DecodeDraft(node: Json, client: Handle): (r: Result<Draft, Err>)
    ensures r.Success? <==> Decodable(node)
    ensures r.Success? ==> r.value == Draft(
      client := client,
      id := node.fields["id"],
      slug := node.fields["slug"],
      title := node.fields["title"],
      subtitle := node.fields["subtitle"],
      author := node.fields["author"].fields["username"],
      coverImage := GuardedAt(node, "coverImage", "url"),
      readTime := node.fields["readTimeInMinutes"],
      content := GuardedAt(node, "content", "text"),
      updatedAt := node.fields["updatedAt"],
      lastBackupStatus := GuardedAt(node, "lastBackup", "status"),
      lastBackupAt := GuardedAt(node, "lastBackup", "at"),
      lastSuccessfulBackup := node.fields["lastSuccessfulBackupAt"],
      lastFailedBackup := node.fields["lastFailedBackupAt"])
  {
    var id :- Field(node, "id");
    var slug :- Field(node, "slug");
    var title :- Field(node, "title");
    var subtitle :- Field(node, "subtitle");
    var author :- Nested(node, "author", "username");
    var coverImage :- Guarded(node, "coverImage", "url");
    var readTime :- Field(node, "readTimeInMinutes");
    var content :- Guarded(node, "content", "text");
    var updatedAt :- Field(node, "updatedAt");
    var lastBackupStatus :- Guarded(node, "lastBackup", "status");
    var lastBackupAt :- Guarded(node, "lastBackup", "at");
    var lastSuccessfulBackup :- Field(node, "lastSuccessfulBackupAt");
    var lastFailedBackup :- Field(node, "lastFailedBackupAt");
    Success(Draft(client, id, slug, title, subtitle, author, coverImage, readTime, content, updatedAt,
                  lastBackupStatus, lastBackupAt, lastSuccessfulBackup, lastFailedBackup))
  }

  /** A guarded nested object: null for None, else a one-key dict. */
  function Wrap(key: string, value: Json): Json {
    if value == JNull then JNull else JObj(map[key := value])
  }

  /** The draft node the drafts query selects; the last backup is null only when both its parts are None. */
  function EncodeDraft(d: Draft): Json {
    JObj(map[
      "id" := d.id,
      "slug" := d.slug,
      "title" := d.title,
      "subtitle" := d.subtitle,
      "author" := JObj(map["username" := d.author]),
      "coverImage" := Wrap("url", d.coverImage),
      "readTimeInMinutes" := d.readTime,
      "content" := Wrap("text", d.content),
      "updatedAt" := d.updatedAt,
      "lastBackup" := if d.lastBackupStatus == JNull && d.lastBackupAt == JNull then JNull
                      else JObj(map["status" := d.lastBackupStatus, "at" := d.lastBackupAt]),
      "lastSuccessfulBackupAt" := d.lastSuccessfulBackup,
      "lastFailedBackupAt" := d.lastFailedBackup])
  }

  lemma WrapGuarded(node: Json, key: string, sub: string, value: Json)
    requires Has(node, key) && node.fields[key] == Wrap(sub, value)
    ensures HasGuarded(node, key, sub) && GuardedAt(node, key, sub) == value
  {
    if value != JNull {
      assert Truthy(node.fields[key]) by {
        assert sub in node.fields[key].fields;
      }
    }
  }

  lemma EncodedGuards(d: Draft)
    ensures HasGuarded(EncodeDraft(d), "coverImage", "url")
    ensures HasGuarded(EncodeDraft(d), "content", "text")
    ensures HasGuarded(EncodeDraft(d), "lastBackup", "status")
    ensures HasGuarded(EncodeDraft(d), "lastBackup", "at")
    ensures GuardedAt(EncodeDraft(d), "coverImage", "url") == d.coverImage
    ensures GuardedAt(EncodeDraft(d), "content", "text") == d.content
    ensures GuardedAt(EncodeDraft(d), "lastBackup", "status") == d.lastBackupStatus
    ensures GuardedAt(EncodeDraft(d), "lastBackup", "at") == d.lastBackupAt
  {
    var e := EncodeDraft(d);
    WrapGuarded(e, "coverImage", "url", d.coverImage);
    WrapGuarded(e, "content", "text", d.content);
    var backup := e.fields["lastBackup"];
    assert backup != JNull ==> "status" in backup.fields && "at" in backup.fields && Truthy(backup);
  }

  lemma EncodedIsDecodable(d: Draft)
    ensures Decodable(EncodeDraft(d))
  {
    EncodedGuards(d);
  }

  lemma EncodedFields(d: Draft)
    ensures var e := EncodeDraft(d).fields;
      && e["id"] == d.id && e["slug"] == d.slug && e["title"] == d.title
      && e["subtitle"] == d.subtitle && e["author"].fields["username"] == d.author
      && e["readTimeInMinutes"] == d.readTime && e["updatedAt"] == d.updatedAt
      && e["lastSuccessfulBackupAt"] == d.lastSuccessfulBackup
      && e["lastFailedBackupAt"] == d.lastFailedBackup
  {
  }

  lemma DraftRoundTrip(d: Draft)
    ensures DecodeDraft(EncodeDraft(d), d.client) == Success(d)
  {
    EncodedIsDecodable(d);
    EncodedGuards(d);
    EncodedFields(d);
  }

  /** A draft with no backup yet decodes with both backup fields None instead of failing. */
  lemma NoBackupYet(node: Json, client: Handle)
    requires Decodable(node) && node.fields["lastBackup"] == JNull
    ensures DecodeDraft(node, client).Success?
    ensures DecodeDraft(node, client).value.lastBackupStatus == JNull
    ensures DecodeDraft(node, client).value.lastBackupAt == JNull
  {
  }

  /** `{'authorId': author_id, 'publishAt': publish_at, 'draftId': self.id}`. */
  function ScheduleVariables(self: Draft, authorId: Json, publishAt: Json): (v: Vars)
    ensures Conforms(Request(ScheduleDraft, v))
    ensures v["draftId"] == self.id && v["authorId"] == authorId && v["publishAt"] == publishAt
  {
    map["authorId" := authorId, "publishAt" := publishAt, "draftId" := self.id]
  }

  /** `{'publishAt': publish_at, 'draftId': self.id}`. */
  function RescheduleVariables(self: Draft, publishAt: Json): (v: Vars)
    ensures Conforms(Request(RescheduleDraft, v))
    ensures v["draftId"] == self.id && v["publishAt"] == publishAt
  {
    map["publishAt" := publishAt, "draftId" := self.id]
  }

  /**
   * `Draft.schedule` as written: one request, and the scheduled-post
   * constructor applied to the whole reply.
   */
  function Schedule(self: Draft, fetch: Fetch, authorId: Json, publishAt: Json): (x: Exchange<ScheduledPost>)
    ensures self.client.RawGql? ==> x == Refused(AttributeError("fetch_data"))
    ensures self.client.Hashnode? ==> x.sent == [Request(ScheduleDraft, ScheduleVariables(self, authorId, publishAt))]
    ensures x.result.Success? ==> fetch(x.sent[0]).Success?
                                  && x.result == DecodeScheduledPost(fetch(x.sent[0]).value, self.client)
    ensures self.client.Hashnode? && fetch(x.sent[0]).Failure? ==> x.result == Failure(fetch(x.sent[0]).error)
    ensures self.client.Hashnode? && fetch(x.sent[0]).Success? ==>
      x.result == DecodeScheduledPost(fetch(x.sent[0]).value, self.client)
  {
    var reply := Send(self.client, fetch, ScheduleDraft, ScheduleVariables(self, authorId, publishAt));
    Then(reply, (data: Json) => DecodeScheduledPost(data, self.client))
  }

  /** `Draft.schedule` reading `data['scheduleDraft']['scheduledPost']`, the node the mutation selects. */
  function ScheduleFromReply(self: Draft, fetch: Fetch, authorId: Json, publishAt: Json): (x: Exchange<ScheduledPost>)
    ensures self.client.RawGql? ==> x == Refused(AttributeError("fetch_data"))
    ensures x.sent == Schedule(self, fetch, authorId, publishAt).sent
    ensures x.result.Success? ==>
      && fetch(x.sent[0]).Success?
      && x.result == DecodeScheduledReply(fetch(x.sent[0]).value, "scheduleDraft", self.client)
    ensures self.client.Hashnode? && fetch(x.sent[0]).Failure? ==> x.result == Failure(fetch(x.sent[0]).error)
    ensures self.client.Hashnode? && fetch(x.sent[0]).Success? ==>
      x.result == DecodeScheduledReply(fetch(x.sent[0]).value, "scheduleDraft", self.client)
  {
    var reply := Send(self.client, fetch, ScheduleDraft, ScheduleVariables(self, authorId, publishAt));
    Then(reply, (data: Json) => DecodeScheduledReply(data, "scheduleDraft", self.client))
  }

  /**
   * On a reply that carries a well-formed scheduled post, the call as
   * written raises KeyError('id') while the reply-path read returns the post.
   */
  lemma ScheduleDecodesWrongNode(self: Draft, fetch: Fetch, authorId: Json, publishAt: Json, s: ScheduledPost)
    requires self.client.Hashnode? && s.client == self.client
    requires fetch(Request(ScheduleDraft, ScheduleVariables(self, authorId, publishAt)))
             == Success(Reply("scheduleDraft", "scheduledPost", EncodeScheduledPost(s)))
    ensures Schedule(self, fetch, authorId, publishAt).result == Failure(KeyError("id"))
    ensures ScheduleFromReply(self, fetch, authorId, publishAt).result == Success(s)
  {
    RawReplyFails("scheduleDraft", EncodeScheduledPost(s), self.client);
    ScheduledReplyRoundTrip("scheduleDraft", s);
  }

  /** `Draft.reschedule` as written: the whole reply goes to the scheduled-post constructor. */
  function Reschedule(self: Draft, fetch: Fetch, publishAt: Json): (x: Exchange<ScheduledPost>)
    ensures self.client.RawGql? ==> x == Refused(AttributeError("fetch_data"))
    ensures self.client.Hashnode? ==> x.sent == [Request(RescheduleDraft, RescheduleVariables(self, publishAt))]
    ensures x.result.Success? ==> fetch(x.sent[0]).Success?
                                  && x.result == DecodeScheduledPost(fetch(x.sent[0]).value, self.client)
    ensures self.client.Hashnode? && fetch(x.sent[0]).Failure? ==> x.result == Failure(fetch(x.sent[0]).error)
    ensures self.client.Hashnode? && fetch(x.sent[0]).Success? ==>
      x.result == DecodeScheduledPost(fetch(x.sent[0]).value, self.client)
  {
    var reply := Send(self.client, fetch, RescheduleDraft, RescheduleVariables(self, publishAt));
    Then(reply, (data: Json) => DecodeScheduledPost(data, self.client))
  }

  /** `Draft.reschedule` reading `data['rescheduleDraft']['scheduledPost']`. */
  function RescheduleFromReply(self: Draft, fetch: Fetch, publishAt: Json): (x: Exchange<ScheduledPost>)
    ensures self.client.RawGql? ==> x == Refused(AttributeError("fetch_data"))
    ensures x.sent == Reschedule(self, fetch, publishAt).sent
    ensures x.result.Success? ==>
      && fetch(x.sent[0]).Success?
      && x.result == DecodeScheduledReply(fetch(x.sent[0]).value, "rescheduleDraft", self.client)
    ensures self.client.Hashnode? && fetch(x.sent[0]).Failure? ==> x.result == Failure(fetch(x.sent[0]).error)
    ensures self.client.Hashnode? && fetch(x.sent[0]).Success? ==>
      x.result == DecodeScheduledReply(fetch(x.sent[0]).value, "rescheduleDraft", self.client)
  {
    var reply := Send(self.client, fetch, RescheduleDraft, RescheduleVariables(self, publishAt));
    Then(reply, (data: Json) => DecodeScheduledReply(data, "rescheduleDraft", self.client))
  }

  lemma RescheduleDecodesWrongNode(self: Draft, fetch: Fetch, publishAt: Json, s: ScheduledPost)
    requires self.client.Hashnode? && s.client == self.client
    requires fetch(Request(RescheduleDraft, RescheduleVariables(self, publishAt)))
             == Success(Reply("rescheduleDraft", "scheduledPost", EncodeScheduledPost(s)))
    ensures Reschedule(self, fetch, publishAt).result == Failure(KeyError("id"))
    ensures RescheduleFromReply(self, fetch, publishAt).result == Success(s)
  {
    RawReplyFails("rescheduleDraft", EncodeScheduledPost(s), self.client);
    ScheduledReplyRoundTrip("rescheduleDraft", s);
  }

  /** `Draft.cancel_schedule`: sends {'draftId': self.id} and ignores the reply. */
  function CancelSchedule(self: Draft, fetch: Fetch): (x: Exchange<string>)
    ensures self.client.RawGql? ==> x == Refused(AttributeError("fetch_data"))
    ensures self.client.Hashnode? ==> x.sent == [Request(Transport.CancelSchedule, map["draftId" := self.id])]
                                      && Conforms(x.sent[0])
    ensures x.result.Success? <==> self.client.Hashnode? && fetch(x.sent[0]).Success?
    ensures self.client.Hashnode? && fetch(x.sent[0]).Failure? ==> x.result == Failure(fetch(x.sent[0]).error)
    ensures x.result.Success? ==> x.result.value == "Successfully cancelled schedule"
  {
    var reply := Send(self.client, fetch, Transport.CancelSchedule, map["draftId" := self.id]);
    Constant(reply, "Successfully cancelled schedule")
  }
}
