/**
 * `Webhook` (hashnode_py/resources/webhook.py): the snapshot, `update` with
 * its event loop and its defaults, and `delete`.
 */
module Webhooks {
  import opened Wrappers
  import opened Json
  import opened Transport
  import opened Ascii
  import opened Events

  datatype Webhook = Webhook(
    client: Handle,
    id: Json,
    publicationId: Json,
    url: Json,
    events: Json,
    secret: Json,
    createdAt: Json,
    updatedAt: Json)

  /** The nodes the constructor accepts: every field present, the publication a dict. */
  predicate Decodable(node: Json) {
    && Has(node, "id")
    && HasPath(node, "publication", "id")
    && Has(node, "url")
    && Has(node, "events")
    && Has(node, "secret")
    && Has(node, "createdAt")
    && Has(node, "updatedAt")
  }

  /** `Webhook(data, client)`. */
  function DecodeWebhook(node: Json, client: Handle): (r: Result<Webhook, Err>)
    ensures r.Success? <==> Decodable(node)
    ensures r.Success? ==> r.value == Webhook(
      client := client,
      id := node.fields["id"],
      publicationId := node.fields["publication"].fields["id"],
      url := node.fields["url"],
      events := node.fields["events"],
      secret := node.fields["secret"],
      createdAt := node.fields["createdAt"],
      updatedAt := node.fields["updatedAt"])
  {
    var id :- Field(node, "id");
    var publicationId :- Nested(node, "publication", "id");
    var url :- Field(node, "url");
    var events :- Field(node, "events");
    var secret :- Field(node, "secret");
    var createdAt :- Field(node, "createdAt");
    var updatedAt :- Field(node, "updatedAt");
    Success(Webhook(client, id, publicationId, url, events, secret, createdAt, updatedAt))
  }

  /** The webhook node the create and update mutations select. */
  function EncodeWebhook(w: Webhook): Json {
    JObj(map[
      "id" := w.id,
      "url" := w.url,
      "publication" := JObj(map["id" := w.publicationId]),
      "events" := w.events,
      "secret" := w.secret,
      "createdAt" := w.createdAt,
      "updatedAt" := w.updatedAt])
  }

  lemma WebhookRoundTrip(w: Webhook)
    ensures DecodeWebhook(EncodeWebhook(w), w.client) == Success(w)
  {
    assert Decodable(EncodeWebhook(w));
  }

  /** A mutation reply `{root: {'webhook': payload}}`. */
  function WebhookReply(root: string, payload: Json): Json {
    JObj(map[root := JObj(map["webhook" := payload])])
  }

  /** `Webhook(data[root]['webhook'], client)`: the subtree the mutation selects. */
  function DecodeWebhookReply(reply: Json, root: string, client: Handle): (r: Result<Webhook, Err>)
    ensures r.Success? <==> HasPath(reply, root, "webhook") && Decodable(reply.fields[root].fields["webhook"])
    ensures r.Success? ==> r == DecodeWebhook(reply.fields[root].fields["webhook"], client)
  {
    var node :- Nested(reply, root, "webhook");
    DecodeWebhook(node, client)
  }

  /**
   * A reply carrying a webhook: the constructor applied to the whole reply
   * raises KeyError('id'), and the subtree read gives the webhook back.
   */
  lemma WebhookReplyDecoding(root: string, w: Webhook)
    requires root != "id"
    ensures DecodeWebhook(WebhookReply(root, EncodeWebhook(w)), w.client) == Failure(KeyError("id"))
    ensures DecodeWebhookReply(WebhookReply(root, EncodeWebhook(w)), root, w.client) == Success(w)
  {
    WebhookRoundTrip(w);
  }

  /** A Python `list[str]` as the JSON array the transport sends. */
  function ListJson(items: seq<string>): (j: Json)
    ensures j.JArr? && |j.items| == |items|
    ensures forall i :: 0 <= i < |items| ==> j.items[i] == JStr(items[i])
    ensures Truthy(j) <==> items != []
  {
    JArr(seq(|items|, i requires 0 <= i < |items| => JStr(items[i])))
  }

  /**
   * The variables `update` sends: each falsy argument is replaced by the
   * snapshot's own value.
   */
  function UpdateVariables(self: Webhook, url: Json, events: Json, secret: Json): (v: Vars)
    ensures Conforms(Request(UpdateWebhook, v))
    ensures v["webhookId"] == self.id
    ensures v["url"] == (if Truthy(url) then url else self.url)
    ensures v["events"] == (if Truthy(events) then events else self.events)
    ensures v["secret"] == (if Truthy(secret) then secret else self.secret)
  {
    var url := if !Truthy(url) then self.url else url;
    var events := if !Truthy(events) then self.events else events;
    var secret := if !Truthy(secret) then self.secret else secret;
    map["webhookId" := self.id, "url" := url, "events" := events, "secret" := secret]
  }

  /** An update with no arguments resends the snapshot's own url, events and secret. */
  lemma BareUpdateResendsSnapshot(self: Webhook)
    ensures UpdateVariables(self, JNull, JNull, JNull) == UpdateVariables(self, self.url, self.events, self.secret)
    ensures UpdateVariables(self, JNull, JNull, JNull)
            == map["webhookId" := self.id, "url" := self.url, "events" := self.events, "secret" := self.secret]
  {
  }

  /**
   * Defaulting is idempotent: feeding the variables an update sent back as
   * arguments sends them again unchanged.
   */
  lemma UpdateVariablesIdempotent(self: Webhook, url: Json, events: Json, secret: Json)
    ensures var v := UpdateVariables(self, url, events, secret);
            UpdateVariables(self, v["url"], v["events"], v["secret"]) == v
  {
  }

  /**
   * `Webhook.update` as written. A None list raises before any request. On
   * an empty list the loop ends at once, the list stays empty, the
   * snapshot's events are sent and the constructor is applied to the whole
   * reply. On a non-empty list the loop is still appending after `budget`
   * steps and no request has been made.
   */
  method Update(self: Webhook, fetch: Fetch, url: Json, events: PyList?, secret: Json, budget: nat)
    returns (run: Run<Webhook>)
    modifies events
    ensures events == null ==> run == Returned(Refused(TypeError("'NoneType' object is not iterable")))
    ensures events != null && old(events.items) == [] ==>
      && events.items == []
      && run.Returned?
      && run.exchange == Then(Send(self.client, fetch, UpdateWebhook, UpdateVariables(self, url, JNull, secret)),
                              (data: Json) => DecodeWebhook(data, self.client))
    ensures events != null && old(events.items) != [] ==>
      && run == StillRunning(budget)
      && events.items == Grown(old(events.items), budget)
  {
    if events == null {
      return Returned(Refused(TypeError("'NoneType' object is not iterable")));
    }
    var cursor, exited := AppendUppercased(events, budget);
    if !exited {
      return StillRunning(cursor);
    }
    var sent := ListJson(events.items);
    var variables := UpdateVariables(self, url, sent, secret);
    var reply := Send(self.client, fetch, UpdateWebhook, variables);
    run := Returned(Then(reply, (data: Json) => DecodeWebhook(data, self.client)));
  }

  /**
   * `Webhook.update` as evidently intended: the events are upper-cased in
   * place, a non-empty list is sent as given, and the webhook is read from
   * `data['updateWebhook']['webhook']`.
   */
  method UpdateUppercased(self: Webhook, fetch: Fetch, url: Json, events: PyList?, secret: Json)
    returns (x: Exchange<Webhook>)
    modifies events
    ensures events == null ==> x == Refused(TypeError("'NoneType' object is not iterable"))
    ensures events != null ==>
      && events.items == Uppercased(old(events.items))
      && x == Then(Send(self.client, fetch, UpdateWebhook,
                        UpdateVariables(self, url, ListJson(Uppercased(old(events.items))), secret)),
                   (data: Json) => DecodeWebhookReply(data, "updateWebhook", self.client))
  {
    if events == null {
      return Refused(TypeError("'NoneType' object is not iterable"));
    }
    UppercaseInPlace(events);
    var variables := UpdateVariables(self, url, ListJson(events.items), secret);
    var reply := Send(self.client, fetch, UpdateWebhook, variables);
    x := Then(reply, (data: Json) => DecodeWebhookReply(data, "updateWebhook", self.client));
  }

  /** `Webhook.delete`: sends {'webhookId': self.id} and ignores the reply. */
  function Delete(self: Webhook, fetch: Fetch): (x: Exchange<string>)
    ensures self.client.RawGql? ==> x == Refused(AttributeError("fetch_data"))
    ensures self.client.Hashnode? ==> x.sent == [Request(RemoveWebhook, map["webhookId" := self.id])]
                                      && Conforms(x.sent[0])
    ensures x.result.Success? <==> self.client.Hashnode? && fetch(x.sent[0]).Success?
    ensures self.client.Hashnode? && fetch(x.sent[0]).Failure? ==> x.result == Failure(fetch(x.sent[0]).error)
    ensures x.result.Success? ==> x.result.value == "Successfully deleted webhook"
  {
    Constant(Send(self.client, fetch, RemoveWebhook, map["webhookId" := self.id]), "Successfully deleted webhook")
  }
}
