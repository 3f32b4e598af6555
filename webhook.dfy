/**
 * Webhook registration at startup (`manage_webhook`, app.py:29-44).
 *
 * The handler lists the provider's webhook subscriptions, deletes each one whose callback URL
 * is this service's, and then creates a new subscription for inbox and outbox events. The
 * provider is not modelled: the listing it returns and the status of the creation request are
 * inputs, and the requests made are the output.
 */
module Webhooks {
  import opened Wrappers

  const WEBHOOK_URL := "https://gpt4daribarchat2deskwhatsapp-production.up.railway.app/receive-message/"
  const WEBHOOK_NAME := "MyAppWebhook"
  const WEBHOOK_EVENTS := ["inbox", "outbox"]

  datatype Webhook = Webhook(id: int, url: string)

  datatype WebhookCall =
    | ListWebhooks
    | DeleteWebhook(id: int)
    | CreateWebhook(url: string, name: string, events: seq<string>)

  /** The deletions for the subscriptions that point at this service, in list order. */
  function Deletions(hooks: seq<Webhook>): (calls: seq<WebhookCall>)
    ensures |calls| <= |hooks|
    ensures forall c :: c in calls ==> c.DeleteWebhook? && Webhook(c.id, WEBHOOK_URL) in hooks
    ensures forall w :: w in hooks && w.url == WEBHOOK_URL ==> DeleteWebhook(w.id) in calls
    decreases |hooks|
  {
    if hooks == [] then []
    else
      var last := hooks[|hooks| - 1];
      var init := hooks[..|hooks| - 1];
      assert hooks == init + [last];
      Deletions(init) + (if last.url == WEBHOOK_URL then [DeleteWebhook(last.id)] else [])
  }

  /** `manage_webhook`. `listing` is the `data` list of a listing answered with status 200, and
      None for any other status; `createStatus` is the status of the creation request. */
  method ManageWebhook(listing: Option<seq<Webhook>>, createStatus: int)
    returns (calls: seq<WebhookCall>, ok: bool)
    ensures calls == [ListWebhooks]
                     + (if listing.Some? then Deletions(listing.value) else [])
                     + [CreateWebhook(WEBHOOK_URL, WEBHOOK_NAME, WEBHOOK_EVENTS)]
    ensures ok <==> createStatus == 200 || createStatus == 201
  {
    calls := [ListWebhooks];
    if listing.Some? {
      var hooks := listing.value;
      for i := 0 to |hooks|
        invariant calls == [ListWebhooks] + Deletions(hooks[..i])
      {
        assert hooks[..i + 1][..i] == hooks[..i];
        if hooks[i].url == WEBHOOK_URL {
          calls := calls + [DeleteWebhook(hooks[i].id)];
        }
      }
      assert hooks[..|hooks|] == hooks;
    }
    calls := calls + [CreateWebhook(WEBHOOK_URL, WEBHOOK_NAME, WEBHOOK_EVENTS)];
    ok := createStatus == 200 || createStatus == 201;
  }

  /** The ids a list of requests deletes. */
  function DeletedIds(calls: seq<WebhookCall>): (ids: set<int>)
  {
    set c | c in calls && c.DeleteWebhook? :: c.id
  }

  /** No two listed subscriptions share an id. */
  predicate UniqueIds(hooks: seq<Webhook>)
  {
    forall i, j :: 0 <= i < j < |hooks| ==> hooks[i].id != hooks[j].id
  }

  /** Reconciliation asks to delete exactly the listed subscriptions that point at this service;
      the others are left alone. */
  lemma DeletesExactlyOwnSubscriptions(hooks: seq<Webhook>, w: Webhook)
    requires UniqueIds(hooks) && w in hooks
    ensures w.id in DeletedIds(Deletions(hooks)) <==> w.url == WEBHOOK_URL
  {
    var calls := Deletions(hooks);
    if w.url == WEBHOOK_URL {
      assert DeleteWebhook(w.id) in calls;
    }
    if w.id in DeletedIds(calls) {
      var c :| c in calls && c.DeleteWebhook? && c.id == w.id;
      assert Webhook(c.id, WEBHOOK_URL) in hooks;
      var i :| 0 <= i < |hooks| && hooks[i] == w;
      var j :| 0 <= j < |hooks| && hooks[j] == Webhook(c.id, WEBHOOK_URL);
      assert i == j;
    }
  }
}
