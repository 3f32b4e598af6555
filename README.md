# Chat2Desk ↔ assistant relay: a Dafny model of its core

The repository is one Python file, `app.py`. It is a webhook relay between the Chat2Desk
messaging provider (WhatsApp) and the OpenAI Assistants API. This project models the parts of it
that have behaviour worth stating:

- **Annotation stripping** (`remove_annotations`). The source deletes every `【…】` citation
  span with the regular expression `【.*?】`. The model is the same left-to-right scan
  (`Annotations.RemoveAnnotations`). A match ends at the first `】` after the `【`, and it
  cannot cross a newline, because `.` does not match one. The properties are idempotence, the
  identity on span-free text, deletion only (a subsequence), and that no newline-free span
  survives.
- **Inbound triage** (`receive_message`, `get_or_create_client`). The set of seen message ids
  is the field `processed` of the class `Relay.Relay`. `Receive` is proved against the pure
  function `Relay.Handle`, which gives the new set, the answer and the requests made.
  - An event that is not an inbox event is ignored.
  - A seen id is skipped.
  - A new id is recorded before the client is resolved.
  - A phone number off the allow-list is an error, and no request is made.
  A lemma over any series of deliveries proves the set's invariant: a message id is processed
  at most once.
- **Run polling and the reply** (`Assistant`). `Poll` is the `while` loop. It stops exactly at
  the first status outside `queued`, `in_progress` and `cancelling`. On `completed` the reply is
  the stripped assistant texts joined by single spaces, in list order. Any other status gives
  the fallback text.
- **Webhook registration** (`Webhooks.ManageWebhook`). When the listing succeeds, it deletes
  every subscription that points at the service's URL. Then it creates a new one.

The network is not modelled. What the provider and the assistant API answer is an input:
`Relay.Upstream`, a webhook listing and a status code. What the handler asks of them is an
output: a list of `Relay.Call` or `Webhooks.WebhookCall` values. That way "no request is made"
can be stated. A run is the sequence of statuses the handler reads. The first status comes from
creating the run, and the k-th after it from the k-th retrieval.

Points about the code that the model makes explicit:

- The guard at app.py:130-131 clears the set once it holds more than 1000 ids. It is
  module-level code, so it runs once, at import, while the set is empty, and it never clears
  anything. The set only grows (`Relay.SeenRetained`, `Relay.ProcessedIdsRetained`).
- The pattern is lazy (`.*?`): a match ends at the first `】` after its `【`. It does not cross
  a newline.
- Only a completed run's reply is sent to the chat. On any other final status, the fallback
  text is returned to the webhook caller but not sent (`Relay.SettledRunAnswered`).
- No `await` lies between the duplicate check at app.py:85 and the recording of the id at
  app.py:89. So under asyncio there is no race between them. The model treats each delivery's
  triage as one step, and later steps do not touch the set.
- Stripping runs per message, before the `' '.join`. A `【` that ends one assistant message and
  a `】` that starts the next therefore form a span in the joined reply
  (`Assistant.SpanAcrossMessagesSurvives`).

## Model

| member | source | states |
|---|---|---|
| Annotations.CloseIndex | app.py:51 | Where the lazy `.*?` stops: the first `】` with no newline and no earlier `】` before it. None exactly when every `】` is preceded by a newline. |
| Annotations.RemoveAnnotations | app.py:50-53 | The substitution never makes the text longer. |
| Annotations.NoSpanRemains | app.py:51-52 | No `【…】` span free of newlines remains in the output. |
| Annotations.NoSpanUnchanged | app.py:51-52 | Text without a newline-free `【…】` span is returned unchanged. |
| Annotations.UnchangedIffNoSpan | app.py:50-53 | The text changes if and only if it holds a newline-free `【…】` span. |
| Annotations.Idempotent | app.py:50-53 | Stripping twice gives the same result as stripping once. |
| Annotations.NoOpenUnchanged | app.py:51-52 | Text with no `【` is returned unchanged. |
| Annotations.RemovesOnly | app.py:50-53 | The output is a subsequence of the input: characters are only deleted. |
| Annotations.CloseIndexStopsAtNewline | app.py:51 | A match started before a newline ends where it would without the text after the newline. |
| Annotations.NewlineSeparates | app.py:51-52 | No match crosses a newline: the text on each side of it is stripped on its own. |
| Annotations.PlainPrefixKept | app.py:51-52 | Text with no `【` is kept as it is, whatever follows it. |
| Annotations.SpanDeleted | app.py:51-52 | A `【`, a body without `】` or newline, and a `】` are deleted together. The rest is stripped on its own. |
| Annotations.CitationRemoved | app.py:50-53 | "Hi there【1†source】" becomes "Hi there". |
| Assistant.InProgress | app.py:105 | True exactly for "queued", "in_progress" and "cancelling". |
| Assistant.FirstSettled | app.py:105-107 | The number of retrievals before a status outside queued/in_progress/cancelling is read. Every earlier status is in progress. |
| Assistant.Poll | app.py:104-107 | The loop stops exactly at the first status that is not in progress. It equals FirstSettled. |
| Assistant.AssistantTexts | app.py:111 | The comprehension gives exactly one stripped text per assistant message, in list order, and none for other roles (with AssistantMessageKept, AssistantTextsAppend and OtherRolesIgnored). No text it yields holds a newline-free span. |
| Assistant.JoinWithSpace | app.py:111 | `' '.join`: empty for no parts. Otherwise it starts with the first part, and its length is the parts' total plus one separator between each pair. |
| Assistant.Reply | app.py:111 | `assistant_message`: empty when the thread has no assistant message; otherwise it begins with the first assistant message's stripped text. |
| Assistant.Answer | app.py:109-125 | Any final status but "completed" gives the fallback text. A completed run gives the reply, which is empty when the thread has no assistant message. |
| Assistant.AssistantTextsAppend | app.py:111 | The comprehension keeps list order: it distributes over concatenation of the message list. |
| Assistant.AssistantMessageKept | app.py:111 | An assistant message contributes exactly its stripped text, even when that text is empty. |
| Assistant.EmptyTextKeepsSeparator | app.py:111 | An assistant message that is all annotation still takes a place in the join: "【x】" then "hi" give " hi". |
| Assistant.OtherRolesIgnored | app.py:111 | Messages of any role but "assistant" contribute nothing. With none, the reply is empty. |
| Assistant.JoinAppend | app.py:111 | Joining two non-empty lists puts exactly one space between their joins. |
| Assistant.ReplyAppend | app.py:111 | The reply of a split thread is the two replies joined by a space. A part with no assistant message contributes nothing. |
| Assistant.SingleAssistantMessage | app.py:109-111 | A user message and one assistant message give the stripped assistant text, in either order. |
| Assistant.CitationExample | app.py:109-111 | A completed run whose one assistant message is "Hi there【1†source】" answers "Hi there". |
| Assistant.SpanAcrossMessagesSurvives | app.py:111 | A span split across two assistant messages survives: the joined reply holds a span. |
| Relay.GetOrCreateClient | app.py:55-71 | A phone off the allow-list gives None with no request. An allowed phone makes one creation request. It gets an id exactly when the provider creates the client or reports it as existing, and that id is the provider's. |
| Relay.Falsy | app.py:96 | `not client_id`: true exactly for None and 0. |
| Relay.Handle | app.py:76-127 | The set only grows, and only by this event's id. A delivery is processed exactly when it records a new id. An ignored or skipped delivery makes no request. |
| Relay.Relay.constructor | app.py:73 | The handler starts with an empty set. The import-time capacity guard clears nothing. |
| Relay.Relay.Receive | app.py:76-127 | The new set, the answer and the requests are those Handle gives for the old set. The set only grows. |
| Relay.NonInboxIgnored | app.py:81-83 | An event whose hook type is not "inbox" is ignored. The set is unchanged and no request is made. |
| Relay.DuplicateSkipped | app.py:85-87 | An inbox event whose id is in the set is skipped. The set is unchanged and no request is made. |
| Relay.RedeliverySkipped | app.py:85-89 | A new id is recorded whatever follows, even a client error. Delivering the same event again is skipped. |
| Relay.DeniedPhone | app.py:89-97 | A phone off the allow-list gives an error with no request, and the id stays recorded. |
| Relay.ClientErrorBeforeAssistant | app.py:95-101 | On a client error the only request made is client creation. The assistant is not contacted. |
| Relay.SettledRunAnswered | app.py:92-127 | Once the run settles, the id is recorded and the answer is "sent" with Answer's text. The requests are: client creation, the run on the user's text (or "No text provided"), one retrieval per in-progress status. Only for a completed run do the thread listing and the reply sent to the resolved client id follow. |
| Relay.HelloExample | app.py:76-127 | Message "Hello" from 77073200049, client created as 42, the run completes with "Hi there【1†source】": the handler sends "Hi there" to client 42 and answers "sent" with "Hi there". |
| Relay.ZeroClientIdIsError | app.py:96-97 | A client id of 0 is falsy, so an allowed phone whose id is 0 gets an error. |
| Relay.UnresolvedClientIsError | app.py:95-97 | Whenever the client is not resolved, the answer is "error" with the id recorded, and the only requests are those of the client lookup: the assistant is not contacted. |
| Relay.RefusedClientIsError | app.py:69-71 | An allowed phone whose creation request the provider refuses gets "error" after that one request. |
| Relay.SeenNeverProcessed | app.py:85-89 | An id already in the set when a series of deliveries starts is never processed during it. |
| Relay.ProcessedAtMostOnce | app.py:73-89 | Over any series of deliveries, each message id is processed at most once. |
| Relay.ProcessedIdsRetained | app.py:89 | Every id a series processed is in the set afterwards. |
| Relay.FinalSeenIsLastOutcome | app.py:89 | The set after a series of deliveries is the set of the series' last outcome. |
| Relay.SeenRetained | app.py:130-131 | Nothing is ever removed from the set. |
| Webhooks.Deletions | app.py:36-39 | Exactly the listed subscriptions with this service's URL get a delete request. |
| Webhooks.ManageWebhook | app.py:29-44 | The requests are: the listing, the deletions when the listing succeeded, then the creation for inbox and outbox. Success means the creation answered 200 or 201. |
| Webhooks.DeletesExactlyOwnSubscriptions | app.py:36-40 | With unique ids, a listed subscription is deleted exactly when it points at this service. |

## Left out

- HTTP traffic is not modelled (httpx requests and their status codes). Outcomes are inputs (`Relay.ClientReply`, the webhook listing, the creation status), and requests are outputs.
- Parsing the "Client already exist" error body (app.py:65-68) is not modelled. It becomes `AlreadyExists(id)`. A body that fails to parse raises in the source, and that path is not modelled.
- The OpenAI thread, message and run calls are not modelled. Their results are data: the run statuses and the thread's messages, in the order the listing returns them.
- A message is only the text of its first content part. A message with no content part, or whose first part is not text, raises in the source; that is not modelled.
- JSON values of unexpected types are not modelled. An absent key is `None`. Also left out: a non-string id, hook type or phone; a `client` that is `null`; and a `text` that is `null`. The source passes a null text to the assistant as None, not as "No text provided".
- Assistant.Poll: the one-second `asyncio.sleep` between retrievals is left out. A run that never settles is not modelled as an endless loop: when the observed statuses run out first, the answer is `StillPolling`.
- Relay.SettledRunAnswered: the outbound message is a request `SendMessage(text, clientId)`. Its status does not affect the answer, so it is not an input. The source puts the text into the URL's query string without encoding. A reply containing `&` or `#` would reach the provider mangled, and that is not modelled.
- Concurrency between deliveries is not modelled. Deliveries are applied one after another. Only the duplicate check and the recording of the id touch the set, and no await lies between them.
- An exception raised by a provider or assistant call is not modelled: an httpx transport error, an OpenAI API error, or a 200 answer without `data.id`. In the source it escapes `receive_message` and the caller gets HTTP 500, after the id was recorded. The model has no outcome for it.
- The `"message"` strings of the ignored, skipped and error answers (app.py:83, 87, 97) are not modelled. Only the status is.
- Logging, FastAPI routing and the startup hook are not modelled, nor are `Env` configuration, the `AsyncOpenAI` client and the `uvicorn` entry point (app.py:1-24, 46-48, 133-135).
