/**
 * The inbound webhook handler (`receive_message` and `get_or_create_client`, app.py:55-127).
 *
 * The handler keeps one process-wide set of message ids it has seen. An event that is not an
 * inbox event is ignored, a repeated id is skipped, and a new id is recorded before anything
 * else happens. The sender's phone must be on the allow-list before the provider is asked for
 * a client id; then the assistant is run, polled, and its reply sent back.
 *
 * The provider and the assistant API are not modelled. What they answer during one delivery is
 * an input (`Upstream`), and what the handler asks of them is an output (a list of `Call`s),
 * so that "no request is made" can be stated.
 */
module Relay {
  import opened Wrappers
  import opened Annotations
  import opened Assistant

  const ALLOWED_PHONE_NUMBERS: seq<string> :=
    ["77073200049", "77759596671", "77073352450", "77017054477", "77775846961"]
  const INBOX := "inbox"
  const NO_TEXT := "No text provided"

  /** An inbound event: the JSON body's `message_id`, `hook_type`, `client.phone` and `text`,
      each None when the key is absent. */
  datatype Event = Event(messageId: Option<string>, hookType: Option<string>,
                         phone: Option<string>, text: Option<string>)

  /** The provider's answer to the client-creation request: a new client, the id parsed out of
      the "Client already exist" error, or any other failure. */
  datatype ClientReply = Created(id: int) | AlreadyExists(id: int) | Refused

  /** What the outside world answers during one delivery. */
  datatype Upstream = Upstream(client: ClientReply, statuses: seq<string>, thread: seq<Message>)

  /** A request the handler makes: to the provider (client creation for transport "whatsapp",
      sending a message) or to the assistant API (a new thread with the user's text and a run,
      one status retrieval, listing the thread's messages). */
  datatype Call =
    | CreateClient(phone: string)
    | StartRun(userText: string)
    | RetrieveRun
    | ListMessages
    | SendMessage(text: string, clientId: int)

  /** The handler's answer. `StillPolling`: every observed run status was in progress, so the
      handler has not answered yet. */
  datatype Response = Ignored | Skipped | ClientError | Sent(reply: string) | StillPolling

  /** The set of seen ids after one delivery, the answer, and the requests made. */
  datatype Outcome = Outcome(seen: set<Option<string>>, response: Response, calls: seq<Call>)

  /** A delivery went past the hook-type and duplicate checks. */
  predicate Processed(r: Response)
  {
    !(r.Ignored? || r.Skipped?)
  }

  /** `get_or_create_client`: the client id, or None, and the requests made to find it. */
  function GetOrCreateClient(phone: string, reply: ClientReply): (res: (Option<int>, seq<Call>))
    ensures phone !in ALLOWED_PHONE_NUMBERS ==> res == (None, [])
    ensures phone in ALLOWED_PHONE_NUMBERS ==> res.1 == [CreateClient(phone)]
    ensures res.0.Some? <==> phone in ALLOWED_PHONE_NUMBERS && !reply.Refused?
    ensures res.0.Some? ==> res.0.value == reply.id
  {
    if phone !in ALLOWED_PHONE_NUMBERS then (None, [])
    else
      match reply
      case Created(id) => (Some(id), [CreateClient(phone)])
      case AlreadyExists(id) => (Some(id), [CreateClient(phone)])
      case Refused => (None, [CreateClient(phone)])
  }

  /** Python's `not client_id` for an id that is None or an integer: of these, only None and
      0 are falsy. */
  predicate Falsy(id: Option<int>): (b: bool)
    ensures b <==> id in {None, Some(0)}
  {
    id.None? || id.value == 0
  }

  /** `n` status retrievals. */
  function Retrievals(n: nat): (calls: seq<Call>)
    ensures |calls| == n && forall c :: c in calls ==> c == RetrieveRun
  {
    seq(n, _ => RetrieveRun)
  }

  /** One delivery of `event` to a handler that has seen the ids in `seen`. */
  function Handle(seen: set<Option<string>>, event: Event, up: Upstream): (o: Outcome)
    ensures seen <= o.seen <= seen + {event.messageId}
    ensures Processed(o.response) <==> event.messageId !in seen && event.messageId in o.seen
    ensures !Processed(o.response) ==> o.calls == []
  {
    if event.hookType != Some(INBOX) then Outcome(seen, Ignored, [])
    else if event.messageId in seen then Outcome(seen, Skipped, [])
    else
      var seen' := seen + {event.messageId};
      var phone := event.phone.GetOr("");
      var (clientId, lookup) := GetOrCreateClient(phone, up.client);
      if Falsy(clientId) then Outcome(seen', ClientError, lookup)
      else
        var n := FirstSettled(up.statuses);
        var polled := lookup + [StartRun(event.text.GetOr(NO_TEXT))] + Retrievals(n);
        if n == |up.statuses| then Outcome(seen', StillPolling, polled)
        else if up.statuses[n] == COMPLETED then
          var reply := Reply(up.thread);
          Outcome(seen', Sent(reply), polled + [ListMessages, SendMessage(reply, clientId.value)])
        else Outcome(seen', Sent(FALLBACK), polled)
  }

  /** The handler with its set of seen message ids. */
  class Relay {
    var processed: set<Option<string>>

    constructor ()
      ensures processed == {}
    {
      // The capacity guard of app.py:130-131 is module-level code: it runs once, at import,
      // right after the set is created empty, so it never clears anything.
      processed := {};
    }

    /** `receive_message`. */
    method Receive(event: Event, up: Upstream) returns (response: Response, calls: seq<Call>)
      modifies this
      ensures Outcome(processed, response, calls) == Handle(old(processed), event, up)
      ensures old(processed) <= processed
    {
      if event.hookType != Some(INBOX) {
        return Ignored, [];
      }
      if event.messageId in processed {
        return Skipped, [];
      }
      processed := processed + {event.messageId};

      var phone := event.phone.GetOr("");
      var userText := event.text.GetOr(NO_TEXT);
      var (clientId, lookup) := GetOrCreateClient(phone, up.client);
      calls := lookup;
      if Falsy(clientId) {
        return ClientError, calls;
      }

      calls := calls + [StartRun(userText)];
      var n := Poll(up.statuses);
      calls := calls + Retrievals(n);
      if n == |up.statuses| {
        return StillPolling, calls;
      }

      var reply: string;
      if up.statuses[n] == COMPLETED {
        reply := Reply(up.thread);
        calls := calls + [ListMessages, SendMessage(reply, clientId.value)];
      } else {
        reply := FALLBACK;
      }
      response := Sent(reply);
    }
  }

  // ---------------------------------------------------------------------------------------
  // One delivery

  /** A non-inbox event is ignored: the set is unchanged and no request is made. */
  lemma NonInboxIgnored(seen: set<Option<string>>, event: Event, up: Upstream)
    requires event.hookType != Some(INBOX)
    ensures Handle(seen, event, up) == Outcome(seen, Ignored, [])
  {
  }

  /** An inbox event with a seen id is skipped: the set is unchanged and no request is made. */
  lemma DuplicateSkipped(seen: set<Option<string>>, event: Event, up: Upstream)
    requires event.hookType == Some(INBOX) && event.messageId in seen
    ensures Handle(seen, event, up) == Outcome(seen, Skipped, [])
  {
  }

  /** A new id is recorded whatever happens next, even a client error, so redelivering the same
      event is skipped whatever the outside world answers the second time. */
  lemma RedeliverySkipped(seen: set<Option<string>>, event: Event, first: Upstream, second: Upstream)
    requires event.hookType == Some(INBOX) && event.messageId !in seen
    ensures Handle(seen, event, first).seen == seen + {event.messageId}
    ensures var after := Handle(seen, event, first).seen;
      Handle(after, event, second) == Outcome(after, Skipped, [])
  {
  }

  /** A phone number off the allow-list is an error, with no request to the provider or the
      assistant; the id stays recorded. */
  lemma DeniedPhone(seen: set<Option<string>>, event: Event, up: Upstream)
    requires event.hookType == Some(INBOX) && event.messageId !in seen
    requires event.phone.GetOr("") !in ALLOWED_PHONE_NUMBERS
    ensures Handle(seen, event, up) == Outcome(seen + {event.messageId}, ClientError, [])
  {
  }

  /** A client error stops the handler before the assistant is contacted. */
  lemma ClientErrorBeforeAssistant(seen: set<Option<string>>, event: Event, up: Upstream)
    ensures var o := Handle(seen, event, up);
      o.response == ClientError ==> forall c :: c in o.calls ==> c.CreateClient?
  {
  }

  /** Once the run settles the handler answers "sent": the stripped assistant text when the run
      completed, and the fallback text otherwise. The requests are the client creation, the run
      on the user's text (or "No text provided"), one retrieval per in-progress status, and, only
      for a completed run, the listing of the thread and the reply sent to the resolved client;
      the fallback text is returned but not sent. */
  lemma SettledRunAnswered(seen: set<Option<string>>, event: Event, up: Upstream)
    requires event.hookType == Some(INBOX) && event.messageId !in seen
    requires !Falsy(GetOrCreateClient(event.phone.GetOr(""), up.client).0)
    requires FirstSettled(up.statuses) < |up.statuses|
    ensures var o := Handle(seen, event, up);
      var n := FirstSettled(up.statuses);
      var status := up.statuses[n];
      var phone := event.phone.GetOr("");
      var polled := [CreateClient(phone), StartRun(event.text.GetOr(NO_TEXT))] + Retrievals(n);
      && o.seen == seen + {event.messageId}
      && o.response == Sent(Answer(status, up.thread))
      && o.calls == (if status == COMPLETED
                     then polled + [ListMessages, SendMessage(Reply(up.thread), up.client.id)]
                     else polled)
      && (exists c :: c in o.calls && c.SendMessage?) == (status == COMPLETED)
  {
    var o := Handle(seen, event, up);
    var status := up.statuses[FirstSettled(up.statuses)];
    if status == COMPLETED {
      assert o.calls[|o.calls| - 1].SendMessage?;
    } else {
      forall c | c in o.calls ensures !c.SendMessage? { }
    }
  }

  /** An inbox message "Hello" from an allowed phone, a client created with id 42 and a run that
      completes with the assistant's "Hi there【1†source】": the reply "Hi there" is sent to
      client 42 and returned. */
  lemma HelloExample()
    ensures Handle({}, Event(Some("m1"), Some(INBOX), Some("77073200049"), Some("Hello")),
                   Upstream(Created(42), [COMPLETED],
                            [Message(ASSISTANT_ROLE, "Hi there\U{3010}1\U{2020}source\U{3011}")]))
         == Outcome({Some("m1")}, Sent("Hi there"),
                    [CreateClient("77073200049"), StartRun("Hello"), ListMessages,
                     SendMessage("Hi there", 42)])
  {
    var event := Event(Some("m1"), Some(INBOX), Some("77073200049"), Some("Hello"));
    var thread := [Message(ASSISTANT_ROLE, "Hi there\U{3010}1\U{2020}source\U{3011}")];
    var up := Upstream(Created(42), [COMPLETED], thread);
    assert event.phone.GetOr("") == ALLOWED_PHONE_NUMBERS[0];
    assert GetOrCreateClient(event.phone.GetOr(""), up.client).0 == Some(42);
    assert !InProgress(COMPLETED) && FirstSettled(up.statuses) == 0;
    assert Retrievals(0) == [];
    CitationExample();
    assert Reply(thread) == "Hi there";
    SettledRunAnswered({}, event, up);
    var o := Handle({}, event, up);
    assert o.seen == {Some("m1")};
    assert o.response == Sent("Hi there");
    assert o.calls == [CreateClient("77073200049"), StartRun("Hello")] + []
                      + [ListMessages, SendMessage("Hi there", 42)];
  }

  /** A client id of 0 is falsy in Python: an allowed phone whose client id is 0 gets an error. */
  lemma ZeroClientIdIsError(seen: set<Option<string>>, event: Event, up: Upstream)
    requires event.hookType == Some(INBOX) && event.messageId !in seen
    requires event.phone.GetOr("") in ALLOWED_PHONE_NUMBERS
    requires up.client == Created(0) || up.client == AlreadyExists(0)
    ensures Handle(seen, event, up).response == ClientError
  {
  }

  /** Whenever the client is not resolved (phone off the allow-list, provider refusal, or id 0)
      the handler answers "error" with the id recorded, and the only requests made are those of
      the client lookup: the assistant is not contacted. */
  lemma UnresolvedClientIsError(seen: set<Option<string>>, event: Event, up: Upstream)
    requires event.hookType == Some(INBOX) && event.messageId !in seen
    requires Falsy(GetOrCreateClient(event.phone.GetOr(""), up.client).0)
    ensures Handle(seen, event, up)
         == Outcome(seen + {event.messageId}, ClientError, GetOrCreateClient(event.phone.GetOr(""), up.client).1)
  {
  }

  /** An allowed phone whose creation request the provider refuses gets an error after that one
      request. */
  lemma RefusedClientIsError(seen: set<Option<string>>, event: Event, up: Upstream)
    requires event.hookType == Some(INBOX) && event.messageId !in seen
    requires event.phone.GetOr("") in ALLOWED_PHONE_NUMBERS && up.client == Refused
    ensures Handle(seen, event, up)
         == Outcome(seen + {event.messageId}, ClientError, [CreateClient(event.phone.GetOr(""))])
  {
  }

  // ---------------------------------------------------------------------------------------
  // A series of deliveries

  datatype Delivery = Delivery(event: Event, upstream: Upstream)

  /** The outcomes of delivering `ds` in order to a handler that starts with `seen`. */
  function Replay(seen: set<Option<string>>, ds: seq<Delivery>): (os: seq<Outcome>)
    ensures |os| == |ds|
    decreases |ds|
  {
    if ds == [] then []
    else
      var o := Handle(seen, ds[0].event, ds[0].upstream);
      [o] + Replay(o.seen, ds[1..])
  }

  /** An id already in the set when a series starts is never processed during it. */
  lemma {:induction false} SeenNeverProcessed(seen: set<Option<string>>, ds: seq<Delivery>, j: nat)
    requires j < |ds| && ds[j].event.messageId in seen
    ensures !Processed(Replay(seen, ds)[j].response)
    decreases j
  {
    var o := Handle(seen, ds[0].event, ds[0].upstream);
    if j > 0 {
      assert ds[1..][j - 1] == ds[j];
      SeenNeverProcessed(o.seen, ds[1..], j - 1);
    }
  }

  /** The set's invariant: over any series of deliveries handled one after another, a message
      id is processed at most once. */
  lemma {:induction false} ProcessedAtMostOnce(seen: set<Option<string>>, ds: seq<Delivery>, i: nat, j: nat)
    requires i < j < |ds|
    requires ds[i].event.messageId == ds[j].event.messageId
    requires Processed(Replay(seen, ds)[i].response)
    ensures !Processed(Replay(seen, ds)[j].response)
    decreases i
  {
    var o := Handle(seen, ds[0].event, ds[0].upstream);
    assert ds[1..][j - 1] == ds[j];
    if i == 0 {
      SeenNeverProcessed(o.seen, ds[1..], j - 1);
    } else {
      assert ds[1..][i - 1] == ds[i];
      ProcessedAtMostOnce(o.seen, ds[1..], i - 1, j - 1);
    }
  }

  /** The set only grows: every id the series processed is in it afterwards. */
  lemma {:induction false} ProcessedIdsRetained(seen: set<Option<string>>, ds: seq<Delivery>, i: nat)
    requires i < |ds| && Processed(Replay(seen, ds)[i].response)
    ensures ds[i].event.messageId in FinalSeen(seen, ds)
    decreases i
  {
    var o := Handle(seen, ds[0].event, ds[0].upstream);
    if i > 0 {
      assert ds[1..][i - 1] == ds[i];
      ProcessedIdsRetained(o.seen, ds[1..], i - 1);
    } else {
      SeenRetained(o.seen, ds[1..]);
    }
  }

  /** The set after a series of deliveries. */
  function FinalSeen(seen: set<Option<string>>, ds: seq<Delivery>): (final: set<Option<string>>)
    decreases |ds|
  {
    if ds == [] then seen
    else FinalSeen(Handle(seen, ds[0].event, ds[0].upstream).seen, ds[1..])
  }

  /** FinalSeen is the set of the last outcome of Replay. */
  lemma {:induction false} FinalSeenIsLastOutcome(seen: set<Option<string>>, ds: seq<Delivery>)
    requires ds != []
    ensures FinalSeen(seen, ds) == Replay(seen, ds)[|ds| - 1].seen
    decreases |ds|
  {
    var o := Handle(seen, ds[0].event, ds[0].upstream);
    if |ds| > 1 {
      FinalSeenIsLastOutcome(o.seen, ds[1..]);
    }
  }

  /** Nothing is ever removed from the set. */
  lemma {:induction false} SeenRetained(seen: set<Option<string>>, ds: seq<Delivery>)
    ensures seen <= FinalSeen(seen, ds)
    decreases |ds|
  {
    if ds != [] {
      SeenRetained(Handle(seen, ds[0].event, ds[0].upstream).seen, ds[1..]);
    }
  }
}
