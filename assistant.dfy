/**
 * The assistant side of the handler (app.py:104-127): polling a run until it leaves the
 * in-progress statuses, and assembling the reply from the thread's messages.
 *
 * The run API is not modelled; its observable behaviour is supplied as data. A run is seen as
 * the sequence of statuses the handler reads: the first from creating the run, the k-th after
 * that from the k-th retrieval. A message is its role and the text of its first content part.
 */
module Assistant {
  import opened Annotations

  const COMPLETED := "completed"
  const ASSISTANT_ROLE := "assistant"
  const FALLBACK := "Unable to get a response from the assistant."

  datatype Message = Message(role: string, text: string)

  /** The statuses while which the handler keeps polling. */
  predicate InProgress(status: string): (b: bool)
    ensures b <==> status in {"queued", "in_progress", "cancelling"}
  {
    status == "queued" || status == "in_progress" || status == "cancelling"
  }

  /** How many retrievals the handler makes before it reads a status that is not in progress;
      `|statuses|` when every observed status is still in progress. */
  function FirstSettled(statuses: seq<string>): (n: nat)
    ensures n <= |statuses|
    ensures forall k :: 0 <= k < n ==> InProgress(statuses[k])
    ensures n < |statuses| ==> !InProgress(statuses[n])
  {
    if statuses == [] || !InProgress(statuses[0]) then 0
    else 1 + FirstSettled(statuses[1..])
  }

  /** The `while run.status in [...]` loop: one retrieval per iteration. Returns the number of
      retrievals, which is also the index of the status the loop stops at. */
  method Poll(statuses: seq<string>) returns (n: nat)
    ensures n <= |statuses|
    ensures forall k :: 0 <= k < n ==> InProgress(statuses[k])
    ensures n < |statuses| ==> !InProgress(statuses[n])
    ensures n == FirstSettled(statuses)
  {
    n := 0;
    while n < |statuses| && InProgress(statuses[n])
      invariant n <= |statuses|
      invariant forall k :: 0 <= k < n ==> InProgress(statuses[k])
    {
      n := n + 1;
    }
  }

  /** The list comprehension: the stripped text of every assistant message, in list order. */
  function AssistantTexts(messages: seq<Message>): (texts: seq<string>)
    ensures |texts| <= |messages|
    ensures forall t :: t in texts ==> !HasSpan(t)
  {
    if messages == [] then []
    else
      var rest := AssistantTexts(messages[1..]);
      if messages[0].role == ASSISTANT_ROLE then
        NoSpanRemains(messages[0].text);
        [RemoveAnnotations(messages[0].text)] + rest
      else rest
  }

  /** Sum of the lengths of `parts`. */
  function TotalLength(parts: seq<string>): (total: nat)
  {
    if parts == [] then 0 else |parts[0]| + TotalLength(parts[1..])
  }

  /** Python's `' '.join(parts)`. */
  function JoinWithSpace(parts: seq<string>): (r: string)
    ensures parts == [] ==> r == ""
    ensures parts != [] ==> |r| == TotalLength(parts) + |parts| - 1
    ensures parts != [] ==> r[..|parts[0]|] == parts[0]
  {
    if parts == [] then ""
    else if |parts| == 1 then parts[0]
    else parts[0] + " " + JoinWithSpace(parts[1..])
  }

  /** `assistant_message`: the reply sent back when the run completed. It is empty when the
      thread holds no assistant message, and otherwise begins with the first one's stripped
      text. */
  function Reply(messages: seq<Message>): (r: string)
    ensures AssistantTexts(messages) == [] ==> r == ""
    ensures AssistantTexts(messages) != [] ==> AssistantTexts(messages)[0] <= r
  {
    JoinWithSpace(AssistantTexts(messages))
  }

  /** The reply text for the status the polling loop stopped at. A run that failed, expired or
      was cancelled answers the fallback text; a completed run with no assistant message answers
      the empty string. */
  function Answer(status: string, messages: seq<Message>): (r: string)
    ensures status != COMPLETED ==> r == FALLBACK
    ensures status == COMPLETED && AssistantTexts(messages) == [] ==> r == ""
    ensures status == COMPLETED ==> r == Reply(messages)
  {
    if status == COMPLETED then Reply(messages) else FALLBACK
  }

  // ---------------------------------------------------------------------------------------
  // Lemmas

  /** The comprehension keeps list order: it distributes over concatenation. */
  lemma {:induction false} AssistantTextsAppend(a: seq<Message>, b: seq<Message>)
    ensures AssistantTexts(a + b) == AssistantTexts(a) + AssistantTexts(b)
    decreases |a|
  {
    if a == [] {
      assert a + b == b;
    } else {
      assert (a + b)[0] == a[0] && (a + b)[1..] == a[1..] + b;
      AssistantTextsAppend(a[1..], b);
    }
  }

  /** An assistant message contributes exactly its stripped text, even when that is empty.
      With AssistantTextsAppend and OtherRolesIgnored this fixes AssistantTexts on every list. */
  lemma AssistantMessageKept(m: Message)
    requires m.role == ASSISTANT_ROLE
    ensures AssistantTexts([m]) == [RemoveAnnotations(m.text)]
  {
    assert [m][1..] == [];
  }

  /** Messages of other roles contribute nothing. */
  lemma {:induction false} OtherRolesIgnored(messages: seq<Message>)
    requires forall m :: m in messages ==> m.role != ASSISTANT_ROLE
    ensures AssistantTexts(messages) == [] && Reply(messages) == ""
    decreases |messages|
  {
    if messages != [] {
      assert messages[0] in messages;
      OtherRolesIgnored(messages[1..]);
    }
  }

  /** Joining two non-empty lists puts one space between their joins. */
  lemma {:induction false} JoinAppend(xs: seq<string>, ys: seq<string>)
    requires xs != [] && ys != []
    ensures JoinWithSpace(xs + ys) == JoinWithSpace(xs) + " " + JoinWithSpace(ys)
    decreases |xs|
  {
    assert (xs + ys)[0] == xs[0];
    if |xs| == 1 {
      assert (xs + ys)[1..] == ys;
    } else {
      assert (xs + ys)[1..] == xs[1..] + ys;
      JoinAppend(xs[1..], ys);
    }
  }

  /** The reply of a thread split in two: one space separates the parts that have assistant
      text, and a part without any contributes nothing. */
  lemma ReplyAppend(a: seq<Message>, b: seq<Message>)
    ensures AssistantTexts(a) == [] ==> Reply(a + b) == Reply(b)
    ensures AssistantTexts(b) == [] ==> Reply(a + b) == Reply(a)
    ensures AssistantTexts(a) != [] && AssistantTexts(b) != [] ==>
      Reply(a + b) == Reply(a) + " " + Reply(b)
  {
    AssistantTextsAppend(a, b);
    if AssistantTexts(a) != [] && AssistantTexts(b) != [] {
      JoinAppend(AssistantTexts(a), AssistantTexts(b));
    } else {
      assert AssistantTexts(a) == [] ==> AssistantTexts(a + b) == AssistantTexts(b);
      assert AssistantTexts(b) == [] ==> AssistantTexts(a + b) == AssistantTexts(a);
    }
  }

  /** A single assistant message yields its stripped text. */
  lemma SingleAssistantMessage(user: Message, reply: Message)
    requires user.role != ASSISTANT_ROLE && reply.role == ASSISTANT_ROLE
    ensures Reply([user, reply]) == RemoveAnnotations(reply.text)
    ensures Reply([reply, user]) == RemoveAnnotations(reply.text)
  {
    assert [user, reply][1..] == [reply] && [reply, user][1..] == [user];
    assert [reply][1..] == [] && [user][1..] == [];
    assert AssistantTexts([reply]) == [RemoveAnnotations(reply.text)];
    assert AssistantTexts([user]) == [];
    assert AssistantTexts([user, reply]) == [RemoveAnnotations(reply.text)];
    assert AssistantTexts([reply, user]) == [RemoveAnnotations(reply.text)];
  }

  /** An assistant message that is all annotation still contributes an empty text, so the
      reply keeps its separator: "【x】" and "hi" give " hi". */
  lemma EmptyTextKeepsSeparator()
    ensures Reply([Message(ASSISTANT_ROLE, "\U{3010}x\U{3011}"), Message(ASSISTANT_ROLE, "hi")]) == " hi"
  {
    var first := Message(ASSISTANT_ROLE, "\U{3010}x\U{3011}");
    var second := Message(ASSISTANT_ROLE, "hi");
    assert first.text == [OPEN] + "x" + [CLOSE] + [];
    SpanDeleted("x", []);
    NoOpenUnchanged(second.text);
    AssistantMessageKept(first);
    AssistantMessageKept(second);
    AssistantTextsAppend([first], [second]);
    assert [first] + [second] == [first, second];
    assert AssistantTexts([first, second]) == ["", "hi"];
    assert ["", "hi"][1..] == ["hi"];
  }

  /** "Hi there【1†source】" from the assistant is answered as "Hi there". */
  lemma CitationExample()
    ensures Answer(COMPLETED, [Message(ASSISTANT_ROLE, "Hi there\U{3010}1\U{2020}source\U{3011}")])
         == "Hi there"
  {
    CitationRemoved();
  }

  /** Stripping is per message: an opening bracket that ends one assistant message and a
      closing bracket that starts the next survive, and the join makes a span of them. */
  lemma SpanAcrossMessagesSurvives()
    ensures HasSpan(Reply([Message(ASSISTANT_ROLE, "a\U{3010}"), Message(ASSISTANT_ROLE, "\U{3011}b")]))
  {
    var first := Message(ASSISTANT_ROLE, "a\U{3010}");
    var second := Message(ASSISTANT_ROLE, "\U{3011}b");
    assert CloseIndex(first.text[2..]).None?;
    assert RemoveAnnotations(first.text[2..]) == [];
    assert RemoveAnnotations(first.text) == first.text;
    assert RemoveAnnotations(second.text) == second.text;
    ReplyAppend([first], [second]);
    var r := Reply([first, second]);
    assert [first] + [second] == [first, second];
    assert r == "a\U{3010} \U{3011}b";
    assert SpanAt(r, 1, 3);
  }
}
