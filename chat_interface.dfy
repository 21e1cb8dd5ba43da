/** The interview chat: loading the transcript (with duplicate removal and a
    lazily created greeting), the send turn, and ending the interview. The
    interview responder's reply is an input: the text it returned, or None
    when the call failed. */
module ChatInterface {
  import opened Text
  import opened Store

  const Apology := "Sorry, I encountered an error. Please try again."
  const PrefsFirstAlert := "Please complete the allocation preferences step first."
  const EndFailedAlert := "There was an issue ending the interview. Please try again."

  const GreetingRest := ", thank you for taking the time to chat. I'm here to collect your perspective on contributions to the Mother project to help with token allocation. To start, what was your main role or focus area?"

  /** The opening assistant message for a contributor called `name`: it
      addresses the contributor by name. */
  function Greeting(name: string): (m: Message)
    ensures m.role == Assistant
    ensures |m.content| >= 3 + |name| && m.content[3..3 + |name|] == name
  {
    var content := "Hi " + name + GreetingRest;
    assert content[3..3 + |name|] == name;
    Message(Assistant, content)
  }

  /** No two entries agree on both role and content. */
  predicate NoDuplicates(s: seq<Message>) {
    forall i, j :: 0 <= i < j < |s| ==> s[i] != s[j]
  }

  /** The position of the first entry of `s` equal to `m`. */
  function FirstIndex(s: seq<Message>, m: Message): (k: nat)
    requires m in s
    ensures k < |s| && s[k] == m && m !in s[..k]
  {
    if s[0] == m then 0
    else
      var k := 1 + FirstIndex(s[1..], m);
      assert s[..k] == [s[0]] + s[1..][..k - 1];
      k
  }

  /** The duplicate-removal reduce as a specification: walking the history
      from the front, an entry is kept when no kept entry has the same role
      and content. */
  function Dedup(s: seq<Message>): seq<Message> {
    if s == [] then []
    else
      var d := Dedup(s[..|s| - 1]);
      if s[|s| - 1] in d then d else d + [s[|s| - 1]]
  }

  /** Every (role, content) pair of the history survives, and nothing else. */
  lemma {:induction false} DedupMembers(s: seq<Message>)
    ensures forall m :: m in Dedup(s) <==> m in s
  {
    if s != [] {
      var init := s[..|s| - 1];
      DedupMembers(init);
      assert s == init + [s[|s| - 1]];
    }
  }

  /** No two kept entries agree on both role and content. */
  lemma {:induction false} DedupNoDuplicates(s: seq<Message>)
    ensures NoDuplicates(Dedup(s))
  {
    if s != [] {
      DedupNoDuplicates(s[..|s| - 1]);
    }
  }

  /** Extending a history does not move the first occurrence of an entry it
      already held. */
  lemma FirstIndexExtend(s: seq<Message>, x: Message, m: Message)
    requires m in s
    ensures FirstIndex(s + [x], m) == FirstIndex(s, m)
  {
    var k := FirstIndex(s, m);
    assert (s + [x])[..k] == s[..k];
    FirstIndexAt(s + [x], m, k);
  }

  /** The first occurrence is the position holding `m` with no `m` before it. */
  lemma FirstIndexAt(s: seq<Message>, m: Message, k: nat)
    requires k < |s| && s[k] == m && m !in s[..k]
    ensures FirstIndex(s, m) == k
  {
  }

  /** `d` holds entries of `s` in the order of their first occurrences. */
  predicate InFirstOccurrenceOrder(d: seq<Message>, s: seq<Message>) {
    (forall m :: m in d ==> m in s) &&
    (forall a, b :: 0 <= a < b < |d| ==> FirstIndex(s, d[a]) < FirstIndex(s, d[b]))
  }

  /** One step of the walk keeps the order. */
  lemma FirstOccurrenceStep(init: seq<Message>, x: Message, d: seq<Message>)
    requires InFirstOccurrenceOrder(d, init)
    requires forall m :: m in d <==> m in init
    ensures InFirstOccurrenceOrder(if x in d then d else d + [x], init + [x])
  {
    var s := init + [x];
    forall m | m in d
      ensures FirstIndex(s, m) == FirstIndex(init, m) < |init|
    {
      FirstIndexExtend(init, x, m);
    }
    if x !in d {
      assert s[..|init|] == init;
      FirstIndexAt(s, x, |init|);
      AppendLast(s, d, x);
    }
  }

  /** Appending an entry whose first occurrence comes after all of `d`'s. */
  lemma AppendLast(s: seq<Message>, d: seq<Message>, x: Message)
    requires x in s && forall m :: m in d ==> m in s && FirstIndex(s, m) < FirstIndex(s, x)
    requires forall a, b :: 0 <= a < b < |d| ==> FirstIndex(s, d[a]) < FirstIndex(s, d[b])
    ensures InFirstOccurrenceOrder(d + [x], s)
  {
  }

  /** Each kept entry sits at its first occurrence, and the kept entries are
      in the order of those first occurrences. */
  lemma {:induction false} DedupFirstOccurrences(s: seq<Message>)
    ensures InFirstOccurrenceOrder(Dedup(s), s)
  {
    if s != [] {
      var init, x := s[..|s| - 1], s[|s| - 1];
      assert s == init + [x];
      DedupFirstOccurrences(init);
      DedupMembers(init);
      FirstOccurrenceStep(init, x, Dedup(init));
    }
  }

  /** The duplicate-removal reduce over the loaded history, pushing into an
      accumulator: it computes `Dedup`. */
  method RemoveDuplicates(data: seq<Message>) returns (acc: seq<Message>)
    ensures acc == Dedup(data)
  {
    acc := [];
    var i := 0;
    while i < |data|
      invariant 0 <= i <= |data|
      invariant acc == Dedup(data[..i])
    {
      var current := data[i];
      assert data[..i + 1][..i] == data[..i];
      if current !in acc {
        acc := acc + [current];
      }
      i := i + 1;
    }
    assert data[..i] == data;
  }

  /** The chat screen's state for one contributor. */
  class Chat {
    const contributor: Contributor
    var messages: seq<Message>
    var inputValue: string
    var loading: bool
    var isSending: bool
    var isThinking: bool
    var interviewIsFinished: bool
    var evidenceText: string

    constructor (contributor: Contributor)
      ensures this.contributor == contributor && messages == [] && inputValue == ""
      ensures loading && !isSending && !isThinking && !interviewIsFinished && evidenceText == ""
    {
      this.contributor := contributor;
      messages, inputValue, evidenceText := [], "", "";
      loading, isSending, isThinking, interviewIsFinished := true, false, false, false;
    }

    /** `fetchMessages`: `history` is the contributor's stored transcript in
        creation order, or None when the query failed. An empty history gets
        the greeting, stored first and shown only if storing it succeeded. */
    method FetchMessages(db: Database, history: Option<seq<Message>>, insertFails: bool)
      requires db.Valid()
      modifies this`messages, this`loading, db
      ensures db.Valid() && !loading
      ensures history.None? ==> messages == old(messages) && unchanged(db)
      ensures history == Some([]) ==>
                db.journal == old(db.journal) + [InsertMessage(contributor.id, Greeting(contributor.name))] &&
                db.contributors == old(db.contributors) && db.sessions == old(db.sessions) &&
                db.messages == (if insertFails || contributor.id !in old(db.contributors) then old(db.messages)
                                else old(db.messages)[contributor.id := MessagesOf(old(db.messages), contributor.id) +
                                                                        [Greeting(contributor.name)]]) &&
                messages == if insertFails || contributor.id !in old(db.contributors)
                            then old(messages) else [Greeting(contributor.name)]
      ensures history.Some? && history.value != [] ==>
                unchanged(db) && messages == Dedup(history.value)
    {
      loading := true;
      if history.None? {
        loading := false;
        return;
      }
      if history.value == [] {
        var first := Greeting(contributor.name);
        var insertError := db.InsertMessage(contributor.id, first, insertFails);
        if !insertError {
          messages := [first];
        }
      } else {
        messages := RemoveDuplicates(history.value);
      }
      loading := false;
    }

    /** The send button's disabled attribute. */
    predicate SendDisabled()
      reads this
    {
      Trim(inputValue) == "" || isThinking || isSending
    }

    /** The first half of `handleSendMessage`, up to the responder call: the
        guard, then the trimmed user message appended, the input cleared and
        both busy flags raised. Returns the text sent, None when the guard
        stopped the send. */
    method BeginSend() returns (sent: Option<string>)
      modifies this`messages, this`inputValue, this`isSending, this`isThinking
      ensures old(isSending) || Trim(old(inputValue)) == "" ==>
                sent.None? && messages == old(messages) && inputValue == old(inputValue) &&
                isSending == old(isSending) && isThinking == old(isThinking)
      ensures !old(isSending) && Trim(old(inputValue)) != "" ==>
                sent == Some(Trim(old(inputValue))) &&
                messages == old(messages) + [Message(User, Trim(old(inputValue)))] &&
                inputValue == "" && isSending && isThinking
    {
      if isSending {
        return None;
      }
      var trimmedInput := Trim(inputValue);
      if trimmedInput == "" {
        return None;
      }
      isSending := true;
      messages := messages + [Message(User, trimmedInput)];
      inputValue := "";
      isThinking := true;
      sent := Some(trimmedInput);
    }

    /** The second half, once the responder has answered: exactly one
        assistant message (the reply, or the apology when the call failed),
        then both busy flags lowered. */
    method FinishSend(reply: Option<string>)
      modifies this`messages, this`isSending, this`isThinking
      ensures messages == old(messages) + [Message(Assistant, if reply.Some? then reply.value else Apology)]
      ensures !isSending && !isThinking
    {
      if reply.Some? {
        messages := messages + [Message(Assistant, reply.value)];
      } else {
        messages := messages + [Message(Assistant, Apology)];
      }
      isThinking := false;
      isSending := false;
    }

    /** A whole send turn: nothing happens when the guard stops it; otherwise
        the transcript grows by the user message and one assistant message. */
    method SendMessage(reply: Option<string>) returns (sent: Option<string>)
      modifies this`messages, this`inputValue, this`isSending, this`isThinking
      ensures old(isSending) || Trim(old(inputValue)) == "" ==>
                sent.None? && messages == old(messages) && inputValue == old(inputValue) &&
                isSending == old(isSending) && isThinking == old(isThinking)
      ensures !old(isSending) && Trim(old(inputValue)) != "" ==>
                sent == Some(Trim(old(inputValue))) && inputValue == "" &&
                messages == old(messages) + [Message(User, Trim(old(inputValue))),
                                             Message(Assistant, if reply.Some? then reply.value else Apology)] &&
                !isSending && !isThinking
    {
      sent := BeginSend();
      if sent.Some? {
        FinishSend(reply);
      }
    }

    /** `handleEndInterview`: refused with an alert before the preferences
        were submitted, abandoned when the confirmation is declined, otherwise
        the completion columns and the evidence text are written at `now` and
        the interview is finished if the write succeeded. */
    method EndInterview(db: Database, confirmed: bool, now: string, fail: bool) returns (alert: Option<string>)
      requires db.Valid()
      modifies this`isThinking, this`interviewIsFinished, db
      ensures db.Valid()
      ensures !Truthy(contributor.prefsSubmittedAt) ==>
                alert == Some(PrefsFirstAlert) && unchanged(db) && unchanged(this)
      ensures Truthy(contributor.prefsSubmittedAt) && !confirmed ==>
                alert.None? && unchanged(db) && unchanged(this)
      ensures Truthy(contributor.prefsSubmittedAt) && confirmed ==>
                db.journal == old(db.journal) + [UpdateContributor(contributor.id, CompletionPatch(now, evidenceText))] &&
                db.contributors == (if !fail && contributor.id in old(db.contributors)
                                    then old(db.contributors)[contributor.id := Apply(old(db.contributors)[contributor.id], CompletionPatch(now, evidenceText))]
                                    else old(db.contributors)) &&
                db.sessions == old(db.sessions) && db.messages == old(db.messages) &&
                interviewIsFinished == (old(interviewIsFinished) || !fail) &&
                (!fail ==> !InputShown()) &&
                alert == (if fail then Some(EndFailedAlert) else None) &&
                !isThinking
    {
      if !Truthy(contributor.prefsSubmittedAt) {
        return Some(PrefsFirstAlert);
      }
      if !confirmed {
        return None;
      }
      isThinking := true;
      var error := db.Update(contributor.id, CompletionPatch(now, evidenceText), fail);
      if error {
        alert := Some(EndFailedAlert);
      } else {
        alert := None;
        interviewIsFinished := true;
      }
      isThinking := false;
    }

    /** The message input, send button, evidence box and end button are
        rendered only while the interview is not finished. */
    predicate InputShown()
      reads this
    {
      !interviewIsFinished
    }
  }

  /** An enabled send button always starts a send. */
  lemma EnabledSendProceeds(c: Chat)
    requires !c.SendDisabled()
    ensures !c.isSending && Trim(c.inputValue) != ""
  {
  }
}
