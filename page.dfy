/**
 * The chat page's component state and the handlers that change it: sending
 * a message and folding the streamed reply into the transcript, starting a
 * new conversation, deleting one, switching between them, and the effect
 * that reloads the displayed transcript from the store.
 *
 * Each handler is a method of `ChatPage` that updates the fields step by
 * step, as the component does; each is specified by a function from the
 * state before to the state after, and the properties of the handlers are
 * stated and proved about those functions.
 */
module Page {
  import opened ChatTypes
  import opened ChatText
  import opened ConversationList

  /** A snapshot of the component state. */
  datatype PageState = PageState(
    conversations: seq<Conversation>,
    activeConvId: Option<int>,
    messages: seq<Message>,
    convMessages: map<int, seq<Message>>,
    input: string,
    isLoading: bool)

  /**
   * What every handler keeps: ids are distinct and positive, exactly the
   * listed conversations have a stored transcript, and a conversation is
   * selected, one from the list, unless the list is empty.
   */
  ghost predicate Valid(s: PageState) {
    && UniqueIds(s.conversations)
    && (forall x :: x in Ids(s.conversations) ==> x >= 1)
    && s.convMessages.Keys == Ids(s.conversations)
    && (s.activeConvId.None? <==> s.conversations == [])
    && (s.activeConvId.Some? ==> s.activeConvId.value in Ids(s.conversations))
  }

  /** The displayed transcript is the selected conversation's stored one. */
  ghost predicate Synced(s: PageState) {
    s.activeConvId.Some? ==> s.messages == Lookup(s.convMessages, s.activeConvId.value)
  }

  /** The state the page mounts with: one empty "New Chat" with id 1, selected. */
  function Initial(): (s: PageState)
    ensures Valid(s) && Synced(s)
  {
    var s := PageState([Conversation(1, NewChatTitle, NewChatTimestamp)], Some(1), [], map[1 := []], "", false);
    assert s.conversations[1..] == [];
    s
  }

  /**
   * The effect that runs after a render in which the selection, the list or
   * the store changed: it reloads the displayed transcript from the store.
   * It touches nothing but the display, restores the sync of a valid state,
   * and leaves a synced state as it is.
   */
  function Effect(s: PageState): (t: PageState)
    ensures t == s.(messages := t.messages)
    ensures Valid(s) ==> Synced(t)
    ensures Synced(s) ==> t == s
  {
    if |s.conversations| > 0 && s.activeConvId.Some? then
      s.(messages := Lookup(s.convMessages, s.activeConvId.value))
    else s
  }

  /** Whether the send handler gets past its guard: the input is not blank and no send is in flight. */
  predicate Accepts(s: PageState) {
    !IsBlank(s.input) && !s.isLoading
  }

  /** The transcript an accepted send works from: the display plus the raw, untrimmed input as a user message. */
  function WithUserMessage(s: PageState): seq<Message> {
    s.messages + [Message(User, s.input)]
  }

  /** Where a send breaks off, if it does. */
  datatype FailPoint =
    | BeforeResponse       // `fetch` rejects, or answers with a non-OK status
    | AfterChunks(k: nat)  // the read that follows the k-th chunk throws

  /** Whether a send with these chunks and this failure point ends in the catch block. */
  predicate Fails(chunks: seq<string>, failure: Option<FailPoint>) {
    match failure
    case None => false
    case Some(BeforeResponse) => true
    case Some(AfterChunks(k)) => k <= |chunks|
  }

  /** How many chunks the read loop folds into the reply before the stream ends or breaks. */
  function ChunksRead(chunks: seq<string>, failure: Option<FailPoint>): (n: nat)
    ensures n <= |chunks|
    ensures !Fails(chunks, failure) ==> n == |chunks|
    ensures failure == Some(BeforeResponse) ==> n == 0
    ensures failure.Some? && failure.value.AfterChunks? && failure.value.k <= |chunks| ==> n == failure.value.k
  {
    match failure
    case None => |chunks|
    case Some(BeforeResponse) => 0
    case Some(AfterChunks(k)) => if k <= |chunks| then k else |chunks|
  }

  /** The transcript once the first `n` chunks have arrived: `sent` and the reply so far. */
  function Partial(sent: seq<Message>, chunks: seq<string>, n: nat): seq<Message>
    requires n <= |chunks|
  {
    sent + [Message(Assistant, Concat(chunks[..n]))]
  }

  /**
   * Streaming never alters the transcript the user's message ended, and
   * each reply so far is a prefix of every later one.
   */
  lemma PartialGrows(sent: seq<Message>, chunks: seq<string>, i: nat, j: nat)
    requires i <= j <= |chunks|
    ensures |Partial(sent, chunks, i)| == |Partial(sent, chunks, j)| == |sent| + 1
    ensures Partial(sent, chunks, i)[..|sent|] == Partial(sent, chunks, j)[..|sent|] == sent
    ensures Partial(sent, chunks, i)[|sent|].role == Partial(sent, chunks, j)[|sent|].role == Assistant
    ensures Partial(sent, chunks, i)[|sent|].content <= Partial(sent, chunks, j)[|sent|].content
  {
    ConcatGrows(chunks, i, j);
  }

  /**
   * The transcript a send leaves displayed, given the transcript `sent` that
   * ends with the user's message: `sent` untouched, then one assistant
   * message — the whole reply, or the fixed error text when the send failed.
   */
  function FinalTranscript(sent: seq<Message>, chunks: seq<string>, failure: Option<FailPoint>): (r: seq<Message>)
    ensures |r| == |sent| + 1 && r[..|sent|] == sent && r[|sent|].role == Assistant
    ensures Fails(chunks, failure) ==> r[|sent|].content == ErrorReply
    ensures !Fails(chunks, failure) ==> r == Partial(sent, chunks, |chunks|)
  {
    if Fails(chunks, failure) then sent + [Message(Assistant, ErrorReply)]
    else (assert chunks[..|chunks|] == chunks; sent + [Message(Assistant, Concat(chunks))])
  }

  /**
   * The transcript a send leaves stored under the send-time id. It differs
   * from the displayed one only when the stream ends without a chunk: the
   * empty assistant placeholder is shown but never stored.
   */
  function StoredTranscript(sent: seq<Message>, chunks: seq<string>, failure: Option<FailPoint>): (r: seq<Message>)
    ensures r == FinalTranscript(sent, chunks, failure) <==> Fails(chunks, failure) || chunks != []
    ensures r != FinalTranscript(sent, chunks, failure) ==> r == sent
  {
    if !Fails(chunks, failure) && chunks == [] then sent else FinalTranscript(sent, chunks, failure)
  }

  /**
   * Writes `transcript` to the display and, when `sendId` is set, under that
   * id in the store; then the effect runs. With the selection equal to
   * `sendId` the effect finds nothing to change.
   */
  function Show(s: PageState, sendId: Option<int>, transcript: seq<Message>): (t: PageState)
    requires s.activeConvId == sendId
    ensures t == s.(messages := transcript,
                    convMessages := if sendId.Some? then s.convMessages[sendId.value := transcript] else s.convMessages)
  {
    Effect(s.(messages := transcript,
              convMessages := if sendId.Some? then s.convMessages[sendId.value := transcript] else s.convMessages))
  }

  /**
   * The synchronous start of an accepted send: the user's message is
   * appended to the display and, with a selection, stored under it; the
   * input is cleared, the in-flight flag raised and the selected
   * conversation retitled from the input.
   */
  function Begin(s: PageState): (t: PageState)
    ensures t.messages == WithUserMessage(s) && t.input == "" && t.isLoading
    ensures t.activeConvId == s.activeConvId
    ensures s.activeConvId.Some? ==>
      && t.conversations == Retitle(s.conversations, s.activeConvId.value, Title(s.input))
      && t.convMessages == s.convMessages[s.activeConvId.value := t.messages]
    ensures s.activeConvId.None? ==> t.conversations == s.conversations && t.convMessages == s.convMessages
  {
    var sent := WithUserMessage(s);
    var t := s.(messages := sent, input := "", isLoading := true);
    if s.activeConvId.Some? then
      var id := s.activeConvId.value;
      Effect(t.(convMessages := s.convMessages[id := sent], conversations := Retitle(s.conversations, id, Title(s.input))))
    else Effect(t)
  }

  /** The start of a send keeps the page's invariant and leaves the display matching the store. */
  lemma BeginKeepsValid(s: PageState)
    requires Valid(s)
    ensures Valid(Begin(s)) && Synced(Begin(s))
  {
  }

  /**
   * The state once `n` chunks have been read: with none, the empty assistant
   * placeholder is displayed (and not stored); after that, the display and
   * the entry under `sendId` both hold the reply so far.
   */
  function Streamed(t: PageState, sent: seq<Message>, sendId: Option<int>, chunks: seq<string>, n: nat): (u: PageState)
    requires t.activeConvId == sendId && n <= |chunks|
    ensures u == t.(messages := u.messages, convMessages := u.convMessages)
    ensures n == 0 ==> u.messages == sent + [Message(Assistant, "")] && u.convMessages == t.convMessages
    ensures n > 0 ==> u.messages == Partial(sent, chunks, n)
    ensures n > 0 ==> u.convMessages == if sendId.Some? then t.convMessages[sendId.value := u.messages] else t.convMessages
  {
    if n == 0 then t.(messages := sent + [Message(Assistant, "")])
    else Show(t, sendId, Partial(sent, chunks, n))
  }

  /**
   * Folding in one more chunk shows the next reply so far: the display and
   * the entry under `sendId` are overwritten with it.
   */
  lemma StreamedNext(t: PageState, sent: seq<Message>, sendId: Option<int>, chunks: seq<string>, i: nat)
    requires t.activeConvId == sendId && i < |chunks|
    ensures Concat(chunks[..i + 1]) == Concat(chunks[..i]) + chunks[i]
    ensures Streamed(t, sent, sendId, chunks, i + 1) ==
      Show(Streamed(t, sent, sendId, chunks, i), sendId, Partial(sent, chunks, i + 1))
  {
    assert chunks[..i + 1] == chunks[..i] + [chunks[i]];
    assert [chunks[i]][..0] == [];
    ConcatAppend(chunks[..i], [chunks[i]]);
  }

  /**
   * What an accepted send does after its synchronous start `t`: the read
   * loop up to where the stream ends or breaks, the error message on
   * failure, and the in-flight flag lowered on every exit. The display ends
   * with the final transcript; the entry under `sendId` is overwritten with it
   * unless the stream ended without a chunk.
   */
  function Finish(t: PageState, sent: seq<Message>, sendId: Option<int>, chunks: seq<string>, failure: Option<FailPoint>)
    : (u: PageState)
    requires t.activeConvId == sendId
    ensures u == t.(messages := u.messages, convMessages := u.convMessages, isLoading := false)
    ensures u.messages == FinalTranscript(sent, chunks, failure)
    ensures u.convMessages ==
      if sendId.Some? && (Fails(chunks, failure) || chunks != [])
      then t.convMessages[sendId.value := u.messages] else t.convMessages
  {
    var n := ChunksRead(chunks, failure);
    var read := if failure == Some(BeforeResponse) then t else Streamed(t, sent, sendId, chunks, n);
    var ended := if Fails(chunks, failure) then Show(read, sendId, FinalTranscript(sent, chunks, failure)) else read;
    assert !Fails(chunks, failure) && chunks != [] ==> n == |chunks| > 0;
    ended.(isLoading := false)
  }

  /** The whole send handler: nothing when the guard refuses, else the start and then the rest of the send. */
  function AfterSend(s: PageState, chunks: seq<string>, failure: Option<FailPoint>): (t: PageState)
    ensures !Accepts(s) ==> t == s
    // an accepted send clears the input and the in-flight flag, keeps the selection,
    // and leaves the user's transcript followed by exactly one assistant message
    ensures Accepts(s) ==>
      && t.input == "" && !t.isLoading && t.activeConvId == s.activeConvId
      && t.messages == FinalTranscript(WithUserMessage(s), chunks, failure)
  {
    if !Accepts(s) then s
    else Finish(Begin(s), WithUserMessage(s), s.activeConvId, chunks, failure)
  }

  /** An accepted send retitles the selected conversation from the input, and touches no other entry of the list. */
  lemma SendRetitles(s: PageState, chunks: seq<string>, failure: Option<FailPoint>)
    requires Accepts(s)
    ensures AfterSend(s, chunks, failure).conversations ==
      if s.activeConvId.Some? then Retitle(s.conversations, s.activeConvId.value, Title(s.input)) else s.conversations
  {
    assert AfterSend(s, chunks, failure).conversations == Begin(s).conversations;
  }

  /**
   * With a selection, an accepted send writes only the store entry under
   * it: the final transcript, or the user's transcript alone when the stream
   * ended without a chunk. Without one, the store is untouched.
   */
  lemma SendStores(s: PageState, chunks: seq<string>, failure: Option<FailPoint>)
    requires Accepts(s)
    ensures AfterSend(s, chunks, failure).convMessages ==
      if s.activeConvId.Some?
      then s.convMessages[s.activeConvId.value := StoredTranscript(WithUserMessage(s), chunks, failure)]
      else s.convMessages
  {
    var begun := Begin(s);
    var sent := WithUserMessage(s);
    assert AfterSend(s, chunks, failure) == Finish(begun, sent, s.activeConvId, chunks, failure);
    if s.activeConvId.Some? {
      var id := s.activeConvId.value;
      var final := FinalTranscript(sent, chunks, failure);
      assert s.convMessages[id := sent][id := final] == s.convMessages[id := final];
    }
  }

  /**
   * A send keeps the page's invariant and, once accepted, leaves the display
   * matching the store, except after a stream that brought no chunk.
   */
  lemma SendKeepsValid(s: PageState, chunks: seq<string>, failure: Option<FailPoint>)
    requires Valid(s)
    ensures Valid(AfterSend(s, chunks, failure))
    ensures Accepts(s) ==>
      (Synced(AfterSend(s, chunks, failure)) <==> !(s.activeConvId.Some? && !Fails(chunks, failure) && chunks == []))
  {
    if Accepts(s) {
      BeginKeepsValid(s);
    }
  }

  /**
   * The new-chat handler: the displayed transcript, when non-empty, is saved
   * under the selection; then a fresh "New Chat" goes to the top of the list,
   * selected, with an empty transcript.
   */
  function AfterNewChat(s: PageState): (t: PageState)
    ensures t.activeConvId.Some?
    ensures t.conversations == [Conversation(t.activeConvId.value, NewChatTitle, NewChatTimestamp)] + s.conversations
    // the new id is 1 for an empty list, else the largest id plus one, so it is new
    ensures s.conversations == [] ==> t.activeConvId == Some(1)
    ensures s.conversations != [] ==> t.activeConvId.value - 1 in Ids(s.conversations)
    ensures forall k :: 0 <= k < |s.conversations| ==> s.conversations[k].id < t.activeConvId.value
    ensures t.messages == [] && t.activeConvId.value in t.convMessages && t.convMessages[t.activeConvId.value] == []
    // the old display is saved first when there is one to save; no other entry changes
    ensures forall x :: x in s.convMessages && Some(x) != s.activeConvId && x != t.activeConvId.value ==>
      x in t.convMessages && t.convMessages[x] == s.convMessages[x]
    ensures s.activeConvId.Some? && s.activeConvId != t.activeConvId ==>
      if s.messages != [] then s.activeConvId.value in t.convMessages && t.convMessages[s.activeConvId.value] == s.messages
      else Lookup(t.convMessages, s.activeConvId.value) == Lookup(s.convMessages, s.activeConvId.value)
    ensures t.input == s.input && t.isLoading == s.isLoading
    ensures Valid(s) ==> Valid(t) && Synced(t)
  {
    var store := if s.activeConvId.Some? && |s.messages| > 0
                 then s.convMessages[s.activeConvId.value := s.messages] else s.convMessages;
    var newId := NextId(s.conversations);
    var newConv := Conversation(newId, NewChatTitle, NewChatTimestamp);
    assert ([newConv] + s.conversations)[1..] == s.conversations;
    Effect(s.(conversations := [newConv] + s.conversations, activeConvId := Some(newId),
              messages := [], convMessages := store[newId := []]))
  }

  /**
   * The delete handler: conversation `id` leaves the list and the store; if
   * it was selected, the first conversation left is selected with its
   * stored transcript, or nothing when none is left.
   */
  function AfterDelete(s: PageState, id: int): (t: PageState)
    ensures t.conversations == Without(s.conversations, id)
    ensures t.convMessages == s.convMessages - {id}
    ensures t.input == s.input && t.isLoading == s.isLoading
    ensures s.activeConvId == Some(id) && t.conversations != [] ==>
      t.activeConvId == Some(t.conversations[0].id) && t.messages == Lookup(s.convMessages, t.conversations[0].id)
    ensures s.activeConvId == Some(id) && t.conversations == [] ==> t.activeConvId == None && t.messages == []
    ensures s.activeConvId != Some(id) ==> t.activeConvId == s.activeConvId
    ensures s.activeConvId != Some(id) && Synced(s) ==> t.messages == s.messages
    ensures s.activeConvId.None? ==> t.messages == s.messages
    ensures Valid(s) ==> Valid(t) && Synced(t)
  {
    var remaining := Without(s.conversations, id);
    var removed := s.(conversations := remaining, convMessages := s.convMessages - {id});
    IdsMembers(remaining);
    if s.activeConvId == Some(id) then
      if |remaining| > 0 then
        Effect(removed.(activeConvId := Some(remaining[0].id), messages := Lookup(s.convMessages, remaining[0].id)))
      else Effect(removed.(activeConvId := None, messages := []))
    else Effect(removed)
  }

  /**
   * The switch handler: selects `id` and displays its stored transcript, or
   * nothing if it has none. The effect that follows changes nothing more, so
   * switching again to the same id is idempotent.
   */
  function AfterSwitch(s: PageState, id: int): (t: PageState)
    ensures t == s.(activeConvId := Some(id), messages := Lookup(s.convMessages, id))
    ensures Synced(t)
    ensures Valid(s) && id in Ids(s.conversations) ==> Valid(t)
    ensures s.activeConvId == Some(id) && Synced(s) ==> t == s
  {
    Effect(s.(activeConvId := Some(id), messages := Lookup(s.convMessages, id)))
  }

  /** Deleting the newest conversation frees its id: the next new chat is given the same id again. */
  lemma DeletedIdReused()
    ensures AfterNewChat(Initial()).activeConvId == Some(2)
    ensures AfterNewChat(AfterDelete(AfterNewChat(Initial()), 2)).activeConvId == Some(2)
  {
    var s := AfterNewChat(Initial());
    assert s.conversations == [Conversation(2, NewChatTitle, NewChatTimestamp), Conversation(1, NewChatTitle, NewChatTimestamp)];
    var d := AfterDelete(s, 2);
    assert d.conversations == [Conversation(1, NewChatTitle, NewChatTimestamp)];
  }

  class ChatPage {
    var conversations: seq<Conversation>
    var activeConvId: Option<int>
    var messages: seq<Message>
    var convMessages: map<int, seq<Message>>
    var input: string
    var isLoading: bool

    /** The component state as a value. */
    function State(): PageState
      reads this
    {
      PageState(conversations, activeConvId, messages, convMessages, input, isLoading)
    }

    constructor ()
      ensures State() == Initial()
    {
      conversations := [Conversation(1, NewChatTitle, NewChatTimestamp)];
      activeConvId := Some(1);
      messages := [];
      convMessages := map[1 := []];
      input := "";
      isLoading := false;
    }

    /** The sync effect (the component's only `useEffect`). */
    method SyncEffect()
      modifies this`messages
      ensures State() == Effect(old(State()))
    {
      if |conversations| > 0 && activeConvId.Some? {
        messages := Lookup(convMessages, activeConvId.value);
      }
    }

    /** The input box's change handler. */
    method SetInput(value: string)
      modifies this`input
      ensures State() == old(State()).(input := value)
    {
      input := value;
    }

    /**
     * Sends the typed input and folds the streamed reply into the transcript.
     * `chunks` are the decoded pieces the response delivers in order and
     * `failure` says where, if anywhere, the request breaks. The ghost result
     * records the state after each chunk is folded in.
     */
    method SendMessage(chunks: seq<string>, failure: Option<FailPoint>) returns (ghost trace: seq<PageState>)
      modifies this
      ensures State() == AfterSend(old(State()), chunks, failure)
      ensures |trace| == if Accepts(old(State())) then ChunksRead(chunks, failure) else 0
      ensures forall i :: 0 <= i < |trace| ==>
        trace[i] == Streamed(Begin(old(State())), WithUserMessage(old(State())), old(activeConvId), chunks, i + 1)
    {
      trace := [];
      if Trim(input) == [] || isLoading {
        return;
      }
      var sent, sendId := SaveUserMessage();
      trace := Respond(sent, sendId, chunks, failure);
    }

    /**
     * The try/catch/finally of an accepted send: the read loop when the
     * request got a response, the error transcript when it or a read failed,
     * and the in-flight flag lowered at the end.
     */
    method Respond(sent: seq<Message>, sendId: Option<int>, chunks: seq<string>, failure: Option<FailPoint>)
        returns (ghost trace: seq<PageState>)
      requires activeConvId == sendId
      modifies this`messages, this`convMessages, this`isLoading
      ensures State() == Finish(old(State()), sent, sendId, chunks, failure)
      ensures |trace| == ChunksRead(chunks, failure)
      ensures forall i :: 0 <= i < |trace| ==> trace[i] == Streamed(old(State()), sent, sendId, chunks, i + 1)
    {
      trace := [];
      var failed := failure == Some(BeforeResponse);
      if !failed {
        failed, trace := ReadReply(sent, sendId, chunks, failure);
      }
      if failed {
        var errorMessages := sent + [Message(Assistant, ErrorReply)];
        Display(sendId, errorMessages);
      }
      isLoading := false;
    }

    /** The synchronous start of an accepted send; returns the transcript it stored and the selection the send is keyed by. */
    method SaveUserMessage() returns (sent: seq<Message>, sendId: Option<int>)
      modifies this
      ensures State() == Begin(old(State()))
      ensures sent == WithUserMessage(old(State())) && sendId == old(activeConvId)
    {
      var userMessage := input;
      sent := messages + [Message(User, userMessage)];
      messages := sent;
      input := "";
      isLoading := true;
      // the handler's closure captured the selection of the render it came from
      sendId := activeConvId;
      if sendId.Some? {
        convMessages := convMessages[sendId.value := sent];
        conversations := Retitle(conversations, sendId.value, Title(userMessage));
      }
      SyncEffect();
    }

    /**
     * Shows `transcript` and, when the send had a selection, stores it under
     * that id: what each chunk of the read loop does and what the catch block does.
     */
    method Display(sendId: Option<int>, transcript: seq<Message>)
      requires activeConvId == sendId
      modifies this`messages, this`convMessages
      ensures State() == Show(old(State()), sendId, transcript)
    {
      messages := transcript;
      if sendId.Some? {
        convMessages := convMessages[sendId.value := transcript];
      }
      SyncEffect();
    }

    /**
     * The read loop of a send whose request got a response: shows an empty
     * assistant message, then, chunk by chunk, replaces it with the reply so
     * far and writes that transcript under the send-time id `sendId`. Reports
     * whether a read threw.
     */
    method ReadReply(sent: seq<Message>, sendId: Option<int>, chunks: seq<string>, failure: Option<FailPoint>)
        returns (failed: bool, ghost trace: seq<PageState>)
      requires failure != Some(BeforeResponse) && activeConvId == sendId
      modifies this`messages, this`convMessages
      ensures failed <==> Fails(chunks, failure)
      ensures State() == Streamed(old(State()), sent, sendId, chunks, ChunksRead(chunks, failure))
      ensures |trace| == ChunksRead(chunks, failure)
      ensures forall i :: 0 <= i < |trace| ==> trace[i] == Streamed(old(State()), sent, sendId, chunks, i + 1)
    {
      trace := [];
      failed := false;
      ghost var start := State();
      var aiReply := "";
      messages := sent + [Message(Assistant, aiReply)];
      var i := 0;
      while true
        invariant 0 <= i <= |chunks| && !failed
        invariant failure.Some? && failure.value.AfterChunks? ==> i <= failure.value.k
        invariant aiReply == Concat(chunks[..i])
        invariant State() == Streamed(start, sent, sendId, chunks, i)
        invariant |trace| == i
        invariant forall j :: 0 <= j < i ==> trace[j] == Streamed(start, sent, sendId, chunks, j + 1)
        decreases |chunks| - i
      {
        // the read throws once the failure point is reached
        if failure == Some(AfterChunks(i)) {
          failed := true;
          assert i == ChunksRead(chunks, failure);
          break;
        }
        // the stream is done
        if i == |chunks| {
          assert i == ChunksRead(chunks, failure);
          break;
        }
        StreamedNext(start, sent, sendId, chunks, i);
        aiReply := aiReply + chunks[i];
        var updatedMessages := sent + [Message(Assistant, aiReply)];
        Display(sendId, updatedMessages);
        i := i + 1;
        trace := trace + [State()];
      }
    }

    /** The new-chat handler. */
    method StartNewChat()
      modifies this
      ensures State() == AfterNewChat(old(State()))
    {
      if activeConvId.Some? && |messages| > 0 {
        convMessages := convMessages[activeConvId.value := messages];
      }
      var newId := NextId(conversations);
      var newConv := Conversation(newId, NewChatTitle, NewChatTimestamp);
      conversations := [newConv] + conversations;
      activeConvId := Some(newId);
      messages := [];
      convMessages := convMessages[newId := []];
      SyncEffect();
    }

    /** The delete handler. */
    method DeleteConversation(id: int)
      modifies this
      ensures State() == AfterDelete(old(State()), id)
    {
      var remainingConvs := Without(conversations, id);
      var before := convMessages;
      conversations := remainingConvs;
      convMessages := convMessages - {id};
      if activeConvId == Some(id) {
        if |remainingConvs| > 0 {
          var nextId := remainingConvs[0].id;
          activeConvId := Some(nextId);
          messages := Lookup(before, nextId);
        } else {
          activeConvId := None;
          messages := [];
        }
      }
      SyncEffect();
    }

    /** The switch handler. */
    method SwitchConversation(id: int)
      modifies this
      ensures State() == AfterSwitch(old(State()), id)
    {
      activeConvId := Some(id);
      messages := Lookup(convMessages, id);
      SyncEffect();
    }
  }
}
