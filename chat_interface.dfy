/**
 * The chat screen's state and its handlers: sending a message (begin, reply
 * or failure), starting a new chat, opening a saved chat and deleting one.
 * Clock readings and the reply text are parameters of the handlers.
 */
module ChatInterface {
  import opened ChatTypes
  import opened ChatText
  import opened ChatHistory

  /** The five pieces of screen state, as one value, to say what a handler leaves alone. */
  datatype ScreenState = ScreenState(
    messages: seq<Message>,
    inputValue: string,
    isLoading: bool,
    chatHistory: seq<ChatData>,
    currentChatId: Option<string>)

  /** The user's message for `text` typed and sent at clock reading `now`. */
  function UserMessage(text: string, now: nat): (m: Message)
    ensures m.sender == User && m.content == text && m.timestamp == now
    ensures m.id == DecimalString(now)
  {
    Message(DecimalString(now), text, User, now)
  }

  /** The assistant's message carrying `reply`, received at clock reading `now` (its id is one past the clock). */
  function AssistantMessage(reply: string, now: nat): (m: Message)
    ensures m.sender == Assistant && m.content == reply && m.timestamp == now
    ensures m.id == DecimalString(now + 1) && m.id != DecimalString(now)
  {
    DecimalInjective(now, now + 1);
    Message(DecimalString(now + 1), reply, Assistant, now)
  }

  /** The chat created by the first send of a conversation, at clock reading `now`. */
  function NewChat(text: string, msgs: seq<Message>, now: nat): (c: ChatData)
    ensures c.id == DecimalString(now) && c.messages == msgs
    ensures c.title == Title(text) && |c.title| <= TitleLength + |Ellipsis|
    ensures c.createdAt == now && c.updatedAt == now
  {
    ChatData(DecimalString(now), Title(text), msgs, now, now)
  }

  /** The screen's test `if (currentChatId)`: a null or empty id counts as no current chat. */
  predicate IsSet(id: Option<string>)
  {
    id.Some? && id.value != ""
  }

  /**
   * The saved messages of the current chat, when there is one, are a prefix of
   * the messages on screen.
   */
  ghost predicate ShowsChat(history: seq<ChatData>, current: Option<string>, msgs: seq<Message>)
  {
    current.Some? && HasId(history, current.value) ==> FindChat(history, current.value).value.messages <= msgs
  }

  /** Appending to the screen keeps the saved messages a prefix. */
  lemma ShowsChatAppend(history: seq<ChatData>, current: Option<string>, msgs: seq<Message>, m: Message)
    requires ShowsChat(history, current, msgs)
    ensures ShowsChat(history, current, msgs + [m])
  {
    if current.Some? && HasId(history, current.value) {
      var p := FindChat(history, current.value).value.messages;
      assert (msgs + [m])[..|p|] == msgs[..|p|];
    }
  }

  /** The history to save and the chat id that is current after a completed exchange. */
  datatype Exchange = Exchange(history: seq<ChatData>, current: string)

  /**
   * The history and current chat id after a completed exchange `msgs`: the
   * current chat gets the messages, or, with no current chat, a chat titled
   * after `text` is created in front and becomes current.
   */
  function RecordExchange(history: seq<ChatData>, current: Option<string>, text: string, msgs: seq<Message>, now: nat)
    : (r: Exchange)
    ensures (IsSet(current) ==> HasId(history, current.value)) ==>
              HasId(r.history, r.current) && FindChat(r.history, r.current).value.messages == msgs
    ensures IsSet(current) ==> r.current == current.value && r.history == UpdateChat(history, current.value, msgs, now)
    ensures !IsSet(current) ==> r.current == DecimalString(now) && r.history == [NewChat(text, msgs, now)] + history
    ensures |r.history| == if IsSet(current) then |history| else |history| + 1
  {
    if IsSet(current) then
      var id := current.value;
      UpdateChatKeepsIds(history, id, msgs, now, id);
      assert HasId(history, id) ==> FindChat(UpdateChat(history, id, msgs, now), id).value.messages == msgs by {
        if HasId(history, id) {
          FindAfterUpdate(history, id, msgs, now);
        }
      }
      Exchange(UpdateChat(history, id, msgs, now), id)
    else
      var chat := NewChat(text, msgs, now);
      assert ([chat] + history)[0] == chat;
      Exchange([chat] + history, chat.id)
  }

  /**
   * An empty current id is falsy: the exchange creates a new chat even when an
   * entry with the empty id exists, and that entry is left as it was.
   */
  lemma EmptyIdStartsNewChat(history: seq<ChatData>, text: string, msgs: seq<Message>, now: nat)
    ensures var r := RecordExchange(history, Some(""), text, msgs, now);
            r.current == DecimalString(now) && r.current != "" && r.history[0] == NewChat(text, msgs, now) && r.history[1..] == history
  {
    var r := RecordExchange(history, Some(""), text, msgs, now);
    assert !IsSet(Some(""));
    assert r.history[1..] == history;
  }

  /**
   * The code does not make ids unique; if the clock reading that names a new
   * chat is not already an id of the history, an exchange keeps the ids distinct.
   */
  lemma RecordExchangeKeepsDistinct(history: seq<ChatData>, current: Option<string>, text: string, msgs: seq<Message>, now: nat)
    requires DistinctIds(history)
    requires !IsSet(current) ==> !HasId(history, DecimalString(now))
    ensures DistinctIds(RecordExchange(history, current, text, msgs, now).history)
  {
    if IsSet(current) {
      UpdateChatKeepsIds(history, current.value, msgs, now, current.value);
    } else {
      var updated := RecordExchange(history, current, text, msgs, now).history;
      assert updated[1..] == history;
    }
  }

  class ChatSession {
    var messages: seq<Message>
    var inputValue: string
    var isLoading: bool
    var chatHistory: seq<ChatData>
    var currentChatId: Option<string>

    // What the send handler holds across its wait for the reply: the text as
    // typed (the input box is cleared meanwhile) and the list with the user's message.
    var pendingText: string
    var pendingMessages: seq<Message>

    /** The history held in browser storage; `None` while the storage key is absent. */
    ghost var stored: Option<seq<ChatData>>

    ghost function State(): ScreenState
      reads this
    {
      ScreenState(messages, inputValue, isLoading, chatHistory, currentChatId)
    }

    /** A current chat, when there is one, is an entry of the history. */
    ghost predicate PointsIntoHistory()
      reads this
    {
      currentChatId.Some? ==> HasId(chatHistory, currentChatId.value)
    }

    /**
     * The saved messages of the current chat are a prefix of the messages on
     * screen: the screen runs ahead of the history only by the user messages
     * whose reply failed or is still awaited.
     */
    ghost predicate ShowsCurrentChat()
      reads this
    {
      ShowsChat(chatHistory, currentChatId, messages)
    }

    /** Storage holds exactly the history, or nothing while the history is empty. */
    ghost predicate Persisted()
      reads this
    {
      stored == Some(chatHistory) || (stored == None && chatHistory == [])
    }

    /** While a reply is awaited, the screen shows the sent list ending in the user's non-blank message. */
    ghost predicate AwaitingReply()
      reads this
    {
      isLoading ==>
        inputValue == "" && messages == pendingMessages && pendingMessages != [] &&
        pendingMessages[|pendingMessages| - 1].sender == User &&
        pendingMessages[|pendingMessages| - 1].content == pendingText &&
        !IsBlank(pendingText)
    }

    ghost predicate Valid()
      reads this
    {
      PointsIntoHistory() && ShowsCurrentChat() && Persisted() && AwaitingReply()
    }

    /**
     * Mounting the screen: the initial state, then `loadChatHistory` with
     * `saved`, the parsed content of storage (`None` when the key is absent).
     */
    constructor Mount(saved: Option<seq<ChatData>>)
      ensures Valid() && stored == saved
      ensures !isLoading && inputValue == ""
      ensures chatHistory == if saved.Some? then saved.value else []
      ensures saved.Some? && saved.value != [] ==>
                currentChatId == Some(saved.value[0].id) && messages == saved.value[0].messages
      ensures saved.None? || saved.value == [] ==> currentChatId == None && messages == []
    {
      messages, inputValue, isLoading, chatHistory, currentChatId := [], "", false, [], None;
      pendingText, pendingMessages := "", [];
      stored := saved;
      if saved.Some? {
        chatHistory := saved.value;
        if |saved.value| > 0 {
          currentChatId := Some(saved.value[0].id);
          messages := saved.value[0].messages;
        }
      }
    }

    /** `saveChatHistory`: overwrite storage with the whole list and show it. */
    method Save(updated: seq<ChatData>)
      modifies this
      ensures chatHistory == updated && stored == Some(updated)
      ensures messages == old(messages) && inputValue == old(inputValue) && isLoading == old(isLoading)
      ensures currentChatId == old(currentChatId)
      ensures pendingText == old(pendingText) && pendingMessages == old(pendingMessages)
    {
      stored := Some(updated);
      chatHistory := updated;
    }

    /** The input box's change handler; the box is disabled while a reply is awaited. */
    method SetInput(value: string)
      requires Valid() && !isLoading
      modifies this
      ensures Valid() && stored == old(stored)
      ensures State() == old(State()).(inputValue := value)
    {
      inputValue := value;
    }

    /**
     * The first half of `handleSendMessage`, up to the wait for the reply.
     * A blank input changes nothing; otherwise the user's message is appended,
     * the input is cleared and the screen waits for the reply.
     */
    method BeginSend(now: nat) returns (sent: bool)
      requires Valid() && !isLoading
      modifies this
      ensures Valid() && stored == old(stored)
      ensures sent <==> !IsBlank(old(inputValue))
      ensures !sent ==> State() == old(State())
      ensures sent ==> isLoading && pendingText == old(inputValue)
      ensures sent ==> State() == old(State()).(
                messages := old(messages) + [UserMessage(old(inputValue), now)],
                inputValue := "",
                isLoading := true)
    {
      if IsBlank(inputValue) {
        return false;
      }
      var userMessage := UserMessage(inputValue, now);
      ShowsChatAppend(chatHistory, currentChatId, messages, userMessage);
      pendingText, pendingMessages := inputValue, messages + [userMessage];
      messages, inputValue, isLoading := pendingMessages, "", true;
      sent := true;
    }

    /**
     * The rest of `handleSendMessage` once the reply arrived: append the
     * assistant's message, then update the current chat, or create a chat
     * titled after the sent text and make it current; the wait ends.
     */
    method CompleteSend(reply: string, now: nat)
      requires Valid() && isLoading
      modifies this
      ensures Valid() && !isLoading && stored == Some(chatHistory)
      ensures messages == old(messages) + [AssistantMessage(reply, now)]
      ensures inputValue == old(inputValue)
      ensures IsSet(old(currentChatId)) ==>
                currentChatId == old(currentChatId) &&
                chatHistory == UpdateChat(old(chatHistory), old(currentChatId).value, messages, now)
      ensures !IsSet(old(currentChatId)) ==>
                currentChatId == Some(DecimalString(now)) &&
                chatHistory == [NewChat(old(pendingText), messages, now)] + old(chatHistory)
    {
      var finalMessages := pendingMessages + [AssistantMessage(reply, now)];
      var exchange := RecordExchange(chatHistory, currentChatId, pendingText, finalMessages, now);
      messages, currentChatId := finalMessages, Some(exchange.current);
      Save(exchange.history);
      isLoading := false;
    }

    /** The failure path of `handleSendMessage`: the wait ends, the user's message stays, nothing is saved. */
    method FailSend()
      requires Valid() && isLoading
      modifies this
      ensures Valid() && stored == old(stored)
      ensures State() == old(State()).(isLoading := false)
    {
      isLoading := false;
    }

    /**
     * `handleSendMessage` as a whole: `reply` is the response, or `None` when
     * the call for it failed; `sendAt` and `replyAt` are the clock readings.
     */
    method HandleSendMessage(sendAt: nat, reply: Option<string>, replyAt: nat) returns (sent: bool)
      requires Valid() && !isLoading
      modifies this
      ensures Valid() && !isLoading
      ensures sent <==> !IsBlank(old(inputValue))
      ensures !sent ==> State() == old(State()) && stored == old(stored)
      ensures sent && reply.None? ==>
                State() == old(State()).(messages := old(messages) + [UserMessage(old(inputValue), sendAt)], inputValue := "") &&
                stored == old(stored)
      ensures sent && reply.Some? ==>
                messages == old(messages) + [UserMessage(old(inputValue), sendAt), AssistantMessage(reply.value, replyAt)] &&
                inputValue == "" &&
                currentChatId.Some? &&
                Exchange(chatHistory, currentChatId.value) ==
                  RecordExchange(old(chatHistory), old(currentChatId), old(inputValue), messages, replyAt)
      ensures sent && reply.Some? ==> stored == Some(chatHistory)
    {
      sent := BeginSend(sendAt);
      if sent {
        if reply.Some? {
          CompleteSend(reply.value, replyAt);
        } else {
          FailSend();
        }
      }
    }

    /** `startNewChat`: an empty screen with no current chat; the history stays. */
    method StartNewChat()
      requires Valid() && !isLoading
      modifies this
      ensures Valid() && stored == old(stored)
      ensures State() == old(State()).(messages := [], currentChatId := None)
    {
      messages := [];
      currentChatId := None;
    }

    /** `loadChat`: show the first saved chat with that id; an unknown id changes nothing. */
    method LoadChat(id: string)
      requires Valid() && !isLoading
      modifies this
      ensures Valid() && stored == old(stored)
      ensures !HasId(old(chatHistory), id) ==> State() == old(State())
      ensures HasId(old(chatHistory), id) ==>
                State() == old(State()).(
                  messages := FindChat(old(chatHistory), id).value.messages,
                  currentChatId := Some(id))
    {
      var chat := FindChat(chatHistory, id);
      if chat.Some? {
        messages := chat.value.messages;
        currentChatId := Some(id);
      }
    }

    /**
     * `deleteChat`: drop every entry with that id and save; when it was the
     * current chat, show the first remaining chat, or an empty screen.
     */
    method DeleteChat(id: string)
      requires Valid() && !isLoading
      modifies this
      ensures Valid() && stored == Some(chatHistory)
      ensures chatHistory == RemoveChat(old(chatHistory), id)
      ensures inputValue == old(inputValue) && isLoading == old(isLoading)
      ensures old(currentChatId) != Some(id) ==>
                currentChatId == old(currentChatId) && messages == old(messages)
      ensures old(currentChatId) == Some(id) && chatHistory != [] ==>
                currentChatId == Some(chatHistory[0].id) && messages == chatHistory[0].messages
      ensures old(currentChatId) == Some(id) && chatHistory == [] ==>
                currentChatId == None && messages == []
    {
      var updated := RemoveChat(chatHistory, id);
      if currentChatId.Some? && currentChatId.value != id {
        RemoveChatKeepsOthers(chatHistory, id, currentChatId.value);
        FindAfterRemove(chatHistory, id, currentChatId.value);
      }
      Save(updated);
      if currentChatId == Some(id) {
        if |updated| > 0 {
          currentChatId := Some(updated[0].id);
          messages := updated[0].messages;
        } else {
          currentChatId := None;
          messages := [];
        }
      }
    }
  }
}
