/** Client code: the usage scenarios of the chat screen, proved from the handlers' contracts alone. */
module ChatScenarios {
  import opened ChatTypes
  import opened ChatText
  import opened ChatHistory
  import opened ChatInterface

  /** Empty storage, then "Hello" is sent and answered: one chat titled "Hello" holding both messages. */
  method FirstSend(sendAt: nat, reply: string, replyAt: nat)
  {
    var screen := new ChatSession.Mount(None);
    screen.SetInput("Hello");
    assert !IsBlank("Hello") by {
      assert !IsJsWhitespace("Hello"[0]);
    }
    var sent := screen.HandleSendMessage(sendAt, Some(reply), replyAt);
    assert sent;
    assert |screen.chatHistory| == 1;
    assert screen.chatHistory[0].title == "Hello";
    assert screen.messages == [UserMessage("Hello", sendAt), AssistantMessage(reply, replyAt)];
    assert screen.chatHistory[0].messages == screen.messages;
    assert screen.currentChatId == Some(screen.chatHistory[0].id);
    assert screen.inputValue == "" && !screen.isLoading;
  }

  /** A reply that fails leaves the user's message on screen and saves nothing. */
  method FailedReply(sendAt: nat)
  {
    var screen := new ChatSession.Mount(None);
    screen.SetInput("Hi");
    assert !IsBlank("Hi") by {
      assert !IsJsWhitespace("Hi"[0]);
    }
    var sent := screen.HandleSendMessage(sendAt, None, 0);
    assert sent && screen.messages == [UserMessage("Hi", sendAt)];
    assert screen.chatHistory == [] && screen.currentChatId == None && !screen.isLoading;
  }

  /** A blank input is refused and changes nothing. */
  method BlankInput(sendAt: nat, reply: string, replyAt: nat)
  {
    var screen := new ChatSession.Mount(None);
    screen.SetInput(" \t");
    assert IsBlank(" \t") by {
      BlankIffAllWhitespace(" \t");
    }
    var sent := screen.HandleSendMessage(sendAt, Some(reply), replyAt);
    assert !sent && screen.messages == [] && screen.chatHistory == [] && screen.inputValue == " \t";
  }

  /** Stored chats [a, b]: `a` is shown on mount; deleting it leaves [b], which becomes current. */
  method DeleteCurrent(a: ChatData, b: ChatData)
    requires a.id != b.id
  {
    var screen := new ChatSession.Mount(Some([a, b]));
    assert screen.currentChatId == Some(a.id);
    screen.DeleteChat(a.id);
    assert screen.chatHistory == [b] by {
      assert [a, b][1..] == [b];
    }
    assert screen.currentChatId == Some(b.id) && screen.messages == b.messages;
  }
}
