/**
 * The list transformations the chat screen applies to its saved chats:
 * update-by-id (`map`), delete (`filter`) and lookup (`find`).
 */
module ChatHistory {
  import opened ChatTypes

  /** One entry after a send into it: new messages and a new `updatedAt`, everything else kept. */
  function Touch(chat: ChatData, msgs: seq<Message>, now: int): (r: ChatData)
    ensures r.id == chat.id && r.title == chat.title && r.createdAt == chat.createdAt
    ensures r.messages == msgs && r.updatedAt == now
  {
    chat.(messages := msgs, updatedAt := now)
  }

  /**
   * `history.map(chat => chat.id === id ? { ...chat, messages: msgs, updatedAt: now } : chat)`:
   * the entries carrying the id get the messages and the time, every entry keeps
   * its id, title and creation time, and the list keeps its length and order.
   */
  function UpdateChat(history: seq<ChatData>, id: string, msgs: seq<Message>, now: int): (r: seq<ChatData>)
    ensures |r| == |history|
    ensures forall i :: 0 <= i < |r| ==>
              r[i].id == history[i].id && r[i].title == history[i].title && r[i].createdAt == history[i].createdAt
    ensures forall i :: 0 <= i < |r| && history[i].id == id ==>
              r[i].messages == msgs && r[i].updatedAt == now
    ensures forall i :: 0 <= i < |r| && history[i].id != id ==> r[i] == history[i]
  {
    if history == [] then []
    else
      var rest := UpdateChat(history[1..], id, msgs, now);
      var r := [if history[0].id == id then Touch(history[0], msgs, now) else history[0]] + rest;
      assert forall i :: 1 <= i < |r| ==> r[i] == rest[i - 1];
      r
  }

  /** Updating an id no entry carries leaves the list as it was. */
  lemma {:induction false} UpdateChatAbsent(history: seq<ChatData>, id: string, msgs: seq<Message>, now: int)
    requires !HasId(history, id)
    ensures UpdateChat(history, id, msgs, now) == history
  {
    if history != [] {
      UpdateChatAbsent(history[1..], id, msgs, now);
    }
  }

  /** Updating keeps the set of ids, and so keeps them distinct. */
  lemma {:induction false} UpdateChatKeepsIds(history: seq<ChatData>, id: string, msgs: seq<Message>, now: int, other: string)
    ensures HasId(UpdateChat(history, id, msgs, now), other) <==> HasId(history, other)
    ensures DistinctIds(history) ==> DistinctIds(UpdateChat(history, id, msgs, now))
  {
    if history != [] {
      var r := UpdateChat(history, id, msgs, now);
      assert r[1..] == UpdateChat(history[1..], id, msgs, now);
      UpdateChatKeepsIds(history[1..], id, msgs, now, other);
      UpdateChatKeepsIds(history[1..], id, msgs, now, history[0].id);
    }
  }

  /** `history.filter(chat => chat.id !== id)`. */
  function RemoveChat(history: seq<ChatData>, id: string): (r: seq<ChatData>)
    ensures |r| <= |history|
    ensures !HasId(r, id)
    ensures !HasId(history, id) ==> r == history
  {
    if history == [] then []
    else
      var rest := RemoveChat(history[1..], id);
      if history[0].id == id then rest else [history[0]] + rest
  }

  /** The entries kept are exactly those with another id. */
  lemma {:induction false} RemoveChatMembers(history: seq<ChatData>, id: string, c: ChatData)
    ensures c in RemoveChat(history, id) <==> c in history && c.id != id
  {
    if history != [] {
      RemoveChatMembers(history[1..], id, c);
      assert c in history <==> c == history[0] || c in history[1..];
    }
  }

  /** Deleting one id keeps every other id. */
  lemma {:induction false} RemoveChatKeepsOthers(history: seq<ChatData>, id: string, other: string)
    requires other != id
    ensures HasId(RemoveChat(history, id), other) <==> HasId(history, other)
  {
    if history != [] {
      RemoveChatKeepsOthers(history[1..], id, other);
    }
  }

  /** Filtering distributes over concatenation: the kept entries stay in their relative order. */
  lemma {:induction false} RemoveChatAppend(a: seq<ChatData>, b: seq<ChatData>, id: string)
    ensures RemoveChat(a + b, id) == RemoveChat(a, id) + RemoveChat(b, id)
  {
    if a != [] {
      assert (a + b)[0] == a[0];
      assert (a + b)[1..] == a[1..] + b;
      RemoveChatAppend(a[1..], b, id);
    } else {
      assert a + b == b;
    }
  }

  /** How many entries of the list carry the id. */
  function CountId(history: seq<ChatData>, id: string): (n: nat)
    ensures n <= |history|
    ensures n == 0 <==> !HasId(history, id)
  {
    if history == [] then 0
    else (if history[0].id == id then 1 else 0) + CountId(history[1..], id)
  }

  /** Deleting removes exactly the entries carrying the id. */
  lemma {:induction false} RemoveChatLength(history: seq<ChatData>, id: string)
    ensures |RemoveChat(history, id)| == |history| - CountId(history, id)
  {
    if history != [] {
      RemoveChatLength(history[1..], id);
    }
  }

  /** With distinct ids, deleting an existing id removes exactly one entry. */
  lemma {:induction false} RemoveChatOne(history: seq<ChatData>, id: string)
    requires DistinctIds(history) && HasId(history, id)
    ensures |RemoveChat(history, id)| == |history| - 1
  {
    if history[0].id == id {
      RemoveChatLength(history[1..], id);
    } else {
      RemoveChatOne(history[1..], id);
    }
  }

  /** Deleting keeps the ids distinct. */
  lemma {:induction false} RemoveChatKeepsDistinct(history: seq<ChatData>, id: string)
    requires DistinctIds(history)
    ensures DistinctIds(RemoveChat(history, id))
  {
    if history != [] {
      RemoveChatKeepsDistinct(history[1..], id);
      if history[0].id != id {
        RemoveChatKeepsOthers(history[1..], id, history[0].id);
      }
    }
  }

  /** `history.find(c => c.id === id)`: the first entry carrying the id, if any. */
  function FindChat(history: seq<ChatData>, id: string): (r: Option<ChatData>)
    ensures r.Some? <==> HasId(history, id)
    ensures r.Some? ==> r.value in history && r.value.id == id
  {
    if history == [] then None
    else if history[0].id == id then Some(history[0])
    else FindChat(history[1..], id)
  }

  /** The entry found is the first one carrying the id. */
  lemma {:induction false} FindChatFirst(history: seq<ChatData>, id: string, i: nat)
    requires i < |history| && history[i].id == id
    requires forall j :: 0 <= j < i ==> history[j].id != id
    ensures FindChat(history, id) == Some(history[i])
  {
    if i > 0 {
      FindChatFirst(history[1..], id, i - 1);
    }
  }

  /** Deleting one id does not change what a lookup of another id finds. */
  lemma {:induction false} FindAfterRemove(history: seq<ChatData>, id: string, other: string)
    requires other != id
    ensures FindChat(RemoveChat(history, id), other) == FindChat(history, other)
  {
    if history != [] {
      FindAfterRemove(history[1..], id, other);
    }
  }

  /** After a send into the chat with that id, a lookup finds the new messages. */
  lemma {:induction false} FindAfterUpdate(history: seq<ChatData>, id: string, msgs: seq<Message>, now: int)
    requires HasId(history, id)
    ensures FindChat(UpdateChat(history, id, msgs, now), id).Some?
    ensures FindChat(UpdateChat(history, id, msgs, now), id).value.messages == msgs
  {
    var r := UpdateChat(history, id, msgs, now);
    assert r[1..] == UpdateChat(history[1..], id, msgs, now);
    if history[0].id != id {
      FindAfterUpdate(history[1..], id, msgs, now);
    }
  }
}
