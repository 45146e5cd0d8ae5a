/** The records of the chat application: a message and a saved chat session. */
module ChatTypes {

  /** A value that may be absent; stands for `string | null` and for the `undefined` of `find`. */
  datatype Option<T> = None | Some(value: T)

  /** Who wrote a message. */
  datatype Sender = User | Assistant

  /** One message. Timestamps are instants in milliseconds since the epoch. */
  datatype Message = Message(id: string, content: string, sender: Sender, timestamp: int)

  /** One saved conversation: its messages plus metadata. */
  datatype ChatData = ChatData(
    id: string,
    title: string,
    messages: seq<Message>,
    createdAt: int,
    updatedAt: int)

  /** Some entry of the list carries the id. */
  predicate HasId(history: seq<ChatData>, id: string)
  {
    history != [] && (history[0].id == id || HasId(history[1..], id))
  }

  /** No two entries of the list share an id. The application does not enforce this. */
  predicate DistinctIds(history: seq<ChatData>)
  {
    history == [] || (!HasId(history[1..], history[0].id) && DistinctIds(history[1..]))
  }

  /** `HasId` is membership of the id among the entries' ids. */
  lemma {:induction false} HasIdIff(history: seq<ChatData>, id: string)
    ensures HasId(history, id) <==> exists i :: 0 <= i < |history| && history[i].id == id
  {
    if history != [] {
      HasIdIff(history[1..], id);
      if HasId(history[1..], id) {
        var i :| 0 <= i < |history| - 1 && history[1..][i].id == id;
        assert history[i + 1].id == id;
      }
      if exists i :: 0 <= i < |history| && history[i].id == id {
        var i :| 0 <= i < |history| && history[i].id == id;
        if i > 0 {
          assert history[1..][i - 1].id == id;
        }
      }
    }
  }

  /** `DistinctIds` is pairwise distinctness of the entries' ids. */
  lemma {:induction false} DistinctIdsIff(history: seq<ChatData>)
    ensures DistinctIds(history) <==>
              forall i, j :: 0 <= i < j < |history| ==> history[i].id != history[j].id
  {
    if history != [] {
      var tail := history[1..];
      DistinctIdsIff(tail);
      HasIdIff(tail, history[0].id);
      if DistinctIds(history) {
        forall i, j | 0 <= i < j < |history| ensures history[i].id != history[j].id {
          assert history[j] == tail[j - 1];
          if i > 0 {
            assert history[i] == tail[i - 1];
          }
        }
      }
      if forall i, j :: 0 <= i < j < |history| ==> history[i].id != history[j].id {
        forall i, j | 0 <= i < j < |tail| ensures tail[i].id != tail[j].id {
          assert tail[i] == history[i + 1] && tail[j] == history[j + 1];
        }
        forall k | 0 <= k < |tail| ensures tail[k].id != history[0].id {
          assert tail[k] == history[k + 1];
        }
      }
    }
  }
}
