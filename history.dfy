/**
 * The sidebar's list of past chats (Sidebar.tsx): a state cell that starts
 * empty, is filled with three sample entries when the sidebar mounts, and
 * loses entries when the user deletes them. Deletion is an order-preserving
 * filter on the entry's `id`; `WithoutChat` states it as a pure function and
 * the lemmas below pin down what it removes, what it keeps and in which order.
 */
module History {

  datatype ChatHistory = ChatHistory(id: string, title: string, date: string, preview: string)

  /** The sample history the sidebar loads when it mounts. */
  const MockHistory: seq<ChatHistory> := [
    ChatHistory("1", "Sunset Landscape", "Today", "Generated beautiful sunset over mountains"),
    ChatHistory("2", "Abstract Art", "Yesterday", "Created colorful abstract composition"),
    ChatHistory("3", "Portrait Study", "2 days ago", "AI-generated portrait in Renaissance style")
  ]

  function Ids(history: seq<ChatHistory>): (r: seq<string>)
    ensures |r| == |history| && forall k :: 0 <= k < |r| ==> r[k] == history[k].id
  {
    if history == [] then [] else [history[0].id] + Ids(history[1..])
  }

  /** The sample history holds three entries, with ids "1", "2" and "3" in that order. */
  lemma MockHistoryIds()
    ensures |MockHistory| == 3 && Ids(MockHistory) == ["1", "2", "3"]
  {
  }

  /**
   * `history.filter(chat => chat.id !== id)`: no entry with that id is left,
   * every other entry is, and nothing new appears.
   */
  function WithoutChat(history: seq<ChatHistory>, id: string): (r: seq<ChatHistory>)
    ensures |r| <= |history|
    ensures forall k :: 0 <= k < |r| ==> r[k].id != id
    ensures forall e :: e in r <==> e in history && e.id != id
  {
    if history == [] then []
    else if history[0].id == id then WithoutChat(history[1..], id)
    else [history[0]] + WithoutChat(history[1..], id)
  }

  /** Filtering distributes over concatenation. */
  lemma {:induction false} WithoutChatConcat(a: seq<ChatHistory>, b: seq<ChatHistory>, id: string)
    ensures WithoutChat(a + b, id) == WithoutChat(a, id) + WithoutChat(b, id)
    decreases |a|
  {
    if a != [] {
      assert (a + b)[0] == a[0];
      assert (a + b)[1..] == a[1..] + b;
      WithoutChatConcat(a[1..], b, id);
    } else {
      assert a + b == b;
    }
  }

  /**
   * Position: an entry that survives lands at the index given by the number
   * of survivors before it.
   */
  lemma WithoutChatPosition(history: seq<ChatHistory>, id: string, i: nat)
    requires i < |history| && history[i].id != id
    ensures var p := |WithoutChat(history[..i], id)|;
      p < |WithoutChat(history, id)| && WithoutChat(history, id)[p] == history[i]
  {
    assert history == history[..i] + [history[i]] + history[i + 1..];
    WithoutChatConcat(history[..i] + [history[i]], history[i + 1..], id);
    WithoutChatConcat(history[..i], [history[i]], id);
  }

  /**
   * Order: of two surviving entries, the earlier one keeps the smaller
   * index, so the survivors' relative order is the original one.
   */
  lemma WithoutChatKeepsOrder(history: seq<ChatHistory>, id: string, i: nat, j: nat)
    requires i < j < |history| && history[i].id != id && history[j].id != id
    ensures var r, pi, pj := WithoutChat(history, id), |WithoutChat(history[..i], id)|, |WithoutChat(history[..j], id)|;
      pi < pj < |r| && r[pi] == history[i] && r[pj] == history[j]
  {
    WithoutChatPosition(history, id, i);
    WithoutChatPosition(history, id, j);
    var upToI, upToJ := history[..i], history[..j];
    assert upToJ[..i] == upToI;
    assert upToJ[i] == history[i];
    WithoutChatPosition(upToJ, id, i);
  }

  /** Deleting an id that no entry has leaves the list as it was. */
  lemma {:induction false} WithoutAbsentChat(history: seq<ChatHistory>, id: string)
    requires forall k :: 0 <= k < |history| ==> history[k].id != id
    ensures WithoutChat(history, id) == history
    decreases |history|
  {
    if history != [] {
      WithoutAbsentChat(history[1..], id);
    }
  }

  /** Deleting the same id twice gives the list that deleting it once gives. */
  lemma WithoutChatIdempotent(history: seq<ChatHistory>, id: string)
    ensures WithoutChat(WithoutChat(history, id), id) == WithoutChat(history, id)
  {
  }

  /** The list gets strictly shorter exactly when some entry has the id. */
  lemma {:induction false} WithoutChatShrinksIff(history: seq<ChatHistory>, id: string)
    ensures |WithoutChat(history, id)| < |history| <==> exists k :: 0 <= k < |history| && history[k].id == id
    decreases |history|
  {
    if history != [] {
      WithoutChatShrinksIff(history[1..], id);
      if history[0].id != id {
        forall k | 0 < k < |history| && history[k].id == id
          ensures exists k' :: 0 <= k' < |history[1..]| && history[1..][k'].id == id
        {
          assert history[1..][k - 1] == history[k];
        }
      }
    }
  }

  /** Deletions of two ids can happen in either order with the same result. */
  lemma {:induction false} WithoutChatCommutes(history: seq<ChatHistory>, a: string, b: string)
    ensures WithoutChat(WithoutChat(history, a), b) == WithoutChat(WithoutChat(history, b), a)
    decreases |history|
  {
    if history != [] {
      WithoutChatCommutes(history[1..], a, b);
    }
  }

  /** Deleting "2" from the sample history leaves "1" and "3"; deleting it again changes nothing. */
  lemma DeleteSampleEntry()
    ensures Ids(WithoutChat(MockHistory, "2")) == ["1", "3"]
    ensures WithoutChat(WithoutChat(MockHistory, "2"), "2") == WithoutChat(MockHistory, "2")
  {
  }

  /** The sidebar's state cell `chatHistory`. */
  class Sidebar {
    var chatHistory: seq<ChatHistory>

    /** Mounting: `useState([])`. */
    constructor ()
      ensures chatHistory == []
    {
      chatHistory := [];
    }

    /** The effect that runs once after mounting and loads the sample history. */
    method LoadHistory()
      modifies this
      ensures chatHistory == MockHistory
    {
      chatHistory := MockHistory;
    }

    /** `deleteChat(id)`. */
    method DeleteChat(id: string)
      modifies this
      ensures chatHistory == WithoutChat(old(chatHistory), id)
      ensures forall k :: 0 <= k < |chatHistory| ==> chatHistory[k].id != id
      ensures forall e :: e in old(chatHistory) && e.id != id ==> e in chatHistory
      ensures |chatHistory| <= |old(chatHistory)|
    {
      chatHistory := WithoutChat(chatHistory, id);
    }
  }
}
