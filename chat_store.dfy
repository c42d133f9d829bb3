// The chat store (src/background/utils/addMessageInStorage.ts): one exchange
// (a user message and an assistant message) is appended to every stored chat
// with the given id, or a new chat is created and made the current one. The
// chrome.storage read-modify-write is one atomic method of a class whose
// fields are the local storage area and the sync entry currentChatListId.
// Each Date.now() reading is taken from a clock parameter: `clock(n)` is the
// value of the n-th reading during the call.

module ChatStorage {
  import opened JsValues

  /** The two roles a chat message can have. */
  datatype Role = User | Assistant

  /** A stored message: `{id, role, content, timestamp}`. */
  datatype StoredMessage = StoredMessage(id: string, role: Role, content: string, timestamp: int)

  /** A stored chat: `{id, name, messages}` and the other fields a chat may
      carry (the page it was started on), which the store passes through. */
  datatype Chat = Chat(id: string, name: string, messages: seq<StoredMessage>,
                       pageUrl: Option<string>, domain: Option<string>)

  /** The `msg-<time>` identifier of a message. */
  function MessageId(time: nat): (id: string)
    ensures "msg-" <= id && IsDigits(id[4..])
  {
    "msg-" + Decimal(time)
  }

  /** Different clock readings give different message ids. */
  lemma MessageIdInjective(t1: nat, t2: nat)
    ensures MessageId(t1) == MessageId(t2) <==> t1 == t2
  {
    if MessageId(t1) == MessageId(t2) {
      assert MessageId(t1)[4..] == Decimal(t1);
      assert MessageId(t2)[4..] == Decimal(t2);
      DecimalRoundTrip(t1);
      DecimalRoundTrip(t2);
    }
  }

  /** The two messages of one exchange, built from the four clock readings
      `base` .. `base + 3` in the order the source takes them. */
  function Exchange(prompt: string, response: string, clock: nat -> nat, base: nat): (ms: seq<StoredMessage>)
    ensures |ms| == 2
    ensures ms[0].id == MessageId(clock(base)) && ms[1].id == MessageId(clock(base + 2) + 1)
    ensures ms[0].role == User && ms[0].content == prompt && ms[0].timestamp == clock(base + 1)
    ensures ms[1].role == Assistant && ms[1].content == response && ms[1].timestamp == clock(base + 3) + 1
  {
    [StoredMessage(MessageId(clock(base)), User, prompt, clock(base + 1)),
     StoredMessage(MessageId(clock(base + 2) + 1), Assistant, response, clock(base + 3) + 1)]
  }

  /** The clock never goes backwards. */
  ghost predicate NonDecreasing(clock: nat -> nat)
  {
    forall i, j :: i <= j ==> clock(i) <= clock(j)
  }

  /** With a clock that never goes backwards, the two messages of an
      exchange get different ids: the second is stamped from a later reading
      plus one. */
  lemma ExchangeIdsDiffer(prompt: string, response: string, clock: nat -> nat, base: nat)
    requires NonDecreasing(clock)
    ensures Exchange(prompt, response, clock, base)[0].id != Exchange(prompt, response, clock, base)[1].id
  {
    assert clock(base) <= clock(base + 2);
    MessageIdInjective(clock(base), clock(base + 2) + 1);
  }

  /** With a clock that never goes backwards, the assistant message is
      stamped strictly later than the user message of the same exchange. */
  lemma AssistantAfterUser(prompt: string, response: string, clock: nat -> nat, base: nat)
    requires NonDecreasing(clock)
    ensures Exchange(prompt, response, clock, base)[0].timestamp <
            Exchange(prompt, response, clock, base)[1].timestamp
  {
    assert clock(base + 1) <= clock(base + 3);
  }

  /** How many chats have the given id. */
  function MatchCount(chats: seq<Chat>, chatListId: string): nat
  {
    if chats == [] then 0
    else MatchCount(chats[..|chats| - 1], chatListId) + (if chats[|chats| - 1].id == chatListId then 1 else 0)
  }

  predicate HasChat(chats: seq<Chat>, chatListId: string)
  {
    exists k :: 0 <= k < |chats| && chats[k].id == chatListId
  }

  lemma {:induction false} MatchCountPositive(chats: seq<Chat>, chatListId: string)
    ensures MatchCount(chats, chatListId) > 0 <==> HasChat(chats, chatListId)
  {
    if chats != [] {
      var init := chats[..|chats| - 1];
      MatchCountPositive(init, chatListId);
      if HasChat(init, chatListId) {
        var k :| 0 <= k < |init| && init[k].id == chatListId;
        assert chats[k].id == chatListId;
      }
      if HasChat(chats, chatListId) && chats[|chats| - 1].id != chatListId {
        var k :| 0 <= k < |chats| && chats[k].id == chatListId;
        assert init[k].id == chatListId;
      }
    }
  }

  /** The `chats.map(...)` step: every chat with the id gets one exchange
      appended, taking the next four clock readings; the others are kept. */
  function AppendToMatches(chats: seq<Chat>, prompt: string, response: string,
                           chatListId: string, clock: nat -> nat): (updated: seq<Chat>)
    ensures |updated| == |chats|
  {
    if chats == [] then []
    else
      var init := chats[..|chats| - 1];
      var chat := chats[|chats| - 1];
      AppendToMatches(init, prompt, response, chatListId, clock) +
      [if chat.id == chatListId
       then chat.(messages := chat.messages +
                    Exchange(prompt, response, clock, 4 * MatchCount(init, chatListId)))
       else chat]
  }

  /** Element by element: a chat with the id keeps its other fields and its
      old messages as a prefix, followed by exactly one exchange; every other
      chat is unchanged; the order of the list is kept. */
  lemma {:induction false} AppendToMatchesAt(chats: seq<Chat>, prompt: string, response: string,
                                             chatListId: string, clock: nat -> nat, k: nat)
    requires k < |chats|
    ensures var updated := AppendToMatches(chats, prompt, response, chatListId, clock);
            if chats[k].id == chatListId then
              updated[k] == chats[k].(messages := chats[k].messages +
                              Exchange(prompt, response, clock, 4 * MatchCount(chats[..k], chatListId)))
            else updated[k] == chats[k]
  {
    var init := chats[..|chats| - 1];
    if k < |chats| - 1 {
      AppendToMatchesAt(init, prompt, response, chatListId, clock, k);
      assert init[..k] == chats[..k];
    } else {
      assert init == chats[..k];
    }
  }

  /** The chat created when no chat has the id. */
  function NewChat(prompt: string, response: string, chatListId: string, clock: nat -> nat): (chat: Chat)
    ensures chat.id == chatListId && chat.name == "Chat " + chatListId
    ensures chat.messages == Exchange(prompt, response, clock, 0)
  {
    Chat(chatListId, "Chat " + chatListId, Exchange(prompt, response, clock, 0), None, None)
  }

  /** The list addMessageInStorage writes back. */
  function AddedExchange(chats: seq<Chat>, prompt: string, response: string,
                         chatListId: string, clock: nat -> nat): (after: seq<Chat>)
    ensures |after| == if HasChat(chats, chatListId) then |chats| else |chats| + 1
  {
    var updated := AppendToMatches(chats, prompt, response, chatListId, clock);
    if HasChat(chats, chatListId) then updated else updated + [NewChat(prompt, response, chatListId, clock)]
  }

  /** When some chat has the id the number of chats is unchanged; otherwise
      the list grows by exactly the new chat, at the end, and the chats
      before it are the old ones. */
  lemma {:induction false} AddedExchangeShape(chats: seq<Chat>, prompt: string, response: string,
                                              chatListId: string, clock: nat -> nat)
    ensures var after := AddedExchange(chats, prompt, response, chatListId, clock);
            if HasChat(chats, chatListId) then |after| == |chats|
            else after == chats + [NewChat(prompt, response, chatListId, clock)]
  {
    if !HasChat(chats, chatListId) {
      var updated := AppendToMatches(chats, prompt, response, chatListId, clock);
      forall k | 0 <= k < |chats| ensures updated[k] == chats[k] {
        AppendToMatchesAt(chats, prompt, response, chatListId, clock, k);
      }
    }
  }

  /** After an append some chat has the id, so the next append with the
      same id extends a chat instead of creating one. */
  lemma AddedExchangeHasChat(chats: seq<Chat>, prompt: string, response: string,
                             chatListId: string, clock: nat -> nat)
    ensures HasChat(AddedExchange(chats, prompt, response, chatListId, clock), chatListId)
  {
    var after := AddedExchange(chats, prompt, response, chatListId, clock);
    if HasChat(chats, chatListId) {
      var k :| 0 <= k < |chats| && chats[k].id == chatListId;
      AppendToMatchesAt(chats, prompt, response, chatListId, clock, k);
      assert after[k].id == chatListId;
    } else {
      assert after[|chats|].id == chatListId;
    }
  }

  /** On an empty store, exactly one chat with the id is created, holding the
      user message and then the assistant message. */
  lemma FirstExchangeCreatesChat(prompt: string, response: string, chatListId: string, clock: nat -> nat)
    ensures var after := AddedExchange([], prompt, response, chatListId, clock);
            |after| == 1 && after[0].id == chatListId &&
            |after[0].messages| == 2 &&
            after[0].messages[0].role == User && after[0].messages[0].content == prompt &&
            after[0].messages[1].role == Assistant && after[0].messages[1].content == response
  {
  }

  /** Two exchanges on the same id, starting from an empty store, leave one
      chat with four messages in call order. */
  lemma TwoExchangesKeepCallOrder(p1: string, r1: string, p2: string, r2: string,
                                  chatListId: string, clock1: nat -> nat, clock2: nat -> nat)
    ensures var after := AddedExchange(AddedExchange([], p1, r1, chatListId, clock1),
                                       p2, r2, chatListId, clock2);
            |after| == 1 && |after[0].messages| == 4 &&
            after[0].messages[0].content == p1 && after[0].messages[1].content == r1 &&
            after[0].messages[2].content == p2 && after[0].messages[3].content == r2 &&
            after[0].messages[0].role == User && after[0].messages[1].role == Assistant &&
            after[0].messages[2].role == User && after[0].messages[3].role == Assistant
  {
    var first := AddedExchange([], p1, r1, chatListId, clock1);
    assert first[0].id == chatListId;
    assert HasChat(first, chatListId);
    AppendToMatchesAt(first, p2, r2, chatListId, clock2, 0);
    assert first[..0] == [];
  }

  /** The local storage area (the chat list lives under `storageKey`) and the
      sync entry `currentChatListId`. */
  class ChatStore {
    const storageKey: string
    var local: map<string, seq<Chat>>
    var currentChatListId: Option<string>

    /** The stored chat list; a missing entry reads as the empty list. */
    function Chats(): seq<Chat>
      reads this
    {
      if storageKey in local then local[storageKey] else []
    }

    constructor (storageKey: string, local: map<string, seq<Chat>>, currentChatListId: Option<string>)
      ensures this.storageKey == storageKey && this.local == local
      ensures this.currentChatListId == currentChatListId
    {
      this.storageKey := storageKey;
      this.local := local;
      this.currentChatListId := currentChatListId;
    }

    /** addMessageInStorage: the whole updated list is written back under the
        storage key in one write, and nothing else in the local area changes;
        currentChatListId is set to the id only when a new chat was created. */
    method AddMessageInStorage(prompt: string, response: string, chatListId: string, clock: nat -> nat)
      modifies this`local, this`currentChatListId
      ensures local == old(local)[storageKey := AddedExchange(old(Chats()), prompt, response, chatListId, clock)]
      ensures Chats() == AddedExchange(old(Chats()), prompt, response, chatListId, clock)
      ensures HasChat(old(Chats()), chatListId) ==> currentChatListId == old(currentChatListId)
      ensures !HasChat(old(Chats()), chatListId) ==> currentChatListId == Some(chatListId)
    {
      var chats := if storageKey in local then local[storageKey] else [];
      var chatFound := false;
      var updatedChats: seq<Chat> := [];
      var reading: nat := 0;
      var i := 0;
      while i < |chats|
        invariant 0 <= i <= |chats|
        invariant updatedChats == AppendToMatches(chats[..i], prompt, response, chatListId, clock)
        invariant reading == 4 * MatchCount(chats[..i], chatListId)
        invariant chatFound == (MatchCount(chats[..i], chatListId) > 0)
      {
        var chat := chats[i];
        assert chats[..i + 1][..i] == chats[..i];
        assert MatchCount(chats[..i + 1], chatListId) ==
               MatchCount(chats[..i], chatListId) + (if chat.id == chatListId then 1 else 0);
        assert AppendToMatches(chats[..i + 1], prompt, response, chatListId, clock) ==
               AppendToMatches(chats[..i], prompt, response, chatListId, clock) +
               [if chat.id == chatListId
                then chat.(messages := chat.messages + Exchange(prompt, response, clock, reading))
                else chat];
        if chat.id == chatListId {
          chatFound := true;
          // The user and assistant message objects, from the next four readings.
          var newMessages := chat.messages + Exchange(prompt, response, clock, reading);
          reading := reading + 4;
          updatedChats := updatedChats + [chat.(messages := newMessages)];
        } else {
          updatedChats := updatedChats + [chat];
        }
        i := i + 1;
      }
      assert chats[..i] == chats;
      MatchCountPositive(chats, chatListId);

      if !chatFound {
        var created := Chat(chatListId, "Chat " + chatListId, Exchange(prompt, response, clock, reading),
                            None, None);
        updatedChats := updatedChats + [created];
        currentChatListId := Some(chatListId);
      }
      assert updatedChats == AddedExchange(chats, prompt, response, chatListId, clock);

      local := local[storageKey := updatedChats];
    }
  }
}
