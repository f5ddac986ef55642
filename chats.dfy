/**
 * The Chat collection and the routes POST /save-chat and
 * GET /chat-history/:mobile. Each save stores one new session holding the
 * user's message and the assistant's reply; the history is every session
 * of a mobile number, oldest first, with their message lists joined.
 */
module Chats {
  import opened Wrappers
  import opened JsStrings

  datatype Message = Message(text: string, isUser: bool, timestamp: Instant)

  /** A Chat document; a document without a messages array has `messages == None`. */
  datatype ChatSession = ChatSession(mobile: string, messages: Option<seq<Message>>, createdAt: Instant)

  /** The body of POST /save-chat; an absent or null message is None. */
  datatype SaveChatRequest = SaveChatRequest(mobile: Option<string>, userMessage: Option<Message>, aiMessage: Option<Message>)

  datatype SaveChatReply = ChatSaved(id: nat) | MissingChatFields | SaveChatFailed
  {
    function Status(): nat
    {
      match this
      case ChatSaved(_) => 200
      case MissingChatFields => 400
      case SaveChatFailed => 500
    }
  }

  datatype HistoryReply = History(messages: seq<Message>) | HistoryFailed
  {
    function Status(): nat
    {
      match this
      case History(_) => 200
      case HistoryFailed => 500
    }
  }

  /** The route's check: a truthy mobile number and both messages present. */
  predicate HasRequiredChatFields(req: SaveChatRequest)
  {
    Truthy(req.mobile) && req.userMessage.Some? && req.aiMessage.Some?
  }

  /** The sessions stored for `mobile`, in storage order. */
  function SessionsOf(sessions: seq<ChatSession>, mobile: string): (r: seq<ChatSession>)
    ensures forall i :: 0 <= i < |r| ==> r[i].mobile == mobile && r[i] in sessions
    ensures forall i :: 0 <= i < |sessions| && sessions[i].mobile == mobile ==> sessions[i] in r
    ensures multiset(r) <= multiset(sessions)
    ensures forall x :: multiset(r)[x] == if x.mobile == mobile then multiset(sessions)[x] else 0
    decreases |sessions|
  {
    if sessions == [] then []
    else
      var before := sessions[..|sessions| - 1];
      var last := sessions[|sessions| - 1];
      assert sessions == before + [last];
      SessionsOf(before, mobile) + (if last.mobile == mobile then [last] else [])
  }

  predicate SortedByCreatedAt(s: seq<ChatSession>)
  {
    forall i, j :: 0 <= i < j < |s| ==> s[i].createdAt <= s[j].createdAt
  }

  /** A session created no earlier than every element may follow a sorted list. */
  lemma SortedAppend(sorted: seq<ChatSession>, x: ChatSession)
    requires SortedByCreatedAt(sorted)
    requires forall i :: 0 <= i < |sorted| ==> sorted[i].createdAt <= x.createdAt
    ensures SortedByCreatedAt(sorted + [x])
  {
    var r := sorted + [x];
    forall i, j | 0 <= i < j < |r| ensures r[i].createdAt <= r[j].createdAt {
      assert r[i] == sorted[i];
      if j < |sorted| {
        assert r[j] == sorted[j];
      }
    }
  }

  /** The step of Insert that passes `x` in front of the last session. */
  lemma InsertBeforeLast(init: seq<ChatSession>, last: ChatSession, x: ChatSession, front: seq<ChatSession>)
    requires SortedByCreatedAt(init + [last])
    requires x.createdAt < last.createdAt
    requires SortedByCreatedAt(front)
    requires multiset(front) == multiset(init) + multiset{x}
    requires forall i :: 0 <= i < |front| ==>
      front[i].createdAt <= x.createdAt || (init != [] && front[i].createdAt <= init[|init| - 1].createdAt)
    ensures SortedByCreatedAt(front + [last])
    ensures multiset(front + [last]) == multiset(init + [last]) + multiset{x}
  {
    assert init != [] ==> init[|init| - 1].createdAt <= last.createdAt by {
      if init != [] {
        assert (init + [last])[|init| - 1] == init[|init| - 1];
        assert (init + [last])[|init|] == last;
      }
    }
    SortedAppend(front, last);
  }

  /** Inserts `x` into a sorted list after every session not created later than it. */
  function Insert(sorted: seq<ChatSession>, x: ChatSession): (r: seq<ChatSession>)
    requires SortedByCreatedAt(sorted)
    ensures SortedByCreatedAt(r)
    ensures multiset(r) == multiset(sorted) + multiset{x}
    ensures forall i :: 0 <= i < |r| ==>
      r[i].createdAt <= x.createdAt || (sorted != [] && r[i].createdAt <= sorted[|sorted| - 1].createdAt)
    decreases |sorted|
  {
    if sorted == [] || sorted[|sorted| - 1].createdAt <= x.createdAt then
      assert SortedByCreatedAt(sorted + [x]) by {
        SortedAppend(sorted, x);
      }
      sorted + [x]
    else
      var init := sorted[..|sorted| - 1];
      var last := sorted[|sorted| - 1];
      assert sorted == init + [last];
      var front := Insert(init, x);
      InsertBeforeLast(init, last, x, front);
      front + [last]
  }

  /**
   * `.sort({ createdAt: 1 })`: oldest first; sessions created at the same
   * instant keep their storage order.
   */
  function SortByCreatedAt(s: seq<ChatSession>): (r: seq<ChatSession>)
    ensures SortedByCreatedAt(r)
    ensures multiset(r) == multiset(s)
    decreases |s|
  {
    if s == [] then []
    else
      assert s == s[..|s| - 1] + [s[|s| - 1]];
      Insert(SortByCreatedAt(s[..|s| - 1]), s[|s| - 1])
  }

  /** `Chat.find({ mobile }).sort({ createdAt: 1 })`. */
  function FindSorted(sessions: seq<ChatSession>, mobile: string): (r: seq<ChatSession>)
    ensures SortedByCreatedAt(r)
    ensures multiset(r) == multiset(SessionsOf(sessions, mobile))
    ensures forall i :: 0 <= i < |r| ==> r[i].mobile == mobile
    ensures r == [] <==> forall i :: 0 <= i < |sessions| ==> sessions[i].mobile != mobile
  {
    var found := SessionsOf(sessions, mobile);
    var r := SortByCreatedAt(found);
    assert forall i :: 0 <= i < |r| ==> r[i].mobile == mobile by {
      forall i | 0 <= i < |r| ensures r[i].mobile == mobile {
        assert r[i] in multiset(found);
      }
    }
    assert r == [] <==> forall i :: 0 <= i < |sessions| ==> sessions[i].mobile != mobile by {
      if r == [] {
        assert |found| == |multiset(found)| == |multiset(r)| == 0;
      } else {
        assert r[0] in multiset(found);
      }
    }
    r
  }

  /**
   * The query result holds every stored session of the number exactly as
   * often as it is stored, and no session of another number.
   */
  lemma FindSortedCounts(sessions: seq<ChatSession>, mobile: string, x: ChatSession)
    ensures multiset(FindSorted(sessions, mobile))[x] == if x.mobile == mobile then multiset(sessions)[x] else 0
  {
    var found := SessionsOf(sessions, mobile);
    assert multiset(FindSorted(sessions, mobile))[x] == multiset(found)[x];
  }

  /** The messages a session contributes: none when it has no messages array. */
  function MessagesOf(s: ChatSession): seq<Message>
  {
    match s.messages
    case Some(ms) => ms
    case None => []
  }

  /** The message lists of `sessions` joined in order. */
  function Flatten(sessions: seq<ChatSession>): seq<Message>
    decreases |sessions|
  {
    if sessions == [] then []
    else Flatten(sessions[..|sessions| - 1]) + MessagesOf(sessions[|sessions| - 1])
  }

  /** The history GET /chat-history/:mobile returns. */
  function ChatHistoryOf(sessions: seq<ChatSession>, mobile: string): seq<Message>
  {
    Flatten(FindSorted(sessions, mobile))
  }

  /** A mobile number with no sessions has an empty history. */
  lemma NoSessionsEmptyHistory(sessions: seq<ChatSession>, mobile: string)
    requires forall i :: 0 <= i < |sessions| ==> sessions[i].mobile != mobile
    ensures ChatHistoryOf(sessions, mobile) == []
  {
  }

  /** Taking one more session adds its messages at the end. */
  lemma FlattenStep(sessions: seq<ChatSession>, i: nat)
    requires i < |sessions|
    ensures Flatten(sessions[..i + 1]) == Flatten(sessions[..i]) + MessagesOf(sessions[i])
  {
    assert sessions[..i + 1][..i] == sessions[..i];
  }

  lemma {:induction false} FlattenAppend(s: seq<ChatSession>, t: seq<ChatSession>)
    ensures Flatten(s + t) == Flatten(s) + Flatten(t)
    decreases |t|
  {
    if t == [] {
      assert s + t == s;
    } else {
      var init := t[..|t| - 1];
      assert (s + t)[..|s + t| - 1] == s + init;
      FlattenAppend(s, init);
    }
  }

  /** A bound on every session's creation time survives selecting by number. */
  lemma {:induction false} SessionsOfBounded(sessions: seq<ChatSession>, mobile: string, t: Instant)
    requires forall i :: 0 <= i < |sessions| ==> sessions[i].createdAt <= t
    ensures forall i :: 0 <= i < |SessionsOf(sessions, mobile)| ==> SessionsOf(sessions, mobile)[i].createdAt <= t
    decreases |sessions|
  {
    if sessions != [] {
      SessionsOfBounded(sessions[..|sessions| - 1], mobile, t);
    }
  }

  /** A bound on every session's creation time survives sorting. */
  lemma {:induction false} SortBounded(found: seq<ChatSession>, t: Instant)
    requires forall i :: 0 <= i < |found| ==> found[i].createdAt <= t
    ensures forall i :: 0 <= i < |SortByCreatedAt(found)| ==> SortByCreatedAt(found)[i].createdAt <= t
    decreases |found|
  {
    if found != [] {
      SortBounded(found[..|found| - 1], t);
    }
  }

  lemma SessionsOfAppend(sessions: seq<ChatSession>, s: ChatSession, mobile: string)
    ensures s.mobile == mobile ==> SessionsOf(sessions + [s], mobile) == SessionsOf(sessions, mobile) + [s]
    ensures s.mobile != mobile ==> SessionsOf(sessions + [s], mobile) == SessionsOf(sessions, mobile)
  {
    var all := sessions + [s];
    assert all[..|all| - 1] == sessions;
    assert SessionsOf(sessions, mobile) + [] == SessionsOf(sessions, mobile);
  }

  /** Sorting a list whose last session is the newest keeps that session last. */
  lemma SortAppendLatest(found: seq<ChatSession>, s: ChatSession)
    requires forall i :: 0 <= i < |found| ==> found[i].createdAt <= s.createdAt
    ensures SortByCreatedAt(found + [s]) == SortByCreatedAt(found) + [s]
  {
    var all := found + [s];
    assert all[..|all| - 1] == found;
    SortBounded(found, s.createdAt);
  }

  /** Storing the newest session adds it at the end of its own number's result. */
  lemma FindSortedAppendLatest(sessions: seq<ChatSession>, s: ChatSession)
    requires forall i :: 0 <= i < |sessions| ==> sessions[i].createdAt <= s.createdAt
    ensures FindSorted(sessions + [s], s.mobile) == FindSorted(sessions, s.mobile) + [s]
  {
    SessionsOfAppend(sessions, s, s.mobile);
    SessionsOfBounded(sessions, s.mobile, s.createdAt);
    SortAppendLatest(SessionsOf(sessions, s.mobile), s);
  }

  /**
   * Saving a turn created no earlier than every stored session appends its
   * messages to that mobile number's history and leaves every other
   * number's history as it was.
   */
  lemma SaveExtendsHistory(sessions: seq<ChatSession>, s: ChatSession, mobile: string)
    requires forall i :: 0 <= i < |sessions| ==> sessions[i].createdAt <= s.createdAt
    ensures ChatHistoryOf(sessions + [s], mobile)
         == if s.mobile == mobile then ChatHistoryOf(sessions, mobile) + MessagesOf(s)
            else ChatHistoryOf(sessions, mobile)
  {
    if s.mobile == mobile {
      var sorted := FindSorted(sessions, mobile);
      assert FindSorted(sessions + [s], mobile) == sorted + [s] by {
        FindSortedAppendLatest(sessions, s);
      }
      assert Flatten(sorted + [s]) == Flatten(sorted) + MessagesOf(s) by {
        FlattenAppend(sorted, [s]);
        assert [s][..0] == [];
      }
    } else {
      assert FindSorted(sessions + [s], mobile) == FindSorted(sessions, mobile) by {
        SessionsOfAppend(sessions, s, mobile);
      }
    }
  }

  /** The Chat collection. */
  class ChatStore {
    var sessions: seq<ChatSession>

    constructor ()
      ensures sessions == []
    {
      sessions := [];
    }

    /**
     * POST /save-chat: a request missing a field writes nothing; otherwise
     * one new session holding exactly the two messages, created `now`.
     * The new session's id is its position.
     */
    method SaveChat(req: SaveChatRequest, now: Instant, storageFails: bool) returns (reply: SaveChatReply)
      modifies this
      ensures !HasRequiredChatFields(req) ==> reply == MissingChatFields && sessions == old(sessions)
      ensures HasRequiredChatFields(req) && storageFails ==> reply == SaveChatFailed && sessions == old(sessions)
      ensures HasRequiredChatFields(req) && !storageFails ==>
                reply == ChatSaved(|old(sessions)|)
                && sessions == old(sessions)
                   + [ChatSession(req.mobile.value, Some([req.userMessage.value, req.aiMessage.value]), now)]
    {
      if !Truthy(req.mobile) || req.userMessage.None? || req.aiMessage.None? {
        return MissingChatFields;
      }
      var chatEntry := ChatSession(req.mobile.value, Some([req.userMessage.value, req.aiMessage.value]), now);
      if storageFails {
        return SaveChatFailed;
      }
      reply := ChatSaved(|sessions|);
      sessions := sessions + [chatEntry];
    }

    /**
     * GET /chat-history/:mobile: walks the sessions found for the number,
     * oldest first, and pushes each one's messages onto the result.
     */
    method ChatHistory(mobile: string, storageFails: bool) returns (reply: HistoryReply)
      ensures storageFails ==> reply == HistoryFailed
      ensures !storageFails ==> reply == History(ChatHistoryOf(sessions, mobile))
      ensures !storageFails && (forall i :: 0 <= i < |sessions| ==> sessions[i].mobile != mobile)
              ==> reply == History([])
    {
      if storageFails {
        return HistoryFailed;
      }
      var chatHistory := FindSorted(sessions, mobile);
      var allMessages: seq<Message> := [];
      for i := 0 to |chatHistory|
        invariant allMessages == Flatten(chatHistory[..i])
      {
        FlattenStep(chatHistory, i);
        match chatHistory[i].messages {
          case Some(ms) => allMessages := allMessages + ms;
          case None =>
        }
      }
      assert chatHistory[..|chatHistory|] == chatHistory;
      reply := History(allMessages);
      if forall i :: 0 <= i < |sessions| ==> sessions[i].mobile != mobile {
        NoSessionsEmptyHistory(sessions, mobile);
      }
    }
  }
}
