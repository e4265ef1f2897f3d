/** The `chat` slice of the Redux store (src/store/slices/chatSlice.js): the
    message list, a typing flag, and a count of unread messages. */
module ChatSlice {
  import opened Domain

  datatype ChatState = ChatState(messages: seq<ChatMessage>, isTyping: bool, unreadCount: nat)

  const InitialChatState: ChatState := ChatState([], false, 0)

  datatype ChatAction =
    | SetMessages(list: seq<ChatMessage>)
    | AddMessage(message: ChatMessage)
    | ClearMessages
    | SetTyping(typing: bool)
    | MarkAsRead

  /** The slice reducer. Only `addMessage` counts a message as unread, and
      only `markAsRead` lowers the count (to zero). */
  function ChatReduce(s: ChatState, a: ChatAction): (r: ChatState)
    ensures a.AddMessage? ==> r.messages == s.messages + [a.message] && r.unreadCount == s.unreadCount + 1
    ensures a.MarkAsRead? ==> r.unreadCount == 0 && r.messages == s.messages
    ensures a.SetMessages? ==> r.messages == a.list
    ensures a.ClearMessages? ==> r.messages == []
    ensures a.SetTyping? ==> r.isTyping == a.typing
    ensures !a.AddMessage? && !a.MarkAsRead? ==> r.unreadCount == s.unreadCount
    ensures r.unreadCount < s.unreadCount ==> a.MarkAsRead?
    ensures r.isTyping != s.isTyping ==> a.SetTyping?
    ensures r.messages != s.messages ==> a.SetMessages? || a.AddMessage? || a.ClearMessages?
  {
    match a
    case SetMessages(ms) => s.(messages := ms)
    case AddMessage(m) => s.(messages := s.messages + [m], unreadCount := s.unreadCount + 1)
    case ClearMessages => s.(messages := [])
    case SetTyping(b) => s.(isTyping := b)
    case MarkAsRead => s.(unreadCount := 0)
  }

  /** Applies a sequence of actions in order. */
  function ChatRun(s: ChatState, actions: seq<ChatAction>): ChatState
    decreases |actions|
  {
    if actions == [] then s else ChatRun(ChatReduce(s, actions[0]), actions[1..])
  }

  /** Number of `addMessage` actions in the sequence. */
  function AddedCount(actions: seq<ChatAction>): nat {
    if actions == [] then 0 else (if actions[0].AddMessage? then 1 else 0) + AddedCount(actions[1..])
  }

  /** Without `markAsRead`, the unread count after a run of actions is the
      count before it plus one for each message added: it never goes down. */
  lemma {:induction false} UnreadCountsAddedMessages(s: ChatState, actions: seq<ChatAction>)
    requires forall i :: 0 <= i < |actions| ==> !actions[i].MarkAsRead?
    ensures ChatRun(s, actions).unreadCount == s.unreadCount + AddedCount(actions)
    decreases |actions|
  {
    if actions != [] {
      UnreadCountsAddedMessages(ChatReduce(s, actions[0]), actions[1..]);
    }
  }

  /** After `markAsRead` the count is the number of messages added since. */
  lemma {:induction false} UnreadSinceLastRead(s: ChatState, actions: seq<ChatAction>)
    requires forall i :: 0 <= i < |actions| ==> !actions[i].MarkAsRead?
    ensures ChatRun(s, [MarkAsRead] + actions).unreadCount == AddedCount(actions)
  {
    assert ([MarkAsRead] + actions)[1..] == actions;
    UnreadCountsAddedMessages(ChatReduce(s, MarkAsRead), actions);
  }

  /** The slice as the store holds it, updated in place by each reducer. */
  class ChatStore {
    var messages: seq<ChatMessage>
    var isTyping: bool
    var unreadCount: nat

    function State(): ChatState
      reads this
    {
      ChatState(messages, isTyping, unreadCount)
    }

    constructor ()
      ensures State() == InitialChatState
    {
      messages, isTyping, unreadCount := [], false, 0;
    }

    method SetMessages(ms: seq<ChatMessage>)
      modifies this
      ensures State() == ChatReduce(old(State()), ChatAction.SetMessages(ms))
    {
      messages := ms;
    }

    /** `state.messages.push(action.payload)` then `state.unreadCount += 1`. */
    method AddMessage(m: ChatMessage)
      modifies this
      ensures State() == ChatReduce(old(State()), ChatAction.AddMessage(m))
    {
      messages := messages + [m];
      unreadCount := unreadCount + 1;
    }

    method ClearMessages()
      modifies this
      ensures State() == ChatReduce(old(State()), ChatAction.ClearMessages)
    {
      messages := [];
    }

    method SetTyping(b: bool)
      modifies this
      ensures State() == ChatReduce(old(State()), ChatAction.SetTyping(b))
    {
      isTyping := b;
    }

    method MarkAsRead()
      modifies this
      ensures State() == ChatReduce(old(State()), ChatAction.MarkAsRead)
    {
      unreadCount := 0;
    }
  }
}
