/** The direct-messaging page: the conversation list, the message feed of the active
    conversation, the socket events it emits and the HTTP requests it makes. */
module Messages {
  import opened Common
  import opened Text
  import Seqs

  type User = Profile

  // ---------------------------------------------------------------------------
  // Chat ids

  /** `[a, b].sort().join('-')`: the channel of the conversation between `a` and `b`. */
  function ChatId(a: string, b: string): string {
    if LexLe(a, b) then a + "-" + b else b + "-" + a
  }

  /** Both participants derive the same channel, whoever starts the conversation. */
  lemma ChatIdSymmetric(a: string, b: string)
    ensures ChatId(a, b) == ChatId(b, a)
  {
    LexLeTotal(a, b);
    if LexLe(a, b) && LexLe(b, a) {
      LexLeAntisymmetric(a, b);
    }
  }

  /** The channel is the lesser id, a dash, and the greater id. */
  lemma ChatIdSortedJoin(a: string, b: string)
    ensures LexLe(a, b) ==> ChatId(a, b) == a + "-" + b
    ensures LexLe(b, a) ==> ChatId(a, b) == b + "-" + a
  {
    if LexLe(a, b) && LexLe(b, a) {
      LexLeAntisymmetric(a, b);
    }
  }

  /** In `x + "-" + y` with no dash in `x`, the first dash follows `x`. */
  lemma FirstDash(x: string, y: string)
    requires '-' !in x
    ensures (x + "-" + y)[|x|] == '-'
    ensures forall i :: 0 <= i < |x| ==> (x + "-" + y)[i] != '-'
  {
    forall i | 0 <= i < |x| ensures (x + "-" + y)[i] != '-' {
      assert (x + "-" + y)[i] == x[i];
    }
  }

  /** Joining with a dash can be undone when the left part has no dash. */
  lemma DashJoinInjective(x: string, y: string, u: string, v: string)
    requires '-' !in x && '-' !in u
    requires x + "-" + y == u + "-" + v
    ensures x == u && y == v
  {
    var s := x + "-" + y;
    FirstDash(x, y);
    FirstDash(u, v);
    assert |x| == |u|;
    assert x == s[..|x|] == u;
    assert y == s[|x| + 1..] == v;
  }

  /** For ids without dashes, different pairs of participants get different channels. */
  lemma ChatIdInjective(a: string, b: string, c: string, d: string)
    requires '-' !in a && '-' !in b && '-' !in c && '-' !in d
    requires ChatId(a, b) == ChatId(c, d)
    ensures (a == c && b == d) || (a == d && b == c)
  {
    var x, y := if LexLe(a, b) then a else b, if LexLe(a, b) then b else a;
    var u, v := if LexLe(c, d) then c else d, if LexLe(c, d) then d else c;
    DashJoinInjective(x, y, u, v);
  }

  /** Ids that contain a dash can collide: two different pairs, one channel. */
  lemma ChatIdCollidesWithDashes()
    ensures ChatId("a-b", "c") == ChatId("a", "b-c") == "a-b-c"
  {
  }

  // ---------------------------------------------------------------------------
  // Messages, socket events and requests

  /** `_id` of a message: assigned by the server, or `Date.now()` for an optimistic one. */
  datatype MessageKey = ServerKey(key: string) | LocalStamp(stamp: int)

  /** A message of the feed. Optimistic messages carry no `chatId`. */
  datatype Message = Message(chatId: Field, sender: string, content: string, key: MessageKey)

  /** The payload of the `sendMessage` event. */
  datatype Outgoing = Outgoing(chatId: string, sender: string, receiver: string, content: string, imageTrue: bool)

  datatype SocketEvent = JoinChat(chatId: string) | SendMessage(data: Outgoing)

  /** The HTTP requests the page issues, in order. */
  datatype ApiCall = GetChatList | GetProfile(id: string) | FindChats(chatId: string) | AddChat(id: string) | GetUsers

  /** The outcome of `GET /api/chatList`: failure, or a body whose `chatList` may be missing. */
  datatype ChatListResponse = ChatListFailed | ChatListOk(chatList: Option<seq<string>>)

  /** The outcome of `POST /api/findChats`: failure, or a body whose `chats` may be missing. */
  datatype HistoryResponse = HistoryFailed | HistoryOk(chats: Option<seq<Message>>)

  /** The body of `GET /api/users`: an array of users or something else. */
  datatype UsersData = NotAnArray | UserArray(users: seq<User>)

  // ---------------------------------------------------------------------------
  // The inbound `newMessage` rule

  /** `currentChatId`: the active conversation's channel, or `null` without one. */
  function CurrentChatId(me: string, active: Option<User>): Field {
    if active.Some? then Text(ChatId(me, active.value.id)) else Null
  }

  /** A broadcast joins the feed when its `chatId` is strictly the current channel and
      someone other than the current user sent it. */
  predicate Accepts(me: string, active: Option<User>, m: Message) {
    m.chatId == CurrentChatId(me, active) && m.sender != me
  }

  /** The current user's own broadcasts are dropped, whatever their content or channel. */
  lemma OwnBroadcastDropped(me: string, active: Option<User>, m: Message)
    requires m.sender == me
    ensures !Accepts(me, active, m)
  {
  }

  /** With a conversation open, a broadcast for another channel is dropped. */
  lemma ForeignChannelDropped(me: string, u: User, m: Message)
    requires m.chatId != Text(ChatId(me, u.id))
    ensures !Accepts(me, Some(u), m)
  {
  }

  /** A message the counterpart sends on the channel it derives on its side is accepted. */
  lemma CounterpartMessageAccepted(me: string, u: User, m: Message)
    requires m.sender == u.id && u.id != me
    requires m.chatId == Text(ChatId(u.id, me))
    ensures Accepts(me, Some(u), m)
  {
    ChatIdSymmetric(u.id, me);
  }

  /** With no conversation open, `null === null`: a broadcast whose `chatId` is `null`
      from someone else is accepted; one with a string or missing `chatId` is not. */
  lemma IdleAcceptsOnlyNullChannel(me: string, m: Message)
    ensures Accepts(me, None, m) <==> m.chatId == Null && m.sender != me
  {
  }

  // ---------------------------------------------------------------------------
  // Conversation history and directory

  /** `res.data.chats || []`, and `[]` when the request failed. */
  function HistoryFeed(response: HistoryResponse): seq<Message> {
    match response
    case HistoryFailed => []
    case HistoryOk(chats) => chats.GetOr([])
  }

  /** `Promise.all` over the profile requests: one profile per id, in id order, or a
      failure when any single request fails. */
  function ResolveProfiles(ids: seq<string>, profileOf: string -> Option<User>): (r: Option<seq<User>>)
    ensures r.Some? <==> forall i :: 0 <= i < |ids| ==> profileOf(ids[i]).Some?
    ensures r.Some? ==> |r.value| == |ids| && forall i :: 0 <= i < |ids| ==> profileOf(ids[i]) == Some(r.value[i])
  {
    if ids == [] then Some([])
    else
      match (profileOf(ids[0]), ResolveProfiles(ids[1..], profileOf))
      case (Some(u), Some(us)) => Some([u] + us)
      case _ => None
  }

  /** The ids listed by a chat-list response: `res.data.chatList || []`. */
  function ChatListIds(response: ChatListResponse): seq<string> {
    match response
    case ChatListFailed => []
    case ChatListOk(ids) => ids.GetOr([])
  }

  /** The profile requests a chat-list response leads to, one per listed id. */
  function ProfileRequests(response: ChatListResponse): (r: seq<ApiCall>)
    ensures |r| == |ChatListIds(response)|
    ensures forall i :: 0 <= i < |r| ==> r[i] == GetProfile(ChatListIds(response)[i])
  {
    var ids := ChatListIds(response);
    seq(|ids|, i requires 0 <= i < |ids| => GetProfile(ids[i]))
  }

  /** The conversation list after `fetchConversations` completes. */
  function Directory(response: ChatListResponse, profileOf: string -> Option<User>, previous: seq<User>): seq<User> {
    match response
    case ChatListFailed => previous
    case ChatListOk(_) =>
      var ids := ChatListIds(response);
      if |ids| == 0 then []
      else
        match ResolveProfiles(ids, profileOf)
        case None => previous
        case Some(users) => users
  }

  /** `fetchConversations`: an empty id list gives no conversations; otherwise one
      profile per id in id order; on any failure the previous list is kept. */
  lemma DirectoryOutcome(response: ChatListResponse, profileOf: string -> Option<User>, previous: seq<User>)
    ensures response.ChatListFailed? ==> Directory(response, profileOf, previous) == previous
    ensures response.ChatListOk? && ChatListIds(response) == [] ==> Directory(response, profileOf, previous) == []
    ensures var ids := ChatListIds(response);
            response.ChatListOk? && ids != [] && (forall i :: 0 <= i < |ids| ==> profileOf(ids[i]).Some?) ==>
              var r := Directory(response, profileOf, previous);
              |r| == |ids| && forall i :: 0 <= i < |ids| ==> profileOf(ids[i]) == Some(r[i])
    ensures var ids := ChatListIds(response);
            (exists i :: 0 <= i < |ids| && profileOf(ids[i]).None?) ==> Directory(response, profileOf, previous) == previous
  {
  }

  // ---------------------------------------------------------------------------
  // The new-chat candidate filter

  /** The filter's test: another role, another user, and not in the existing-chat id list. */
  predicate IsCandidate(me: User, existingIds: seq<Field>, u: User) {
    u.role != me.role && u.id != me.id && Text(u.id) !in existingIds
  }

  /** The users the new-chat modal offers, for an explicit list of existing-chat ids. */
  function Candidates(data: UsersData, me: User, existingIds: seq<Field>): (r: seq<User>)
    ensures data.NotAnArray? ==> r == []
    ensures data.UserArray? ==> forall u :: u in r <==> u in data.users && IsCandidate(me, existingIds, u)
    ensures data.UserArray? ==> forall u :: multiset(r)[u] == if IsCandidate(me, existingIds, u) then multiset(data.users)[u] else 0
  {
    match data
    case NotAnArray => []
    case UserArray(users) =>
      var keep := u => IsCandidate(me, existingIds, u);
      Seqs.FilterMultiset(users, keep);
      Seqs.Filter(users, keep)
  }

  /** Candidates keep the input order: filtering a concatenation concatenates the results. */
  lemma CandidatesKeepOrder(a: seq<User>, b: seq<User>, me: User, existingIds: seq<Field>)
    ensures Candidates(UserArray(a + b), me, existingIds)
         == Candidates(UserArray(a), me, existingIds) + Candidates(UserArray(b), me, existingIds)
  {
    Seqs.FilterConcat(a, b, u => IsCandidate(me, existingIds, u));
  }

  /** `existingChats.map(c => c._id)` on the array the page passes in,
      `conversations.map(c => c.name)`: a string has no `_id`, so every entry is `undefined`. */
  function ExistingIdsAsPassed(conversations: seq<User>): (r: seq<Field>)
    ensures |r| == |conversations|
  {
    seq(|conversations|, i requires 0 <= i < |conversations| => Absent)
  }

  /** The candidates as the page actually computes them. */
  function CandidatesAsCalled(data: UsersData, me: User, conversations: seq<User>): seq<User> {
    Candidates(data, me, ExistingIdsAsPassed(conversations))
  }

  /** As called, the existing conversations exclude no one. */
  lemma AsCalledIgnoresConversations(data: UsersData, me: User, conversations: seq<User>)
    requires data.UserArray?
    ensures forall u :: u in CandidatesAsCalled(data, me, conversations) <==>
              u in data.users && u.role != me.role && u.id != me.id
  {
    assert forall u: User :: Text(u.id) !in ExistingIdsAsPassed(conversations);
  }

  /** A counterpart already in the conversation list is offered again. */
  lemma AsCalledOffersOpenConversation()
    ensures var me := Profile("u1", "Amina", "buyer", None);
            var u2 := Profile("u2", "Baraka", "farmer", None);
            u2 in CandidatesAsCalled(UserArray([u2]), me, [u2])
  {
    var me := Profile("u1", "Amina", "buyer", None);
    var u2 := Profile("u2", "Baraka", "farmer", None);
    assert Text(u2.id) !in ExistingIdsAsPassed([u2]);
  }

  /** The id list built from the conversations themselves: `conversations.map(c => c._id)`. */
  function ConversationIds(conversations: seq<User>): (r: seq<Field>)
    ensures |r| == |conversations|
    ensures forall i :: 0 <= i < |r| ==> r[i] == Text(conversations[i].id)
  {
    seq(|conversations|, i requires 0 <= i < |conversations| => Text(conversations[i].id))
  }

  /** The candidates with the existing-chat ids passed as intended. */
  function CandidatesFor(data: UsersData, me: User, conversations: seq<User>): seq<User> {
    Candidates(data, me, ConversationIds(conversations))
  }

  /** Passed the ids, the modal offers exactly the users of another role, other than the
      current user, with whom no conversation is open. */
  lemma CandidatesForExcludesOpenConversations(data: UsersData, me: User, conversations: seq<User>)
    requires data.UserArray?
    ensures forall u :: u in CandidatesFor(data, me, conversations) <==>
              && u in data.users && u.role != me.role && u.id != me.id
              && forall c :: c in conversations ==> c.id != u.id
  {
    var ids := ConversationIds(conversations);
    forall u: User ensures Text(u.id) in ids <==> exists c :: c in conversations && c.id == u.id {
      if Text(u.id) in ids {
        var i :| 0 <= i < |ids| && ids[i] == Text(u.id);
        assert conversations[i] in conversations;
      }
      if c :| c in conversations && c.id == u.id {
        var i :| 0 <= i < |conversations| && conversations[i] == c;
        assert ids[i] == Text(u.id);
      }
    }
  }

  // ---------------------------------------------------------------------------
  // The new-chat modal

  /** `NewChatModal`: the users it lists, its loading flag, and the requests it made. */
  class NewChatModal {
    const me: User
    var users: seq<User>
    var loading: bool
    var requests: seq<ApiCall>

    constructor (me: User)
      ensures this.me == me && users == [] && loading && requests == []
    {
      this.me := me;
      users := [];
      loading := true;
      requests := [];
    }

    /** Opening the modal starts `GET /api/users`. */
    method BeginFetch()
      modifies this`loading, this`requests
      ensures loading && requests == old(requests) + [GetUsers]
    {
      loading := true;
      requests := requests + [GetUsers];
    }

    /** The users request completed, with `existingIds` the list `existingChats.map(c => c._id)`
        yields: with a body the list is replaced by the candidates; after a failed request
        the previous list stays. Loading ends in both cases. */
    method UsersLoaded(response: Option<UsersData>, existingIds: seq<Field>)
      modifies this`users, this`loading
      ensures !loading
      ensures response.Some? ==> users == Candidates(response.value, me, existingIds)
      ensures response.None? ==> users == old(users)
    {
      if response.Some? {
        users := Candidates(response.value, me, existingIds);
      }
      loading := false;
    }
  }

  /** The modal as the page opens it, with the page's conversations passed the way the page
      passes them: a counterpart with an open conversation is listed again. */
  method ModalOffersOpenConversation(me: User, u: User) returns (modal: NewChatModal)
    requires u.role != me.role && u.id != me.id
    ensures u in modal.users && !modal.loading
    ensures modal.requests == [GetUsers]
  {
    modal := new NewChatModal(me);
    modal.BeginFetch();
    var existingIds := ExistingIdsAsPassed([u]);
    assert Text(u.id) !in existingIds;
    modal.UsersLoaded(Some(UserArray([u])), existingIds);
    assert u in [u];
  }

  // ---------------------------------------------------------------------------
  // The page

  /** `Messages`: the page's state, and logs of what it emitted on the socket and asked of the API. */
  class MessagesPage {
    const me: User
    var conversations: seq<User>
    var activeChatUser: Option<User>
    var messages: seq<Message>
    var newMessage: string
    var loading: bool
    var isModalOpen: bool
    var emitted: seq<SocketEvent>
    var requests: seq<ApiCall>

    /** Mounting the page: initial state, and `fetchConversations` starts. */
    constructor (me: User)
      ensures this.me == me
      ensures conversations == [] && activeChatUser == None && messages == [] && newMessage == ""
      ensures loading && !isModalOpen
      ensures emitted == [] && requests == [GetChatList]
    {
      this.me := me;
      conversations, activeChatUser, messages, newMessage := [], None, [], "";
      loading, isModalOpen := true, false;
      emitted, requests := [], [GetChatList];
    }

    /** `fetchConversations` up to its first `await`. */
    method BeginFetchConversations()
      modifies this`loading, this`requests
      ensures loading && requests == old(requests) + [GetChatList]
    {
      loading := true;
      requests := requests + [GetChatList];
    }

    /** `fetchConversations` after the chat list (and, for a non-empty list, every profile
        request) completed. */
    method ConversationsLoaded(response: ChatListResponse, profileOf: string -> Option<User>)
      modifies this`conversations, this`loading, this`requests
      ensures !loading
      ensures requests == old(requests) + ProfileRequests(response)
      ensures conversations == Directory(response, profileOf, old(conversations))
    {
      requests := requests + ProfileRequests(response);
      conversations := Directory(response, profileOf, conversations);
      loading := false;
    }

    /** The `newMessage` socket handler. */
    method Receive(m: Message)
      modifies this`messages
      ensures Accepts(me.id, activeChatUser, m) ==> messages == old(messages) + [m]
      ensures !Accepts(me.id, activeChatUser, m) ==> messages == old(messages)
    {
      if m.chatId == CurrentChatId(me.id, activeChatUser) {
        if m.sender != me.id {
          messages := messages + [m];
        }
      }
    }

    /** `handleSelectConversation` up to its `await`: the conversation becomes active, the
        socket joins its channel and the history is requested. */
    method SelectConversation(u: User)
      modifies this`activeChatUser, this`emitted, this`requests
      ensures activeChatUser == Some(u)
      ensures emitted == old(emitted) + [JoinChat(ChatId(me.id, u.id))]
      ensures requests == old(requests) + [FindChats(ChatId(me.id, u.id))]
    {
      activeChatUser := Some(u);
      var chatId := ChatId(me.id, u.id);
      emitted := emitted + [JoinChat(chatId)];
      requests := requests + [FindChats(chatId)];
    }

    /** `handleSelectConversation` after the history request completed: the feed is
        replaced wholesale, whichever conversation is active by then. */
    method HistoryLoaded(response: HistoryResponse)
      modifies this`messages
      ensures messages == HistoryFeed(response)
    {
      match response
      case HistoryFailed =>
        messages := [];
      case HistoryOk(chats) =>
        messages := chats.GetOr([]);
    }

    /** The input's `onChange`. */
    method Type(text: string)
      modifies this`newMessage
      ensures newMessage == text
    {
      newMessage := text;
    }

    /** `handleSendMessage`, with `Date.now()` given as `now`. */
    method Send(now: int)
      modifies this`messages, this`emitted, this`newMessage
      ensures IsBlank(old(newMessage)) || activeChatUser.None? ==>
                messages == old(messages) && emitted == old(emitted) && newMessage == old(newMessage)
      ensures !IsBlank(old(newMessage)) && activeChatUser.Some? ==>
                var u := activeChatUser.value;
                && emitted == old(emitted) + [SendMessage(Outgoing(ChatId(me.id, u.id), me.id, u.id, old(newMessage), false))]
                && messages == old(messages) + [Message(Absent, me.id, old(newMessage), LocalStamp(now))]
                && newMessage == ""
    {
      if IsBlank(newMessage) || activeChatUser.None? {
        return;
      }
      var u := activeChatUser.value;
      var chatId := ChatId(me.id, u.id);
      emitted := emitted + [SendMessage(Outgoing(chatId, me.id, u.id, newMessage, false))];
      messages := messages + [Message(Absent, me.id, newMessage, LocalStamp(now))];
      newMessage := "";
    }

    /** The new-conversation button. */
    method OpenModal()
      modifies this`isModalOpen
      ensures isModalOpen
    {
      isModalOpen := true;
    }

    /** The modal's `onClose`. */
    method CloseModal()
      modifies this`isModalOpen
      ensures !isModalOpen
    {
      isModalOpen := false;
    }

    /** `handleStartNewChat`: `POST /api/addchat`; on success the modal closes and the list
        is fetched again (not awaited); on failure nothing else changes. */
    method StartNewChat(u: User, added: bool)
      modifies this`isModalOpen, this`loading, this`requests
      ensures added ==> !isModalOpen && loading && requests == old(requests) + [AddChat(u.id), GetChatList]
      ensures !added ==> isModalOpen == old(isModalOpen) && loading == old(loading)
                         && requests == old(requests) + [AddChat(u.id)]
    {
      requests := requests + [AddChat(u.id)];
      if added {
        isModalOpen := false;
        BeginFetchConversations();
      }
    }
  }

  // ---------------------------------------------------------------------------
  // Scenarios

  /** Nothing drops a late history response: selecting `u1`, then `u2`, and then receiving
      `u1`'s history leaves messages of `u1`'s channel in `u2`'s feed, none of which belongs
      to the open channel. */
  method LateHistoryIsApplied(me: User, u1: User, u2: User, history1: seq<Message>) returns (page: MessagesPage)
    requires '-' !in me.id && '-' !in u1.id && '-' !in u2.id && u1.id != u2.id
    requires forall i :: 0 <= i < |history1| ==> history1[i].chatId == Text(ChatId(me.id, u1.id))
    ensures page.activeChatUser == Some(u2) && page.messages == history1
    ensures forall i :: 0 <= i < |page.messages| ==> page.messages[i].chatId != CurrentChatId(me.id, page.activeChatUser)
  {
    page := new MessagesPage(me);
    page.SelectConversation(u1);
    page.SelectConversation(u2);
    page.HistoryLoaded(HistoryOk(Some(history1)));
    if ChatId(me.id, u1.id) == ChatId(me.id, u2.id) {
      ChatIdInjective(me.id, u1.id, me.id, u2.id);
    }
  }

  /** Sending and then receiving one's own broadcast of the same text leaves exactly one
      copy, the optimistic one, in the feed. */
  method SendThenOwnEcho(me: User, u: User, text: string, now: int, serverKey: string) returns (page: MessagesPage)
    requires !IsBlank(text)
    ensures page.messages == [Message(Absent, me.id, text, LocalStamp(now))]
    ensures page.emitted == [JoinChat(ChatId(me.id, u.id)), SendMessage(Outgoing(ChatId(me.id, u.id), me.id, u.id, text, false))]
  {
    var chatId := ChatId(me.id, u.id);
    var echo := Message(Text(chatId), me.id, text, ServerKey(serverKey));
    page := new MessagesPage(me);
    page.SelectConversation(u);
    page.Type(text);
    page.Send(now);
    OwnBroadcastDropped(page.me.id, page.activeChatUser, echo);
    page.Receive(echo);
  }
}
