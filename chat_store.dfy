/** The client's conversation store: the list of users, the selected peer,
    the message list shown for that peer and two loading flags. Sending is
    split at its one suspension point: BeginSend reads the store, and
    CompleteSend applies the server's answer to what BeginSend read, so that
    a `newMessage` event can arrive in between. Incoming messages reach the
    store through the handlers installed on the session socket of the
    AuthStore module. */
module ChatStore {
  import opened Types
  import AuthStore

  /** What `sendMessage` holds across its request: the path it posts to and
      the message list it read before awaiting. */
  datatype SendTicket = SendTicket(path: string, snapshot: seq<Message>)

  /** The request path for a send to the selected user; with no user
      selected, the template literal renders the id as "undefined". */
  function SendPath(selected: Option<User>): string
  {
    "/messages/send/" + (if selected.Some? then selected.value.id else "undefined")
  }

  /** A selected user whose id is the text "undefined" is sent to the same
      path as no selection at all: the path does not tell the two apart. */
  lemma SendPathConflatesUndefined(u: User)
    requires u.id == "undefined"
    ensures SendPath(Some(u)) == SendPath(None)
  {
  }

  /** Apart from that one id, different selected users get different paths. */
  lemma SendPathDistinguishesUsers(u: User, v: User)
    requires u.id != v.id
    ensures SendPath(Some(u)) != SendPath(Some(v))
  {
    var prefix := "/messages/send/";
    assert SendPath(Some(u))[|prefix|..] == u.id;
    assert SendPath(Some(v))[|prefix|..] == v.id;
  }

  /** Emitting a `newMessage` event on a socket whose handlers captured the
      peers `handlers`: socket.io runs them in installation order, and each
      appends `m` to the then-current list exactly when the sender is its
      captured peer. The old list is kept as a prefix, and one copy of `m` is
      appended per handler that captured the sender. */
  function RunHandlers(handlers: seq<Id>, m: Message, msgs: seq<Message>): (r: seq<Message>)
    ensures msgs <= r
    ensures |r| == |msgs| + multiset(handlers)[m.senderId]
    ensures forall i :: |msgs| <= i < |r| ==> r[i] == m
    decreases |handlers|
  {
    if handlers == [] then msgs
    else
      assert handlers == [handlers[0]] + handlers[1..];
      RunHandlers(handlers[1..], m, if m.senderId == handlers[0] then msgs + [m] else msgs)
  }

  /** A message from a peer that no installed handler captured leaves the
      list exactly as it was; with no handler installed, every event does. */
  lemma UnmatchedSenderIgnored(handlers: seq<Id>, m: Message, msgs: seq<Message>)
    requires m.senderId !in handlers
    ensures RunHandlers(handlers, m, msgs) == msgs
  {
  }

  /** With exactly one handler, for peer `peer`, an event appends the message
      once when its sender is `peer` and changes nothing otherwise. */
  lemma SingleHandler(peer: Id, m: Message, msgs: seq<Message>)
    ensures RunHandlers([peer], m, msgs) == if m.senderId == peer then msgs + [m] else msgs
  {
  }

  class ChatState {
    var messages: seq<Message>
    var users: seq<User>
    var selectedUser: Option<User>
    var isUsersLoading: bool
    var isMessagesLoading: bool

    /** The store's initial state: nothing loaded, nobody selected. */
    constructor ()
      ensures messages == [] && users == [] && selectedUser == None
      ensures !isUsersLoading && !isMessagesLoading
    {
      messages := [];
      users := [];
      selectedUser := None;
      isUsersLoading := false;
      isMessagesLoading := false;
    }

    /** getUsers, up to the request. */
    method BeginGetUsers()
      modifies this
      ensures isUsersLoading && isMessagesLoading == old(isMessagesLoading)
      ensures users == old(users) && messages == old(messages) && selectedUser == old(selectedUser)
    {
      isUsersLoading := true;
    }

    /** getUsers, once the request has settled: success replaces the user
        list, failure keeps it; the flag is cleared either way. */
    method CompleteGetUsers(outcome: Outcome<seq<User>>)
      modifies this
      ensures !isUsersLoading && isMessagesLoading == old(isMessagesLoading)
      ensures users == if outcome.Ok? then outcome.value else old(users)
      ensures messages == old(messages) && selectedUser == old(selectedUser)
    {
      if outcome.Ok? {
        users := outcome.value;
      }
      isUsersLoading := false;
    }

    /** getMessages, up to the request (the peer id only forms its path). */
    method BeginGetMessages()
      modifies this
      ensures isMessagesLoading && isUsersLoading == old(isUsersLoading)
      ensures users == old(users) && messages == old(messages) && selectedUser == old(selectedUser)
    {
      isMessagesLoading := true;
    }

    /** getMessages, once the request has settled: success replaces the
        message list with the fetched history, failure keeps it; the flag is
        cleared either way. */
    method CompleteGetMessages(outcome: Outcome<seq<Message>>)
      modifies this
      ensures !isMessagesLoading && isUsersLoading == old(isUsersLoading)
      ensures messages == if outcome.Ok? then outcome.value else old(messages)
      ensures users == old(users) && selectedUser == old(selectedUser)
    {
      if outcome.Ok? {
        messages := outcome.value;
      }
      isMessagesLoading := false;
    }

    /** sendMessage, up to the request: reads the selected user and the
        message list; nothing changes, and there is no sending flag. */
    method BeginSend() returns (ticket: SendTicket)
      ensures ticket.snapshot == messages
      ensures ticket.path == SendPath(selectedUser)
    {
      ticket := SendTicket(SendPath(selectedUser), messages);
    }

    /** sendMessage, once the request has settled: on success the list
        becomes the one read at the start followed by the server's message,
        whatever has been added to the store in between; on failure the list
        is left as it now is. */
    method CompleteSend(ticket: SendTicket, outcome: Outcome<Message>)
      modifies this
      ensures outcome.Ok? ==> messages == ticket.snapshot + [outcome.value]
      ensures outcome.Err? ==> messages == old(messages)
      ensures users == old(users) && selectedUser == old(selectedUser)
      ensures isUsersLoading == old(isUsersLoading) && isMessagesLoading == old(isMessagesLoading)
    {
      if outcome.Ok? {
        messages := ticket.snapshot + [outcome.value];
      }
    }

    /** subscribeToMessages: with a selected user and a session socket,
        installs one more `newMessage` handler on that socket, capturing the
        selected user's id; otherwise does nothing. */
    method SubscribeToMessages(auth: AuthStore.AuthState)
      modifies auth.socket
      ensures auth.socket != null && selectedUser.Some? ==>
                auth.socket.newMessageHandlers == old(auth.socket.newMessageHandlers) + [selectedUser.value.id]
                && auth.socket.connected == old(auth.socket.connected)
      ensures auth.socket != null && selectedUser.None? ==> unchanged(auth.socket)
    {
      if selectedUser.None? {
        return;
      }
      var s := auth.socket;
      if s == null {
        return;
      }
      s.newMessageHandlers := s.newMessageHandlers + [selectedUser.value.id];
    }

    /** unsubscribeFromMessages: removes every `newMessage` handler from the
        current session socket, if there is one. */
    method UnsubscribeFromMessages(auth: AuthStore.AuthState)
      modifies auth.socket
      ensures auth.socket != null ==>
                auth.socket.newMessageHandlers == [] && auth.socket.connected == old(auth.socket.connected)
    {
      var s := auth.socket;
      if s != null {
        s.newMessageHandlers := [];
      }
    }

    /** A `newMessage` event arriving on socket `s` (current or superseded;
        socket.io delivers server events only on a connected socket): the
        installed handlers run over the message list. */
    method ReceiveNewMessage(s: AuthStore.Socket, m: Message)
      requires s.connected
      modifies this
      ensures messages == RunHandlers(s.newMessageHandlers, m, old(messages))
      ensures users == old(users) && selectedUser == old(selectedUser)
      ensures isUsersLoading == old(isUsersLoading) && isMessagesLoading == old(isMessagesLoading)
    {
      messages := RunHandlers(s.newMessageHandlers, m, messages);
    }

    /** setSelectedUser: changes the selection only; the message list is not
        reset. */
    method SetSelectedUser(u: Option<User>)
      modifies this
      ensures selectedUser == u
      ensures messages == old(messages) && users == old(users)
      ensures isUsersLoading == old(isUsersLoading) && isMessagesLoading == old(isMessagesLoading)
    {
      selectedUser := u;
    }
  }

  /** A message from the selected peer that arrives while a send is in
      flight is shown, and then overwritten when the send completes: the
      send rebuilds the list from the snapshot it took before the request. */
  method IncomingDuringSendIsLost(me: User, peer: User, incoming: Message, sent: Message)
    returns (during: seq<Message>, after: seq<Message>)
    requires incoming.senderId == peer.id && incoming != sent
    ensures during == [incoming]
    ensures after == [sent] && incoming !in after
  {
    var auth := new AuthStore.AuthState();
    auth.CheckAuth(Ok(me));
    auth.socket.Handshake();
    var chat := new ChatState();
    chat.SetSelectedUser(Some(peer));
    chat.SubscribeToMessages(auth);
    var ticket := chat.BeginSend();
    chat.ReceiveNewMessage(auth.socket, incoming);
    SingleHandler(peer.id, incoming, []);
    during := chat.messages;
    chat.CompleteSend(ticket, Ok(sent));
    after := chat.messages;
  }

  /** On a connected socket, a message from the selected peer is appended
      while the handler is installed; once the handlers are removed, the
      same event on the same socket no longer reaches the list, and
      selecting another peer afterwards does not clear what was shown. */
  method UnsubscribedSocketIgnoresMessages(me: User, peer: User, other: User, history: seq<Message>, m: Message)
    returns (subscribed: seq<Message>, shown: seq<Message>)
    requires m.senderId == peer.id
    ensures subscribed == history + [m]
    ensures shown == history + [m]
  {
    var auth := new AuthStore.AuthState();
    auth.CheckAuth(Ok(me));
    auth.socket.Handshake();
    var chat := new ChatState();
    chat.SetSelectedUser(Some(peer));
    chat.BeginGetMessages();
    chat.CompleteGetMessages(Ok(history));
    chat.SubscribeToMessages(auth);
    chat.ReceiveNewMessage(auth.socket, m);
    SingleHandler(peer.id, m, history);
    subscribed := chat.messages;
    chat.UnsubscribeFromMessages(auth);
    chat.ReceiveNewMessage(auth.socket, m);
    chat.SetSelectedUser(Some(other));
    shown := chat.messages;
  }
}
