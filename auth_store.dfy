/** The client's session store: who is signed in, the realtime socket opened
    for them, the presence list that socket delivers, and one in-progress flag
    per authentication request. Each HTTP call is replaced by its outcome,
    passed to the action as a parameter; an action that raises a flag before
    its request is split into a Begin step and a Complete step, so that the
    state while the request is in flight is observable. */
module AuthStore {
  import opened Types

  /** A socket.io client connection. `userId` is the handshake query
      parameter; `connected` is socket.io's own flag, which becomes true only
      once the handshake has completed; `newMessageHandlers` holds, in
      installation order, the peer id that each installed `newMessage`
      handler captured (socket.io keeps every handler added with `on`). */
  class Socket {
    const userId: Id
    var connected: bool
    var newMessageHandlers: seq<Id>

    /** `io(BASE_URL, { query: { userId } })` followed by `connect()`: the
        handshake is still pending. */
    constructor (userId: Id)
      ensures this.userId == userId && !connected && newMessageHandlers == []
    {
      this.userId := userId;
      connected := false;
      newMessageHandlers := [];
    }

    /** The transport reports a completed handshake. */
    method Handshake()
      modifies this
      ensures connected && newMessageHandlers == old(newMessageHandlers)
    {
      connected := true;
    }

    /** `socket.disconnect()`, or the transport dropping; installed handlers stay. */
    method Disconnect()
      modifies this
      ensures !connected && newMessageHandlers == old(newMessageHandlers)
    {
      connected := false;
    }
  }

  /** `s` is a socket that `connectSocket` has just opened for `u`. */
  ghost predicate Opened(s: Socket?, u: User)
    reads s
  {
    s != null && s.userId == u.id && !s.connected && s.newMessageHandlers == []
  }

  /** The four flags of the store, in declaration order. */
  datatype Flags = Flags(signingUp: bool, loggingIn: bool, updatingProfile: bool, checkingAuth: bool)

  class AuthState {
    var authUser: Option<User>
    var isSigningUp: bool
    var isLoggingIn: bool
    var isUpdatingProfile: bool
    var isCheckingAuth: bool
    var onlineUsers: seq<Id>
    var socket: Socket?

    function CurrentFlags(): Flags
      reads this
    {
      Flags(isSigningUp, isLoggingIn, isUpdatingProfile, isCheckingAuth)
    }

    /** The store's initial state: nobody signed in, no socket, and the
        session check pending. */
    constructor ()
      ensures authUser == None && socket == null && onlineUsers == []
      ensures CurrentFlags() == Flags(false, false, false, true)
    {
      authUser := None;
      isSigningUp := false;
      isLoggingIn := false;
      isUpdatingProfile := false;
      isCheckingAuth := true;
      onlineUsers := [];
      socket := null;
    }

    /** connectSocket: does nothing without a signed-in user or while the
        current socket is connected; otherwise installs a new socket for the
        user. A superseded socket is neither closed nor otherwise touched. */
    method ConnectSocket()
      modifies this
      ensures authUser == old(authUser) && onlineUsers == old(onlineUsers)
      ensures CurrentFlags() == old(CurrentFlags())
      ensures if old(authUser).None? || old(socket != null && socket.connected)
              then socket == old(socket)
              else fresh(socket) && Opened(socket, authUser.value)
    {
      if authUser.None? || (socket != null && socket.connected) {
        return;
      }
      var s := new Socket(authUser.value.id);
      socket := s;
    }

    /** disconnectSocket: closes and forgets the socket only when it is
        connected; a socket whose handshake is pending or that has dropped
        stays in place. The presence list is not touched. */
    method DisconnectSocket()
      modifies this, socket
      ensures authUser == old(authUser) && onlineUsers == old(onlineUsers)
      ensures CurrentFlags() == old(CurrentFlags())
      ensures old(socket) != null ==> old(socket).newMessageHandlers == old(socket.newMessageHandlers)
      ensures if old(socket != null && socket.connected)
              then socket == null && !old(socket).connected
              else socket == old(socket) && (socket != null ==> unchanged(socket))
    {
      if socket != null && socket.connected {
        socket.Disconnect();
        socket := null;
      }
    }

    /** The `getOnlineUsers` handler, which `connectSocket` installs on every
        socket it opens; socket.io delivers the event only on a connected
        socket, current or superseded. The presence list is replaced
        wholesale. */
    method ReceiveOnlineUsers(from: Socket, userIds: seq<Id>)
      requires from.connected
      modifies this
      ensures onlineUsers == userIds
      ensures authUser == old(authUser) && socket == old(socket)
      ensures CurrentFlags() == old(CurrentFlags())
    {
      onlineUsers := userIds;
    }

    /** checkAuth: a verified session signs the user in and connects the
        socket; a failed check signs out. The check flag is cleared either way. */
    method CheckAuth(outcome: Outcome<User>)
      modifies this
      ensures !isCheckingAuth
      ensures isSigningUp == old(isSigningUp) && isLoggingIn == old(isLoggingIn)
      ensures isUpdatingProfile == old(isUpdatingProfile) && onlineUsers == old(onlineUsers)
      ensures outcome.Err? ==> authUser == None && socket == old(socket)
      ensures outcome.Ok? ==> authUser == Some(outcome.value)
      ensures outcome.Ok? ==>
                if old(socket != null && socket.connected) then socket == old(socket)
                else fresh(socket) && Opened(socket, outcome.value)
    {
      match outcome {
        case Ok(u) =>
          authUser := Some(u);
          ConnectSocket();
        case Err =>
          authUser := None;
      }
      isCheckingAuth := false;
    }

    /** signup, up to the request: the signing-up flag is raised. */
    method BeginSignup()
      modifies this
      ensures isSigningUp
      ensures isLoggingIn == old(isLoggingIn) && isUpdatingProfile == old(isUpdatingProfile)
      ensures isCheckingAuth == old(isCheckingAuth)
      ensures authUser == old(authUser) && socket == old(socket) && onlineUsers == old(onlineUsers)
    {
      isSigningUp := true;
    }

    /** signup, once the request has settled: a created account signs the
        user in and connects the socket; a failure leaves the session as it
        was. The signing-up flag is cleared either way. */
    method CompleteSignup(outcome: Outcome<User>)
      modifies this
      ensures !isSigningUp
      ensures isLoggingIn == old(isLoggingIn) && isUpdatingProfile == old(isUpdatingProfile)
      ensures isCheckingAuth == old(isCheckingAuth) && onlineUsers == old(onlineUsers)
      ensures outcome.Err? ==> authUser == old(authUser) && socket == old(socket)
      ensures outcome.Ok? ==> authUser == Some(outcome.value)
      ensures outcome.Ok? ==>
                if old(socket != null && socket.connected) then socket == old(socket)
                else fresh(socket) && Opened(socket, outcome.value)
    {
      if outcome.Ok? {
        authUser := Some(outcome.value);
        ConnectSocket();
      }
      isSigningUp := false;
    }

    /** login, up to the request: the logging-in flag is raised. */
    method BeginLogin()
      modifies this
      ensures isLoggingIn
      ensures isSigningUp == old(isSigningUp) && isUpdatingProfile == old(isUpdatingProfile)
      ensures isCheckingAuth == old(isCheckingAuth)
      ensures authUser == old(authUser) && socket == old(socket) && onlineUsers == old(onlineUsers)
    {
      isLoggingIn := true;
    }

    /** login, once the request has settled: as CompleteSignup, with the
        logging-in flag. */
    method CompleteLogin(outcome: Outcome<User>)
      modifies this
      ensures !isLoggingIn
      ensures isSigningUp == old(isSigningUp) && isUpdatingProfile == old(isUpdatingProfile)
      ensures isCheckingAuth == old(isCheckingAuth) && onlineUsers == old(onlineUsers)
      ensures outcome.Err? ==> authUser == old(authUser) && socket == old(socket)
      ensures outcome.Ok? ==> authUser == Some(outcome.value)
      ensures outcome.Ok? ==>
                if old(socket != null && socket.connected) then socket == old(socket)
                else fresh(socket) && Opened(socket, outcome.value)
    {
      if outcome.Ok? {
        authUser := Some(outcome.value);
        ConnectSocket();
      }
      isLoggingIn := false;
    }

    /** logout: once the server has answered, the user is signed out and the
        socket disconnected (when it is connected); a failed request changes
        neither the user nor the socket. */
    method Logout(outcome: Outcome<()>)
      modifies this, socket
      ensures CurrentFlags() == old(CurrentFlags()) && onlineUsers == old(onlineUsers)
      ensures old(socket) != null ==> old(socket).newMessageHandlers == old(socket.newMessageHandlers)
      ensures outcome.Err? ==> authUser == old(authUser) && socket == old(socket)
      ensures outcome.Err? && socket != null ==> unchanged(socket)
      ensures outcome.Ok? ==> authUser == None
      ensures outcome.Ok? ==>
                if old(socket != null && socket.connected)
                then socket == null && !old(socket).connected
                else socket == old(socket) && (socket != null ==> unchanged(socket))
    {
      if outcome.Ok? {
        authUser := None;
        DisconnectSocket();
      }
    }

    /** updateProfile, up to the request: the updating flag is raised. */
    method BeginUpdateProfile()
      modifies this
      ensures isUpdatingProfile
      ensures isSigningUp == old(isSigningUp) && isLoggingIn == old(isLoggingIn)
      ensures isCheckingAuth == old(isCheckingAuth)
      ensures authUser == old(authUser) && socket == old(socket) && onlineUsers == old(onlineUsers)
    {
      isUpdatingProfile := true;
    }

    /** updateProfile, once the request has settled: on success the user
        record becomes the server's answer, which is `null` when the server
        no longer finds the user (the store then holds no user while the
        socket stays as it is); on failure it is kept. The socket is never
        touched and the updating flag is cleared either way. */
    method CompleteUpdateProfile(outcome: Outcome<Option<User>>)
      modifies this
      ensures !isUpdatingProfile
      ensures isSigningUp == old(isSigningUp) && isLoggingIn == old(isLoggingIn)
      ensures isCheckingAuth == old(isCheckingAuth)
      ensures socket == old(socket) && onlineUsers == old(onlineUsers)
      ensures authUser == if outcome.Ok? then outcome.value else old(authUser)
      ensures outcome == Ok(None) ==> authUser == None
    {
      if outcome.Ok? {
        authUser := outcome.value;
      }
      isUpdatingProfile := false;
    }
  }
}
