# Chat-app session and conversation state, modelled in Dafny

This project models the stateful core of a small real-time chat application:

- the client's session store (`useAuthStore`): the signed-in user, the socket.io connection opened for that user, the presence list pushed over it, and the in-progress flags of the authentication requests;
- the client's conversation store (`useChatStore`): the user list, the selected peer, the message list, the loading flags, and the `newMessage` handlers it installs on the session socket;
- the server's authentication handlers (`auth.controller.js`): the guard chains of signup, login, logout, updateProfile and checkAuth over the user collection.

Files:

- `types.dfy`: module `Types`, holding `User` (IUser), `Message` (IMessage), `Option`, and `Outcome` (what an awaited HTTP call gave a store action: `Ok(data)` or `Err`).
- `auth_store.dfy`: module `AuthStore`. It holds class `Socket` (a socket.io client with its `connected` flag and its installed `newMessage` handlers) and class `AuthState` (the session store).
- `chat_store.dfy`: module `ChatStore`. It holds class `ChatState`, the function `RunHandlers` (what a `newMessage` event does to the message list), and two client scenarios.
- `auth_controller.dfy`: module `AuthController`. It holds the pure handlers `Login`, `Logout` and `CheckAuth` over the user collection, and class `UserCollection` with the handlers that write to the collection, `Signup` and `UpdateProfile`.

How the model is built:

- HTTP calls, socket events and library calls become parameters. A client action receives the outcome of its request. A server handler receives the request fields, the identifier Mongo would assign, the bcrypt salt, and whether the save or the upload threw.
- A client action that raises a flag before awaiting is split in two. `BeginX` raises the flag; `CompleteX(outcome)` applies the answer and clears the flag. This makes the in-flight state observable.
- `sendMessage` has no flag, but it is split the same way. `BeginSend` returns a ticket holding the message list read before the request, and `CompleteSend` builds the new list from that ticket. A `newMessage` event can therefore fall between the two steps.
- A socket's `connected` flag is socket.io's own flag. It is false from creation until the handshake completes (`Socket.Handshake`). `connectSocket` therefore installs a socket that is not yet connected, and `disconnectSocket` leaves such a socket in place.
- `socket.on('newMessage', …)` adds one more handler each time it is called, and `socket.off('newMessage')` removes all of them. Each handler is represented by the peer id it captured when it was installed. An event runs every handler in installation order, so subscribing twice for the same peer shows that peer's messages twice (`RunHandlers` counts the copies).
- The user collection is a sequence of documents in insertion order. `findOne` returns the first match (`FindOne`). Email uniqueness is then a real invariant (`UserCollection.Valid`), kept by signup's duplicate-email guard as long as each handler runs atomically (see "Left out"). Identifier uniqueness is Mongo's own guarantee, so `Signup` requires a fresh identifier.
- bcrypt is symbolic. `Hash` records the password, the salt and the cost factor 10. `Matches` holds exactly for the password that was hashed, which is bcrypt's behaviour only for passwords of at most 72 bytes (see "## Left out"). The stored `password` field is a `Credential`, never the plaintext.
- Token signing is recorded only as the cookie instruction `IssueToken(userId)`. `SessionAfter` gives the user the browser's `jwt` cookie authenticates after it applies a response's cookie instruction.

Three behaviours of the code are worth knowing, and the model keeps them as written:

- `disconnectSocket` does not touch `onlineUsers`, so the presence list outlives the connection. It also keeps a socket that is not connected.
- `setSelectedUser` changes only the selection; the message list shown for the previous peer stays until `getMessages` replaces it.
- Signup sets the token before the save, so a failed save still answers with a token for a user that was never stored.

## Model

| member | source | states |
|---|---|---|
| AuthStore.AuthState.constructor | frontend/src/store/useAuthStore.ts:35-41 | Initial state: no user, no socket, empty presence list, `isCheckingAuth` true, and the other three flags false. |
| AuthStore.AuthState.ConnectSocket | frontend/src/store/useAuthStore.ts:114-130 | With no user, or while the current socket is connected, nothing changes. Otherwise a fresh socket for the user's id is installed, not yet connected and with no handlers. The old socket is not touched, and the user, flags and presence list are unchanged. |
| AuthStore.AuthState.DisconnectSocket | frontend/src/store/useAuthStore.ts:131-137 | A connected socket is disconnected and `socket` becomes null. A null or unconnected socket is left in place and unchanged. The presence list, the user and the flags are never touched. |
| AuthStore.AuthState.ReceiveOnlineUsers | frontend/src/store/useAuthStore.ts:127-129 | A `getOnlineUsers` event on a connected socket (current or superseded) replaces `onlineUsers` wholesale with the received list; nothing else changes. |
| AuthStore.AuthState.CheckAuth | frontend/src/store/useAuthStore.ts:43-55 | `isCheckingAuth` is false afterwards in every case. On failure `authUser` is null and the socket is unchanged. On success `authUser` is the returned user and `connectSocket` has run: the connected socket is kept, or a fresh one is opened for that user. |
| AuthStore.AuthState.BeginSignup | frontend/src/store/useAuthStore.ts:57-58 | Before the request, `isSigningUp` is true and nothing else changes. |
| AuthStore.AuthState.CompleteSignup | frontend/src/store/useAuthStore.ts:59-69 | `isSigningUp` is false on both paths. On failure the user and socket are unchanged. On success the user is the created account and the socket is connected as by `connectSocket`. |
| AuthStore.AuthState.BeginLogin | frontend/src/store/useAuthStore.ts:72-73 | Before the request, `isLoggingIn` is true and nothing else changes. |
| AuthStore.AuthState.CompleteLogin | frontend/src/store/useAuthStore.ts:74-85 | `isLoggingIn` is false on both paths. On failure the user and socket are unchanged. On success the user is the returned one and the socket is connected as by `connectSocket`. |
| AuthStore.AuthState.Logout | frontend/src/store/useAuthStore.ts:88-98 | On success `authUser` is null, and then a connected socket is disconnected and cleared. On failure the user and socket (object and fields) are unchanged. Flags and the presence list are never touched. |
| AuthStore.AuthState.BeginUpdateProfile | frontend/src/store/useAuthStore.ts:100-101 | Before the request, `isUpdatingProfile` is true and nothing else changes. |
| AuthStore.AuthState.CompleteUpdateProfile | frontend/src/store/useAuthStore.ts:102-111 | On success `authUser` becomes the server's answer, including a `null` answer, which leaves no user while the socket stays as it is. On failure `authUser` is unchanged. `isUpdatingProfile` is false on both paths, and the socket is never touched. |
| ChatStore.ChatState.constructor | frontend/src/store/useChatStore.ts:24-28 | Initial state: empty message and user lists, nobody selected, both loading flags false. |
| ChatStore.ChatState.BeginGetUsers | frontend/src/store/useChatStore.ts:30-31 | Before the request, `isUsersLoading` is true and the lists are unchanged. |
| ChatStore.ChatState.CompleteGetUsers | frontend/src/store/useChatStore.ts:32-40 | `isUsersLoading` is false on both paths. Success replaces the user list; failure leaves it unchanged. Messages and the selection are untouched. |
| ChatStore.ChatState.BeginGetMessages | frontend/src/store/useChatStore.ts:43-44 | Before the request, `isMessagesLoading` is true and the lists are unchanged. |
| ChatStore.ChatState.CompleteGetMessages | frontend/src/store/useChatStore.ts:45-53 | `isMessagesLoading` is false on both paths. Success replaces the message list with the fetched history; failure leaves it unchanged. |
| ChatStore.SendPathConflatesUndefined | frontend/src/store/useChatStore.ts:58-59 | With nobody selected the path ends in the text "undefined", the same path as for a selected user whose id is "undefined". |
| ChatStore.SendPathDistinguishesUsers | frontend/src/store/useChatStore.ts:58-59 | Two selected users with different ids are sent to different paths. |
| ChatStore.ChatState.BeginSend | frontend/src/store/useChatStore.ts:55-56 | The send captures the message list as it is before the request, and the path for the selected user. It changes nothing. |
| ChatStore.ChatState.CompleteSend | frontend/src/store/useChatStore.ts:57-66 | On success the list is the captured snapshot followed by the server's message, whatever arrived in between. On failure the list is unchanged. Nothing else changes. |
| ChatStore.IncomingDuringSendIsLost | frontend/src/store/useChatStore.ts:55-84 | Scenario on a connected socket: a message from the selected peer that arrives while a send is in flight is shown (`[incoming]`), then lost when the send completes (`[sent]`). |
| ChatStore.ChatState.SubscribeToMessages | frontend/src/store/useChatStore.ts:69-85 | With no selected user or no session socket, nothing changes. Otherwise exactly one handler is appended to the socket, capturing the id of the user selected now. |
| ChatStore.RunHandlers | frontend/src/store/useChatStore.ts:76-84 | A `newMessage` event keeps the old list as a prefix. It appends one copy of the message per installed handler whose captured peer is the sender, and appends nothing else. |
| ChatStore.UnmatchedSenderIgnored | frontend/src/store/useChatStore.ts:76-79 | A message whose sender no handler captured leaves the list exactly unchanged. This covers the case with no handlers at all. |
| ChatStore.SingleHandler | frontend/src/store/useChatStore.ts:76-84 | With one handler for peer p, an event appends the message exactly once if its sender is p (length +1, old list a prefix), and otherwise changes nothing. |
| ChatStore.ChatState.ReceiveNewMessage | frontend/src/store/useChatStore.ts:76-84 | An event on a connected socket (current or superseded) runs that socket's handlers over the message list. Users, selection and flags are unchanged. |
| ChatStore.ChatState.UnsubscribeFromMessages | frontend/src/store/useChatStore.ts:87-90 | Every `newMessage` handler is removed from the current session socket, if there is one. |
| ChatStore.UnsubscribedSocketIgnoresMessages | frontend/src/store/useChatStore.ts:69-92 | Scenario on a connected socket: a message from the selected peer is appended while subscribed. After unsubscribing, the same event on the same socket leaves the list unchanged, and selecting another peer does not reset it. |
| ChatStore.ChatState.SetSelectedUser | frontend/src/store/useChatStore.ts:92 | Only `selectedUser` changes; the message list is not reset. |
| AuthController.Hash | backend/src/controllers/auth.controller.js:20-21 | The stored hash uses cost factor 10, and exactly the hashed password matches it; bcrypt agrees with this only for passwords of at most 72 bytes. |
| AuthController.FindOne | backend/src/controllers/auth.controller.js:15 | `findOne` returns the first document with the value in the field, or nothing exactly when no document has it. |
| AuthController.FindOneUnique | backend/src/controllers/auth.controller.js:15-18 | When a field's values are unique, the document found is the one holding the value. |
| AuthController.NewUserDoc | backend/src/controllers/auth.controller.js:23-27 | A new document has the request's email and name, the assigned id, the default picture, and a hash that the plaintext password matches. |
| AuthController.PublicFieldsIgnorePassword | backend/src/controllers/auth.controller.js:33-38 | The signup/login body does not depend on the stored password hash: no part of it reaches the client. |
| AuthController.UserCollection.Signup | backend/src/controllers/auth.controller.js:6-45 | A short password gets 400, ahead of the duplicate check. A stored email gets 400. A failing save gets 500 with the token already set. Success appends exactly one document (hash, not plaintext) and answers 201 with the public fields and a token. Any non-201 leaves the collection unchanged, and email and id uniqueness are preserved. |
| AuthController.Login | backend/src/controllers/auth.controller.js:47-74 | Unknown email: 400 "User does not exist". Wrong password: 400 with no cookie. 200 only for a stored user whose hash the password matches, with that user's public fields and a token for that user. With unique emails, 200 holds exactly when such a user exists. The collection is only read. |
| AuthController.SignupThenLogin | backend/src/controllers/auth.controller.js:47-69 | After signup stores a user in a collection with unique emails, login with the same email and password answers 200 with that user and a token for the new id. |
| AuthController.LoginStartsSession | backend/src/controllers/auth.controller.js:62 | A successful login leaves the browser authenticated as the user with that email. |
| AuthController.Logout | backend/src/controllers/auth.controller.js:76-84 | Always 200, and `jwt` is set to "" with `maxAge` 0, which ends any session. |
| AuthController.UserCollection.UpdateProfile | backend/src/controllers/auth.controller.js:86-108 | No picture (absent or empty) gets 400 `{error}` and no change. A failed upload gets 500 and no change. An unknown id gets 200 `null` and no change. Otherwise the answer is 200 with the updated document of that user, carrying the uploaded URL, and only that user's `profilePic` changes. The cookie is never touched, and uniqueness is preserved. |
| AuthController.CheckAuth | backend/src/controllers/auth.controller.js:110-117 | Always 200 with the user the authentication middleware attached, and the session is unchanged. |

## Left out

- HTTP and transport. Axios calls, socket.io connection set-up and event wiring, and the Express `res` plumbing are replaced by outcome parameters and the `Response` datatype.
- bcrypt, JWT signing and cloudinary. Hashing is symbolic and hashes never collide. The token is only `IssueToken(userId)`; its signature and 7-day expiry are not modelled, because `generateToken` is not part of this model. The upload is an abstract `Attempt<string>` for the secure URL.
- AuthController.Hash: bcrypt reads only the first 72 bytes of the UTF-8 password; `Matches` is exact only for passwords of at most 72 bytes. Signup enforces only a minimum length, so for a stored password longer than 72 bytes, `bcrypt.compare` also accepts any other password that shares those 72 bytes and login answers 200, where `Login` answers 400.
- The user schema. `user.model.js` is not part of this model, so a new document's `profilePic` default is taken to be the empty string (`DefaultProfilePic`).
- The authentication middleware that sets `req.user` before `checkAuth` and `updateProfile` run. It is not part of this model; its result is a parameter.
- Server failures other than signup's save and updateProfile's upload. A failing `findOne`, `genSalt`/`hash`, `compare` or `findByIdAndUpdate` would answer 500 through the same `catch`, but is not a separate parameter. Neither are the `catch` blocks of `logout` and `checkAuth`, which nothing in those handlers can reach.
- Missing request fields. The request fields are modelled as present strings. In signup, an absent `password` makes `password.length` throw, and the answer is 500. In login, an absent or unknown email gets 400 "User does not exist" before the password is used.
- Password length. JavaScript counts UTF-16 code units; the model counts Dafny characters. The two differ only for characters outside the Basic Multilingual Plane.
- The unreachable `else` branch of signup (`auth.controller.js:39-41`), since the new document is always truthy.
- Toasts and `console.log`, which have no effect on state; zustand subscriptions and React re-rendering.
- AuthController.UserCollection.Signup: each server handler runs atomically. In the code, `genSalt`, `hash` and `save` are awaited between the `findOne` guard and the save. Two overlapping signups for one email can therefore both pass the guard and both save. The email uniqueness that `Valid()` states relies on this atomicity, or on a unique index in the user schema, which is not part of this model.
- Real concurrency. The only interleavings modelled are the Begin/Complete splits of the client actions. The order of network events is whatever sequence of method calls a client makes.
- ChatStore.ChatState.BeginGetMessages: does not record the peer id, because it is used only to form the request path.
- The presence registry and the message router (the server socket module and the message controller) are not part of this model.
