# Live-chat socket server: a Dafny model

The chat backend is a socket.io server backed by MongoDB. Guests ("users") and staff
("admins") talk in one conversation per guest. The model covers these parts:

- the four event handlers:
  - connection: `user:join`, `admin:join`, `conversation:join`, `conversation:leave`;
  - messages: `message:send`, `message:read`, `message:react`;
  - typing: `typing:start`, `typing:stop`;
  - `disconnect`;
- the socket module: the `io` singleton, `handleConnection`'s event table and the `emitTo*` helpers;
- the three Mongoose documents (ChatUser, Conversation, Message), with their schema
  defaults, setters and validators;
- the CORS origin rule and the bearer-token extraction of the auth middleware.

The database is modelled by the class `Database.Store`. It holds three maps from document
id to document. Its `Valid()` invariant has two kinds of part.

What the database itself guarantees:

- every document passed its schema validators;
- the unique index on a user's session token holds;
- the unique index on a conversation's participant holds;
- no id is empty (ObjectIds never are).

What the handlers keep, which no schema checks:

- every message's reaction list is well formed (`Reactions.WellFormed`): emojis are unique,
  no entry is empty, and no user appears twice in an entry.

A connection is modelled by `Transport.Socket`, with its `data` and the set of rooms it belongs to.
Outgoing traffic is `Transport.Io.log`, an append-only sequence of emissions. Each emission records:

- the room;
- the event;
- the payload;
- whether the sending socket is excluded (`socket.to`) or included (`io.to`).

Each handler is a method whose postcondition states the whole new state of the store,
the socket and the log, and the acknowledgement it gives. The states are written in terms
of pure functions:

- `SendUpdate`, `ReadUpdate` and `MarkRead` for the conversation counters and read receipts;
- `Reactions.Toggled` for reactions;
- `GoOnline`/`GoOffline` for presence;
- `UserJoined`, `AdminJoined`, `Joined` and `Left` for a socket's session.

Lemmas about those functions and invariants state what the design promises:

- the unread counter counts exactly the other side's messages since one's last read;
- toggling a reaction twice restores it;
- cleaned fields are stable;
- every handler keeps the store valid.

Module layout, following the repository:

- `common`: options, roles, JavaScript truthiness.
- `strings`: whitespace trimming and ASCII lower-casing as the schema setters use them.
- `cors`: src/config/cors.ts.
- `auth`: src/middleware/auth.middleware.ts.
- Documents: `message_model`, `conversation_model`, `chat_user_model` (src/models).
- `socket_types`: src/types/socket.types.ts.
- `rooms`: the room-name conventions.
- `reactions`: the toggle at the heart of `message:react`.
- `database`: the document store.
- `transport`: socket and server.
- The handlers: `connection_handler`, `message_handler`, `typing_handler`, `disconnect_handler`.
- `socket_server`: src/socket/server.ts.

The clock, the id the database gives a new message, the JWT verifier and whether the
disconnect's write succeeds are parameters of the handlers.

## Model

| member | source | states |
|---|---|---|
| Common.Opposite | src/handlers/message.handler.ts:69 | the counter bumped on send (and the sender role matched on read, line 118) belongs to the other role, never the sender's |
| Common.OppositeInvolutive | src/handlers/message.handler.ts:69 | the other side of the other side is the original role |
| Strings.TrimShape | src/models/ChatUser.ts:22 | the trimmed value is a contiguous piece of the input that neither starts nor ends with whitespace, and everything cut away on either side is whitespace |
| Strings.TrimDropsWhitespace | src/models/ChatUser.ts:22 | what trim cuts away before and after the kept piece is all whitespace |
| Strings.TrimStartDropsWhitespace | src/models/ChatUser.ts:22 | only whitespace is cut from the front |
| Strings.TrimEndDropsWhitespace | src/models/ChatUser.ts:22 | only whitespace is cut from the back |
| Strings.TrimIdempotent | src/models/ChatUser.ts:22 | trimming a trimmed value changes nothing |
| Strings.TrimmedIff | src/models/ChatUser.ts:27 | a value is left alone by trim exactly when its ends are not whitespace |
| Strings.ToLowerIsLower | src/models/ChatUser.ts:26 | a lower-cased value has no upper-case letter left |
| Strings.LowerIff | src/models/ChatUser.ts:26 | a value is left alone by lower-casing exactly when it has no upper-case letter |
| Strings.ToLowerIdempotent | src/models/ChatUser.ts:26 | lower-casing twice is lower-casing once |
| Cors.CorsOrigin | src/config/cors.ts:26-38 | the callback gets `(null, true)` exactly for allowed origins and the "Not allowed by CORS" error exactly for refused ones |
| Cors.AbsentOriginAllowed | src/config/cors.ts:8 | a request with no (or an empty) origin is allowed whatever the configuration |
| Cors.ListedOriginAllowed | src/config/cors.ts:11-13 | every configured origin is allowed |
| Cors.VercelPreviewAllowed | src/config/cors.ts:16-18 | any host ending in `.vercel.app` is allowed whatever the configured list |
| Cors.AllowedIff | src/config/cors.ts:7-21 | allowed exactly when absent or empty, listed, or some host followed by `.vercel.app`; everything else is refused (line 20) |
| Cors.AllowedMonotone | src/config/cors.ts:7-21 | configuring more origins never refuses an origin that was allowed |
| Cors.RefusedExamples | src/config/cors.ts:16-20 | a look-alike host that only contains `.vercel.app`, and a listed origin with another scheme, are refused |
| Auth.ExtractBearerToken | src/middleware/auth.middleware.ts:32-39 | a token comes out exactly when the header is present and starts with `Bearer `; it is then the rest of the header |
| Auth.ExtractRoundTrip | src/middleware/auth.middleware.ts:35-38 | `Bearer ` followed by any token extracts to that token |
| Auth.ExtractInverse | src/middleware/auth.middleware.ts:35-38 | an extracted token with the prefix put back is the original header |
| Auth.ExtractRejectsVariants | src/middleware/auth.middleware.ts:35 | the scheme is case-sensitive and needs its space; a missing header gives nothing |
| MessageModel.CreateMessage | src/models/Message.ts:51-72 | a message is created exactly when the required fields are present and the content is at most 5000 characters and the media is complete; it then starts with no reactions, unread, undelivered and stamped with the creation time |
| MessageModel.ContentBound | src/models/Message.ts:65 | 5000 characters are accepted, 5001 and the empty content are refused |
| ConversationModel.CreateConversation | src/models/Conversation.ts:24-45 | a conversation needs its participant and starts with both counters 0, active and without a summary |
| ConversationModel.AtMostOneConversation | src/models/Conversation.ts:26-32 | under the unique index a guest has at most one conversation |
| ConversationModel.ParticipantsUniqueUpdate | src/models/Conversation.ts:30 | rewriting a conversation's other fields keeps the participant index satisfied |
| ChatUserModel.FirstAt | src/models/ChatUser.ts:28 | finds the first `@` at or after a position (or the end) |
| ChatUserModel.LastDot | src/models/ChatUser.ts:28 | finds the last `.` before a position (or -1) |
| ChatUserModel.MatchesEmailCorrect | src/models/ChatUser.ts:28 | the executable matcher accepts exactly the strings of `/^\S+@\S+\.\S+$/`: non-blank parts around an `@` and a later `.` |
| ChatUserModel.EmailExamples | src/models/ChatUser.ts:28 | `a@b.c` matches; an empty domain label, an empty local part and inner whitespace do not |
| ChatUserModel.CreateChatUser | src/models/ChatUser.ts:19-42 | a user is stored exactly when the trimmed name is 1..100 characters, the trimmed lower-cased email matches the pattern and the token is present; the stored fields are those cleaned values, offline, with no socket |
| ChatUserModel.LowerOfTrimmedLower | src/models/ChatUser.ts:26-27 | the cleaned email has no upper-case letter |
| ChatUserModel.StoredUserNormalised | src/models/ChatUser.ts:22-27 | re-applying the setters to a stored user changes nothing |
| ChatUserModel.TokenOwner | src/models/ChatUser.ts:31-36 | `findOne({ sessionToken })` gives a user holding that token, or none exactly when no user holds it |
| ChatUserModel.TokenOwnerUnique | src/models/ChatUser.ts:34 | under the unique index the owner found is the one user holding the token |
| ChatUserModel.TokensUniqueUpdate | src/models/ChatUser.ts:34 | updating a user without touching its token keeps the index satisfied |
| ChatUserModel.GoOnline | src/handlers/connection.handler.ts:45-48 | join marks the user online on the given socket at `now` and leaves the profile and validity alone |
| ChatUserModel.GoOffline | src/handlers/disconnect.handler.ts:30-35 | disconnect marks the user offline with no socket at `now` and leaves the profile and validity alone |
| ChatUserModel.OnlineThenOffline | src/handlers/disconnect.handler.ts:30-35 | going offline forgets any earlier join: the result is the same as going offline directly |
| SocketTypes.ServerEventNameInjective | src/types/socket.types.ts:96-116 | distinct server events have distinct names |
| Rooms.UserRoomInjective | src/socket/server.ts:160 | different users get different rooms |
| Rooms.ConversationRoomInjective | src/socket/server.ts:183 | different conversations get different rooms |
| Rooms.RoomFamiliesDisjoint | src/socket/server.ts:160-183 | user rooms, conversation rooms and `admin-room` never coincide |
| Reactions.FindEmoji | src/handlers/message.handler.ts:168-170 | `find` on the emoji: (the position of) the first entry with that emoji, or none exactly when no entry has it |
| Reactions.IndexOfUser | src/handlers/message.handler.ts:173-175 | `indexOf`: the first position of the user, or -1 exactly when absent |
| Reactions.Without | src/handlers/message.handler.ts:180-182 | `filter` drops every entry with the emoji and keeps only existing entries |
| Reactions.RemoveUserWellFormed | src/handlers/message.handler.ts:177-183 | removing a user keeps the list well formed; removing the last user removes the entry |
| Reactions.AddUserWellFormed | src/handlers/message.handler.ts:186 | adding a new user to an entry keeps the list well formed |
| Reactions.TogglePreservesWellFormed | src/handlers/message.handler.ts:168-194 | after a toggle, emojis are still unique, every entry has a user and no user twice |
| Reactions.ToggleFlips | src/handlers/message.handler.ts:168-194 | after a toggle the user has reacted with the emoji exactly when they had not before |
| Reactions.ToggleInvolution | src/handlers/message.handler.ts:168-194 | reacting and then reacting again with the same emoji restores the reactions exactly |
| Reactions.ToggleOthersUntouched | src/handlers/message.handler.ts:168-194 | a toggle never changes the entries of other emojis |
| Reactions.ToggleWhenReacted | src/handlers/message.handler.ts:177-183 | toggling an existing reaction removes just that user, and the entry if it was the only one |
| Reactions.ToggleValid | src/handlers/message.handler.ts:196 | the toggled list passes the schema validator exactly when the emoji is non-empty |
| Reactions.FindReaction | src/handlers/message.handler.ts:168-170 | the loop finds the same entry as `FindEmoji` |
| Reactions.IndexOf | src/handlers/message.handler.ts:173-175 | the loop finds the same position as `IndexOfUser` |
| Reactions.ToggleReaction | src/handlers/message.handler.ts:168-194 | the in-handler mutation computes `Toggled` |
| Reactions.Project | src/handlers/message.handler.ts:198-201 | each stored reaction goes out as one wire reaction, same emoji, `userIds` renamed `usersIds` |
| Reactions.ProjectRoundTrip | src/types/socket.types.ts:26-29 | the wire form loses nothing of the stored reactions |
| Database.Store.FindOneBySessionToken | src/handlers/connection.handler.ts:37 | the lookup finds the owner of the token, or nothing exactly when no user holds it |
| MessageHandler.SendUpdate | src/handlers/message.handler.ts:62-71 | send bumps the other role's counter by one, leaves the sender's alone and summarises the first 100 characters at the send time |
| MessageHandler.ReadUpdate | src/handlers/message.handler.ts:125-127 | read zeroes the reader's counter and leaves the other counter and the summary alone |
| MessageHandler.ReplayAppend | src/handlers/message.handler.ts:62-127 | replaying a history in two pieces is replaying it whole |
| MessageHandler.UnreadCountsSends | src/handlers/message.handler.ts:62-127 | with no read by `r`, `r`'s counter grows by exactly the number of messages the other side sent |
| MessageHandler.UnreadSinceLastRead | src/handlers/message.handler.ts:62-127 | a counter equals the number of messages from the other side since its owner's last read |
| MessageHandler.ReadsKeepSummary | src/handlers/message.handler.ts:125-127 | reads never change the conversation's summary |
| MessageHandler.LatestSendSummarised | src/handlers/message.handler.ts:62-67 | the summary is always the latest message sent: its first 100 characters, time and role |
| MessageHandler.MarkRead | src/handlers/message.handler.ts:115-122 | `updateMany` touches no document ids |
| MessageHandler.MarkReadEffect | src/handlers/message.handler.ts:115-122 | exactly the unread messages of that conversation from the other side get `readAt` and `updatedAt` set to now and keep every other field; the rest are untouched; afterwards none of them awaits a read |
| MessageHandler.MarkReadIdempotent | src/handlers/message.handler.ts:115-122 | a second read marks nothing further |
| MessageHandler.MarkReadKeepsStored | src/handlers/message.handler.ts:115-122 | marking as read keeps stored messages valid |
| MessageHandler.SendFanOut | src/handlers/message.handler.ts:85-93 | a message goes to its conversation room (sender included), and a guest's message also goes to the admin room without the sender |
| MessageHandler.HandleMessageSend | src/handlers/message.handler.ts:35-101 | "Not authenticated" without identity; "Failed to send message" and no change when the document is invalid; otherwise the message is stored, the conversation (if any) gets `SendUpdate`, the fan-out is logged and the ack carries the projection; the store stays valid |
| MessageHandler.HandleMessageRead | src/handlers/message.handler.ts:106-140 | nothing without identity; otherwise `MarkRead` on messages, `ReadUpdate` on the conversation if present and a read receipt to the conversation room; the store stays valid |
| MessageHandler.HandleMessageReact | src/handlers/message.handler.ts:145-217 | "Not authenticated", "Message not found", "Failed to add reaction" (empty emoji) with no change; otherwise the reactions become `Toggled`, the update goes to the conversation room and the ack carries non-empty wire reactions |
| ConnectionHandler.UserJoined | src/handlers/connection.handler.ts:51-56 | the socket becomes that guest with that token, keeps its conversation and gains exactly the guest's room |
| ConnectionHandler.AdminIdentity | src/handlers/connection.handler.ts:98 | the admin's id is the token's subject when it has one, otherwise "admin"; never empty |
| ConnectionHandler.AdminJoined | src/handlers/connection.handler.ts:98-102 | the socket becomes an admin, keeps its token and conversation and gains exactly the admin room |
| ConnectionHandler.Joined | src/handlers/connection.handler.ts:119-120 | joining adds exactly the conversation's room and makes it current; nothing else of the data changes |
| ConnectionHandler.Left | src/handlers/connection.handler.ts:131-132 | leaving removes exactly that room and clears the current conversation |
| ConnectionHandler.UserJoinAuthenticates | src/handlers/connection.handler.ts:51 | after a join the later handlers' guard lets the socket through exactly when the id is non-empty |
| ConnectionHandler.AdminJoinAuthenticates | src/handlers/connection.handler.ts:98 | after admin join the guard always lets the socket through |
| ConnectionHandler.JoinIdempotent | src/handlers/connection.handler.ts:119-120 | joining the same conversation twice is joining it once |
| ConnectionHandler.JoinKeepsEarlierRooms | src/handlers/connection.handler.ts:119-120 | joining a second conversation keeps the first room but makes the second current |
| ConnectionHandler.LeaveUndoesJoin | src/handlers/connection.handler.ts:127-134 | leaving a conversation just joined drops its room and the current conversation |
| ConnectionHandler.LeaveOtherForgetsCurrent | src/handlers/connection.handler.ts:131-132 | leaving another conversation still clears the current one but keeps its room |
| ConnectionHandler.HandleUserJoin | src/handlers/connection.handler.ts:27-78 | "Invalid session token" with no change when no user holds it; otherwise the user goes online, the socket joins the user's room, admins (except the joiner) hear `user:online`, and the ack carries the public snapshot; the store stays valid |
| ConnectionHandler.HandleAdminJoin | src/handlers/connection.handler.ts:83-110 | "Invalid or expired token" with no change when verification fails; otherwise the socket becomes an admin in the admin room |
| ConnectionHandler.HandleConversationJoin | src/handlers/connection.handler.ts:115-122 | the socket's session becomes `Joined` |
| ConnectionHandler.HandleConversationLeave | src/handlers/connection.handler.ts:127-134 | the socket's session becomes `Left` |
| DisconnectHandler.OfflineNotice | src/handlers/disconnect.handler.ts:38-41 | `user:offline` for that user at the disconnect time, to the admin room, without the sender |
| DisconnectHandler.Disconnected | src/handlers/disconnect.handler.ts:30-35 | only the leaving user changes, and it goes offline |
| DisconnectHandler.DisconnectedKeepsUsersValid | src/handlers/disconnect.handler.ts:30-35 | marking a user offline keeps every user valid and the token index satisfied |
| DisconnectHandler.HandleDisconnect | src/handlers/disconnect.handler.ts:25-48 | admins and anonymous sockets change nothing; a guest goes offline and admins hear `user:offline`; a failed write changes nothing and emits nothing |
| TypingHandler.TypingName | src/handlers/typing.handler.ts:36-41 | the shown name is never empty: "Admin" for admins, the stored name, or "User" |
| TypingHandler.TypingStartEmission | src/handlers/typing.handler.ts:24-44 | an indicator goes out exactly for authenticated sockets, to the conversation room without the sender, naming the typist |
| TypingHandler.TypingStopEmission | src/handlers/typing.handler.ts:49-60 | a stop goes out exactly for authenticated sockets, to the conversation room without the sender, with an empty name |
| TypingHandler.StartStopPaired | src/handlers/typing.handler.ts:43-59 | start and stop of one socket go to the same room, excluding the same socket, about the same conversation and typist |
| TypingHandler.HandleTypingStart | src/handlers/typing.handler.ts:24-44 | the log grows by the start emission, if any |
| TypingHandler.HandleTypingStop | src/handlers/typing.handler.ts:49-60 | the log grows by the stop emission, if any |
| SocketServer.SocketModule.constructor | src/socket/server.ts:41 | the module starts with no server |
| SocketServer.SocketModule.InitSocketServer | src/socket/server.ts:47-72 | a second call returns the existing server; the first creates a fresh one with nothing sent |
| SocketServer.SocketModule.GetIO | src/socket/server.ts:78-80 | returns the current server (or none) |
| SocketServer.SocketModule.EmitToUser | src/socket/server.ts:155-161 | with a server, one emission to the user's room reaching every member; otherwise nothing |
| SocketServer.SocketModule.EmitToAdmins | src/socket/server.ts:167-172 | with a server, one emission to the literal `admin-room`; otherwise nothing |
| SocketServer.SocketModule.EmitToConversation | src/socket/server.ts:178-184 | with a server, one emission to the conversation's room; otherwise nothing |
| SocketServer.HandleConnection | src/socket/server.ts:86-93 | a new socket is an anonymous guest in its own room only |
| SocketServer.Route | src/socket/server.ts:95-148 | an event name routes only to the handler registered under that name |
| SocketServer.RouteRoundTrip | src/socket/server.ts:95-148 | every handler is reachable under exactly one name |
| SocketServer.Dispatch | src/socket/server.ts:95-148 | every client event is the one registered under its handler's name and has exactly the effect its handler states on the store, the socket's session and the log, and gets that handler's answer; an answer comes back exactly for the events with a callback; only join and leave events change the session; the store stays valid |

## Left out

- I/O: logging (`console.log`/`console.error`), the HTTP server, and socket.io's transports, pings and delivery.
  An emission is recorded in `Io.log`; who receives it is not modelled.
- Concurrency: each handler is one atomic step with one `now`.
  The interleaving of `await`s between concurrent events (two reacts racing on one message, say) is not modelled.
- Database failures: the catch paths for an unreachable database are left out
  ("Failed to join", "Failed to join as admin", the read handler's catch, and a send or react that fails after validation).
  `HandleDisconnect` is the exception: its failing write is the `updateSucceeds` parameter.
- Invalid documents: `HandleMessageSend` and `HandleMessageReact` model the catch path as schema validation failure.
- Ids: ObjectId casting is not modelled. Ids are plain strings.
  A conversation id that does not name a conversation makes `findByIdAndUpdate` a no-op, as in MongoDB.
  A malformed ObjectId that would throw a CastError is not distinguished.
- MessageModel.Media: `size` is an integer, where the schema's `Number` (src/models/Message.ts:11, 46; src/types/socket.types.ts:23) may be fractional; nothing in the core computes with it.
- Message ids: `Dispatch` and `HandleMessageSend` take the id the database would give the new message as `newId`, required fresh and non-empty.
- Strings: lower-casing covers ASCII letters only, and trimming uses the JavaScript `\s` class.
  A Dafny `string` is a sequence of Unicode scalar values, so every length in the model counts code points, where JavaScript counts UTF-16 code units.
  The two agree for text in the Basic Multilingual Plane; a character outside it (an emoji such as U+1F600) is one code point but two code units.
- MessageModel.CreateMessage: the 5000-character `maxlength` is counted in code points, so content of 3000 emoji outside the Basic Multilingual Plane (6000 code units) is accepted by the model but refused by the schema, where the handler answers "Failed to send message".
- ChatUserModel.CreateChatUser: the 100-character `maxlength` on the name is counted in code points, so a name of more than 50 such emoji may be accepted by the model and refused by the schema.
- MessageHandler.SendUpdate: the summary keeps the first 100 code points, where `substring(0, 100)` keeps 100 code units and may split a surrogate pair; the two differ only when the content has characters outside the Basic Multilingual Plane.
  Unicode case mapping is not modelled.
- JWT: signature checking and expiry are the `verify` function parameter (`verifyToken`, src/middleware/auth.middleware.ts:19-27).
- `ADMIN_ROOM`: src/socket/constants.ts is not part of this model.
  Its value is the opaque `Io.adminRoom`. `emitToAdmins` uses the literal `admin-room`, so the two may differ.
- Room cleanup: socket.io's automatic removal of a disconnecting socket from its rooms is not modelled.
- Indexes: query-speed indexes (src/models/Message.ts:74-78, src/models/Conversation.ts:47-49, and the non-unique email index at src/models/ChatUser.ts:45) are not modelled.
  The unique indexes are the `TokensUnique` and `ParticipantsUnique` parts of `Store.Valid()`.
- Configuration: parsing the environment (src/config/env.ts), the start-up in src/index.ts, and the connection in src/config/database.ts are left out.
  The CORS origin list is the `origins` parameter, the comma-split trimmed `CORS_ORIGIN` (src/config/env.ts:52).
- Conversation events: `conversation:new`/`conversation:update` are never emitted by the core; they appear only as event names.
