# Pet social network: chat relay, moderation rules and client chat/feed state in Dafny

This project models the parts of the pet-care social network that make
decisions or update state step by step:

- **Socket server** (`socket_server.dfy`, module `SocketServer`): the
  module-level socket.io handle (`initSocket` / `getIO`), the room names
  `user_<id>` and `conversation_<id>`, and the per-connection handlers
  `joinUser`, `joinConversation`, `sendMessage`, `typing` and `disconnect`.
  socket.io's room table is a `map<Room, set<SocketId>>` held by the `Io`
  object; handlers that emit return the recipients and the event they receive.
- **AI service rules** (`ai_service.dfy`, module `AiService`, over the
  Python string helpers in `py_text.dfy`): the pet-care chat bot's reply choice
  and content moderation in both modes — keyword simulation, and classifier
  mode over the classifier's (label, score) output.
- **Chat window state** (`chat_window.dfy`, module `ChatClient`, over the
  JavaScript `trim` model in `js_text.dfy`): the message list, the typing
  indicator list with its delayed clear (a timer firing is an explicit step),
  the draft, and the socket events the component emits.
- **Post feed state** (`post_feed.dfy`, module `FeedClient`): loading, the
  newest-first list, and the local effect of a like.

Shared types: `wrappers.dfy` (Option, Result, and `HttpOutcome`, the
success/failure outcome of one HTTP request) and `events.dfy` (the socket
events and their payload fields, shared by client and server).

The server code names rooms `user_<id>` and `conversation_<id>`; relays
`sendMessage` without checking that the sender joined the room; leaves
per-participant notification as an unimplemented stub; keeps no server-side
typing state (the only typing expiry is the client's 2-second clear); and its
disconnect handler only logs, so no room table entry is removed by the code
itself. The model states each of these as the code has it.

## Model

| member | source | states |
|---|---|---|
| `SocketServer.UserRoomInjective` | backend/src/socket/socket.js:18 | two users with the same personal room name are the same user |
| `SocketServer.ConversationRoomInjective` | backend/src/socket/socket.js:23 | two conversations with the same room name are the same conversation |
| `SocketServer.RoomKindsDisjoint` | backend/src/socket/socket.js:17-24 | no personal room name equals any conversation room name, because the prefixes differ |
| `SocketServer.Join` | backend/src/socket/socket.js:18 | `socket.join`: the joined room gains exactly the socket, every other room keeps its members |
| `SocketServer.JoinUserKeepsConversations` | backend/src/socket/socket.js:17-19 | joining a personal room leaves every conversation room's membership unchanged |
| `SocketServer.JoinConversationKeepsOthers` | backend/src/socket/socket.js:22-24 | joining one conversation leaves every other conversation room's membership unchanged |
| `SocketServer.Io.constructor` | backend/src/socket/socket.js:6-11 | a new socket.io server is bound to the given HTTP server and has no rooms |
| `SocketServer.Io.JoinUser` | backend/src/socket/socket.js:17-19 | the socket is in `user_<id>` afterwards; no conversation room changes |
| `SocketServer.Io.JoinConversation` | backend/src/socket/socket.js:22-24 | the socket is in `conversation_<id>` afterwards; no personal room changes |
| `SocketServer.Io.SendMessage` | backend/src/socket/socket.js:27-38 | recipients are exactly the current members of the conversation room, the sender included if it joined, with no membership check; payload echoes conversationId and message; rooms unchanged |
| `SocketServer.Io.Typing` | backend/src/socket/socket.js:41-46 | recipients are the conversation room's members minus the sending socket; payload echoes userId and conversationId |
| `SocketServer.Io.Disconnect` | backend/src/socket/socket.js:48-50 | the room table is unchanged |
| `SocketServer.Io.Handle` | backend/src/socket/socket.js:13-51 | each of the four client-emitted events and the transport's disconnect reaches its handler: joins update the table and emit nothing, message and typing events emit as above and leave the table alone, disconnect emits nothing and leaves the table alone |
| `SocketServer.SocketModule.constructor` | backend/src/socket/socket.js:3 | the module starts with no socket.io handle |
| `SocketServer.SocketModule.InitSocket` | backend/src/socket/socket.js:5-11 | stores a fresh handle with no rooms as the module's handle and returns that same handle |
| `SocketServer.SocketModule.GetIO` | backend/src/socket/socket.js:56-61 | fails with "not initialized" exactly when no handle is stored, otherwise returns the stored handle |
| `SocketServer.LifecycleScenario` | backend/src/socket/socket.js:53-61 | `getIO` fails before `initSocket` and afterwards returns the object `initSocket` returned |
| `PyText.Lower` | ai-service/app/main.py:91 | lower-casing keeps the length, maps each ASCII capital to its small letter and the KELVIN SIGN to `k`, and leaves other characters alone |
| `AiService.KelvinSignCompletesAttack` | ai-service/app/main.py:87-93 | "ATTAC" followed by a KELVIN SIGN contains an inappropriate word once lower-cased |
| `PyText.ContainsIff` | ai-service/app/main.py:57 | the substring test holds exactly when some start position of the text holds the keyword |
| `AiService.PyMod` | ai-service/app/main.py:67-70 | `hash(message) % 4` is within 0..3 whatever the hash, so the reply lookup is in bounds |
| `AiService.ChatWithAi` | ai-service/app/main.py:55-79 | the reply is one of the four pet-care replies iff some pet keyword is in the lower-cased message, otherwise the fixed fallback; always marked AI-generated |
| `AiService.ModerateSimulated` | ai-service/app/main.py:85-100 | flags are empty or exactly ["inappropriate"]; approved iff no listed word is in the lower-cased text iff no flags; confidence 0.9 approved, 0.8 flagged; suggestion present iff approved |
| `AiService.FlaggedMembers` | ai-service/app/main.py:111-114 | a label is flagged iff it is not "safe" and some classifier entry carries it with a score above 0.7 |
| `AiService.FlaggedNeverSafe` | ai-service/app/main.py:116 | "safe" is never among the flags, so the `"safe" in flags` disjunct of approval is dead |
| `AiService.FlagNames` | ai-service/app/main.py:111-114 | maps a list of labels to the label strings the service writes, one name per label, in order |
| `AiService.SafeNameIffSafe` | ai-service/app/main.py:116 | the string test `"safe" in flags` holds exactly when the label `safe` is among the flags |
| `AiService.MaxScore` | ai-service/app/main.py:121 | the confidence is a classifier score and no score exceeds it |
| `AiService.ModerateClassified` | ai-service/app/main.py:102-123 | flags are the above-threshold non-safe labels in classifier order; approved iff no flags; confidence is the highest score; suggestion present iff not approved; an empty score list is an error |
| `AiService.ModerateContent` | ai-service/app/main.py:82-123 | without a classifier: approved iff no listed word occurs, flags empty or exactly ["inappropriate"] (as strings too), confidence 0.9/0.8, the friendly suggestion iff approved; with one: flags are the raised labels, confidence the highest score, the community suggestion iff rejected, error on empty output; in both, approved iff no flags |
| `JsText.TrimStart` | frontend/src/components/ChatWindow.js:53 | the result is a suffix, everything dropped is whitespace, and it does not start with whitespace |
| `JsText.TrimEnd` | frontend/src/components/ChatWindow.js:53 | the result is a prefix, everything dropped is whitespace, and it does not end with whitespace |
| `JsText.TrimEmptyIff` | frontend/src/components/ChatWindow.js:53 | `!draft.trim()` holds exactly for drafts made only of whitespace, the empty one included |
| `ChatClient.WithoutContents` | frontend/src/components/ChatWindow.js:47 | the filter removes every occurrence of the user id and keeps each other entry as often as before |
| `ChatClient.WithoutAppend` | frontend/src/components/ChatWindow.js:47 | the filter distributes over concatenation, so the remaining entries keep their order |
| `ChatClient.ExpiryClearsLaterEntries` | frontend/src/components/ChatWindow.js:45-48 | one expiry also clears the user's entries added by later typing events, leaving other users' entries in order |
| `ChatClient.ChatWindow.constructor` | frontend/src/components/ChatWindow.js:7-9 | the window starts with no messages, an empty draft and no typing users |
| `ChatClient.ChatWindow.FetchMessages` | frontend/src/components/ChatWindow.js:28-36 | a successful fetch replaces the messages, a failed one leaves them; nothing else changes |
| `ChatClient.ChatWindow.Mount` | frontend/src/components/ChatWindow.js:13-26 | with a conversation id the messages are fetched and 'joinConversation' is emitted; without one nothing happens |
| `ChatClient.ChatWindow.ChangeConversation` | frontend/src/components/ChatWindow.js:13-26 | a render with the same conversation id does nothing; a different, non-empty id makes the effect run again, refetching the messages and emitting 'joinConversation' for it; the typing list, pending clears and draft carry over, and no room is left |
| `ChatClient.ChatWindow.HandleNewMessage` | frontend/src/components/ChatWindow.js:38-41 | exactly one message is appended at the end, earlier messages unchanged |
| `ChatClient.ChatWindow.HandleUserTyping` | frontend/src/components/ChatWindow.js:43-48 | the user id is appended to the typing list and a clear for it is scheduled |
| `ChatClient.ChatWindow.FireTypingTimeout` | frontend/src/components/ChatWindow.js:46-48 | the earliest pending clear removes every entry of its user, keeps the rest in order, and every shown indicator still has a pending clear |
| `ChatClient.ChatWindow.SendMessage` | frontend/src/components/ChatWindow.js:51-69 | a blank draft makes no request and no emit; otherwise the draft is posted, and on success 'sendMessage' carries the server's message and the draft is cleared, on failure nothing is emitted and the draft is kept |
| `ChatClient.ChatWindow.ChangeInput` | frontend/src/components/ChatWindow.js:108-111 | every input change sets the draft and emits 'typing' for the current user, with no debouncing |
| `ChatClient.TypingExpiryScenario` | frontend/src/components/ChatWindow.js:43-49 | after two typing events from one user and one expiry, no indicator is shown while one clear is still pending |
| `FeedClient.WithLike` | frontend/src/components/PostFeed.js:33-37 | length and order are kept; posts with another id are identical; a matching post gains one like by the current user at the end, its other fields unchanged |
| `FeedClient.LikeTwice` | frontend/src/components/PostFeed.js:35 | there is no check for an existing like: liking twice adds two likes |
| `FeedClient.LikeUnknownPost` | frontend/src/components/PostFeed.js:33-37 | liking an id no post has leaves the list unchanged |
| `FeedClient.PostFeed.constructor` | frontend/src/components/PostFeed.js:8-9 | the feed starts empty and loading |
| `FeedClient.PostFeed.FetchPosts` | frontend/src/components/PostFeed.js:15-24 | loading always ends; success replaces the list wholesale, failure leaves it untouched |
| `FeedClient.PostFeed.HandleNewPost` | frontend/src/components/PostFeed.js:26-28 | the new post comes first, followed by all previous posts in their order |
| `FeedClient.PostFeed.HandleLike` | frontend/src/components/PostFeed.js:30-41 | on success the list becomes the liked list, same length, other posts unchanged; on failure the list is unchanged |

## Left out

- Socket payloads are taken as well-formed records of string ids: a 'sendMessage' or 'typing' event without a payload makes the handler throw when it reads the payload's fields (backend/src/socket/socket.js:28 and :42), and an id of another type is converted to a string by the template literals that build room names (so `5` and `"5"` name the same room); neither is modelled.

- socket.io internals: CORS options, the transport, connection acceptance, and the library's own removal of a closed socket from its rooms; the room table changes only through the handlers' `socket.join`.
- Logging (`console.log`, `console.error`) in every file, since it has no effect on state.
- The "notify participants" part of `sendMessage`, because the source leaves it as a stub comment.
- The FastAPI/uvicorn wiring, CORS, `health_check` and the sentiment analyser, which decide nothing.
- The Hugging Face classifier itself: its output for the text is an input of `ModerateContent`, one (label, score) pair per label, so `zip` truncation of unequal label and score lists does not arise.
- Whether the models loaded is an input (`classifierOutput` is `None` in simulation mode) rather than start-up state.
- Python's string `hash`, a randomised function passed in as a parameter; only the bound of the reply index is proved.
- The `timestamp` field of chat replies, because it comes from the clock.
- PyText.Lower: keeps every character other than the ASCII capitals and the KELVIN SIGN, where Python's `str.lower()` also lower-cases other non-ASCII letters; those become non-ASCII characters (U+0130 becomes `i` followed by a combining dot), so no listed keyword, all of them ASCII and none ending in `i`, is found or missed because of this.
- JSX rendering, framer-motion animation and `scrollToBottom`.
- The wall-clock 2-second delay of the typing clear; a timer firing is the explicit step `FireTypingTimeout`, and timers fire in the order they were set because they all share one delay.
- Registration and removal of the chat window's socket listeners (`socket.on` / `socket.off`); the handlers are methods called directly.
- Interleaving of asynchronous work: each handler runs to completion, so stale captured state is not modelled (`handleLike` mapping over an outdated `posts`, `sendMessage` clearing a draft edited during the request).
- HTTP calls, modelled as success/failure outcomes; the fetched message list is applied at mount time rather than when the request resolves.
- Post fields the feed never reads or changes (media, comments, moderation flags, dates), and the Mongoose schema.
