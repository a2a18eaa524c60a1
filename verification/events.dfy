/** The socket.io events exchanged between the browser client and the chat
    server, with the payload fields each event carries. */
module Events {

  /** A chat message as stored by the server and relayed unchanged by the socket layer. */
  datatype ChatMessage = ChatMessage(id: string, senderId: string, content: string, createdAt: string)

  /** Events a client emits to the server. */
  datatype ClientEvent =
    | JoinUser(userId: string)
    | JoinConversation(conversationId: string)
    | SendMessage(conversationId: string, message: ChatMessage)
    | Typing(conversationId: string, userId: string)

  /** Events the server emits to clients. */
  datatype ServerEvent =
    | NewMessage(conversationId: string, message: ChatMessage)
    | UserTyping(userId: string, conversationId: string)
}
