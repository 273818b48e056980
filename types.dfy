/**
 * The values shared by the chat page and its relay route: the two message
 * roles, a message, a conversation's metadata, and the fixed texts the page
 * writes into its state.
 */
module ChatTypes {

  datatype Option<T> = None | Some(value: T)

  /** The closed set of roles a message can carry. */
  datatype Role = User | Assistant

  /** One entry of a transcript. */
  datatype Message = Message(role: Role, content: string)

  /** A conversation's sidebar entry; its transcript is kept apart, keyed by `id`. */
  datatype Conversation = Conversation(id: int, title: string, timestamp: string)

  const NewChatTitle: string := "New Chat"
  const NewChatTimestamp: string := "Just now"

  /** The assistant message that replaces the reply when a send fails. */
  const ErrorReply: string := "Sorry, there was an error processing your request. Please try again."
}
