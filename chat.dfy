/** The chat vocabulary shared by the view model and the chat client
    (`ChatRole` and the text view of `ChatMessage` / `UiChatMessage`). */
module Chat {

  /** The chat roles the application uses. */
  datatype Role = System | User | Assistant | Tool

  /** A message of the conversation: its role and its (streaming) text. */
  datatype Message = Message(role: Role, text: string)
}
