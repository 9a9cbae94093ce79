/** The chat message shown by the web app: who wrote it, its text and the code it proposes. */
module Messages {
  import opened Common

  datatype Role = User | Model

  /** A message; `text` and `code` are `undefined` until the model has produced them. */
  datatype Message = Message(role: Role, text: Option<string>, code: Option<string>)
}
