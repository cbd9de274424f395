/** The `{ type, text }` message object the React pages keep in their state and render as an alert. */
module Ui {

  datatype Message = Message(kind: string, text: string)

  /** `{ type: '', text: '' }`: no alert is shown. */
  const NoMessage := Message("", "")

  function ErrorMessage(text: string): Message { Message("error", text) }
}
