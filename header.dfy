/** The bar above the chat: the error alert and the buttons that start a new session. */
module ChatHeader {
  import opened Common

  /** What the header draws: the alert text, and whether "New chat" and "Reset" are shown. */
  datatype HeaderView = HeaderView(alert: Option<string>, newChat: bool, reset: bool)

  /**
   * `Header`: an error is shown as an alert with a "Reset" button in place of "New chat";
   * without one, "New chat" follows `showNew`.
   */
  function Header(error: Option<string>, showNew: bool): HeaderView {
    if error.Some? then HeaderView(Some("Error: " + error.value), false, true)
    else HeaderView(None, showNew, false)
  }
}
