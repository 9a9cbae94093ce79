/**
 * The chat session screen: what it derives from the history and the round state, and how it
 * starts chat rounds. The round itself, the approver and the browser-side interpreter client are
 * not part of this model; a round is recorded by what it is constructed with.
 */
module Session {
  import opened Common
  import opened Messages
  import Authentication
  import ChatInput
  import InterpreterIO
  import ChatHistory
  import ChatHeader

  /** The round states the screen reacts to. */
  datatype RoundState = NotActive | WaitingForModel | WaitingForInterpreter

  /** `history.findLast(msg => msg.code !== undefined)?.code ?? null`. */
  function LastCode(history: seq<Message>): (r: Option<string>)
    ensures r.Some? <==> exists i :: 0 <= i < |history| && history[i].code.Some?
    ensures r.Some? ==>
      exists i :: (0 <= i < |history| && history[i].code == r
        && forall j :: i < j < |history| ==> history[j].code.None?)
  {
    if history == [] then None
    else if history[|history| - 1].code.Some? then history[|history| - 1].code
    else
      var r := LastCode(history[..|history| - 1]);
      assert forall i :: 0 <= i < |history| - 1 ==> history[..|history| - 1][i] == history[i];
      r
  }

  /** The chat input is disabled while a round runs or an error is shown. */
  predicate InputDisabled(state: RoundState, error: Option<string>) {
    state != NotActive || error.Some?
  }

  /** The history shows the thinking indicator while the model is answering. */
  predicate Thinking(state: RoundState) {
    state == WaitingForModel
  }

  /** The result panel shows the running indicator while the interpreter works. */
  predicate ResultBusy(state: RoundState) {
    state == WaitingForInterpreter
  }

  /** The session asks the header to offer "New chat" once there is a history (`NewChatOffered`). */
  predicate ShowNew(history: seq<Message>) {
    |history| > 0
  }

  /**
   * Thinking and a busy result panel never coincide; nothing can be sent while either shows or
   * while an error is shown; and sending is possible exactly when idle, error-free and non-empty.
   */
  lemma NoSendWhileBusy(state: RoundState, error: Option<string>, message: string)
    ensures !(Thinking(state) && ResultBusy(state))
    ensures Thinking(state) || ResultBusy(state) || error.Some? ==> !ChatInput.CanSend(InputDisabled(state, error), message)
    ensures ChatInput.CanSend(InputDisabled(state, error), message) <==> state == NotActive && error.None? && message != ""
  {
  }

  /**
   * The header offers "New chat" exactly when there is a history and no error, and "Reset" exactly
   * while an error is shown; the two never appear together, and one of them is offered exactly
   * when there is something to discard. A history with code and no error always offers "New chat".
   */
  lemma NewChatOffered(history: seq<Message>, error: Option<string>)
    ensures var h := ChatHeader.Header(error, ShowNew(history));
      && (h.newChat <==> history != [] && error.None?)
      && (h.reset <==> error.Some?)
      && (h.alert.Some? <==> error.Some?)
      && !(h.newChat && h.reset)
      && (h.newChat || h.reset <==> history != [] || error.Some?)
    ensures LastCode(history).Some? && error.None? ==> ChatHeader.Header(error, ShowNew(history)).newChat
  {
  }

  /**
   * The history (drawn only when non-empty) shows the thinking indicator exactly while the round
   * waits for the model and the history ends with a model message.
   */
  lemma ThinkingIndicatorShown(state: RoundState, history: seq<Message>)
    ensures var f := ChatHistory.HistoryFiltered(history, Thinking(state));
      (history != [] && exists idx :: 0 <= idx < |f| && ChatHistory.ShowsThinking(f, Thinking(state), idx))
      <==> (state == WaitingForModel && history != [] && history[|history| - 1].role == Model)
  {
    ChatHistory.ThinkingIndicator(history, Thinking(state));
  }

  /** The code panel is always highlighted as R, whatever the interpreter type; the result panel as text. */
  lemma PanelLanguages(interpreterType: string)
    ensures InterpreterIO.Language(Some("r"), interpreterType) == "r"
    ensures InterpreterIO.Language(Some("text"), interpreterType) == "text"
  {
  }

  /** A round, recorded by what it is constructed with and the message it runs. */
  datatype ChatRound = ChatRound(history: seq<Message>, interpreter: nat, authToken: string, message: string)

  class Session {
    var history: seq<Message>
    var error: Option<string>
    var showIO: bool
    var state: RoundState
    var codeResult: Option<string>
    /** `interpreterRef.current`: the interpreter client, by creation number. */
    var interpreter: Option<nat>
    var interpretersCreated: nat
    var rounds: seq<ChatRound>

    /** At most one interpreter client exists, and every round is given that one. */
    ghost predicate Valid()
      reads this
    {
      interpretersCreated <= 1
      && (interpreter.Some? <==> interpretersCreated == 1)
      && (interpreter.Some? ==> interpreter.value == 1)
      && forall i :: 0 <= i < |rounds| ==> interpreter.Some? && rounds[i].interpreter == interpreter.value
    }

    constructor()
      ensures Valid()
      ensures history == [] && error == None && !showIO && state == NotActive && codeResult == None
      ensures interpreter == None && rounds == []
    {
      history, error, showIO, state, codeResult := [], None, false, NotActive, None;
      interpreter, interpretersCreated, rounds := None, 0, [];
    }

    /**
     * A render: the interpreter client is created on the first one only, and the IO panel opens
     * once some message carries code.
     */
    method Render()
      requires Valid()
      modifies this`interpreter, this`interpretersCreated, this`showIO
      ensures Valid()
      ensures interpreter.Some? && interpretersCreated == 1
      ensures old(interpreter).Some? ==> interpreter == old(interpreter)
      ensures showIO == (old(showIO) || LastCode(history).Some?)
    {
      if interpreter.None? {
        interpretersCreated := interpretersCreated + 1;
        interpreter := Some(interpretersCreated);
      }
      if LastCode(history).Some? {
        showIO := true;
      }
    }

    /** `startChatRound`: without a token the error is set and no round starts. */
    method StartChatRound(message: string, authToken: Option<string>)
      requires Valid() && interpreter.Some?
      modifies this`error, this`rounds
      ensures Valid()
      ensures authToken.None? ==> error == Some(Authentication.AuthErrorMsg) && rounds == old(rounds)
      ensures authToken.Some? ==>
        (error == old(error)
         && rounds == old(rounds) + [ChatRound(history, interpreter.value, authToken.value, message)])
    {
      if authToken.None? {
        error := Some(Authentication.AuthErrorMsg);
        return;
      }
      rounds := rounds + [ChatRound(history, interpreter.value, authToken.value, message)];
    }

    /** A round's run was rejected: its message becomes the session error. */
    method RoundFailed(message: string)
      modifies this`error
      ensures error == Some(message)
    {
      error := Some(message);
    }

    /** Clicking the IO panel opens it. */
    method OpenIOPanel()
      modifies this`showIO
      ensures showIO
    {
      showIO := true;
    }
  }
}
