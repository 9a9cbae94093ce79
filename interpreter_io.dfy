/**
 * One interpreter panel (the code panel or the result panel): its highlighting language, its
 * content, and the approval controls that forward to the approver.
 */
module InterpreterIO {
  import opened Common

  /** `NEXT_PUBLIC_INTERPRETER_TYPE?.toLowerCase() || "r"`. */
  function InterpreterType(env: Option<string>): (t: string)
    ensures t != ""
    ensures env.Some? && env.value != "" ==> t == Lower(env.value)
    ensures env.None? || env.value == "" ==> t == "r"
  {
    var lowered := if env.Some? then Lower(env.value) else "";
    if lowered != "" then lowered else "r"
  }

  /** `providedLanguage || (INTERPRETER_TYPE === "r" ? "r" : "python")`. */
  function Language(provided: Option<string>, interpreterType: string): (l: string)
    ensures provided.Some? && provided.value != "" ==> l == provided.value
    ensures provided.None? || provided.value == "" ==> (l == "r" <==> interpreterType == "r")
    ensures provided.None? || provided.value == "" ==> l == "r" || l == "python"
  {
    if provided.Some? && provided.value != "" then provided.value
    else if interpreterType == "r" then "r" else "python"
  }

  /** Reject and Approve are clickable only while approval is asked and the panel is enabled. */
  predicate DecisionEnabled(askApprove: bool, disabled: bool) {
    askApprove && !disabled
  }

  /** The card border is red while approval is asked. */
  predicate BorderDestructive(askApprove: bool) {
    askApprove
  }

  datatype Control = RejectButton | ApproveButton | AutoApproveBox(checked: bool)

  /** What the approver is told. */
  datatype ApproverCall = Approve(approved: bool) | SetAutoApprove(autoApprove: bool)

  /** Clicking a control: a disabled control does nothing. */
  function Click(control: Control, askApprove: bool, disabled: bool): Option<ApproverCall> {
    match control
    case RejectButton => if DecisionEnabled(askApprove, disabled) then Some(Approve(false)) else None
    case ApproveButton => if DecisionEnabled(askApprove, disabled) then Some(Approve(true)) else None
    case AutoApproveBox(checked) => if !disabled then Some(SetAutoApprove(checked)) else None
  }

  /**
   * Reject approves `false` and Approve approves `true`, both only while approval is asked and the
   * panel is enabled; the checkbox forwards its value whenever the panel is enabled. A decision
   * can only be made while the border is red.
   */
  lemma ClickSpec(control: Control, askApprove: bool, disabled: bool)
    ensures control.RejectButton? || control.ApproveButton? ==>
      (Click(control, askApprove, disabled).Some? <==> askApprove && !disabled)
    ensures Click(RejectButton, askApprove, disabled).Some? ==> Click(RejectButton, askApprove, disabled).value == Approve(false)
    ensures Click(ApproveButton, askApprove, disabled).Some? ==> Click(ApproveButton, askApprove, disabled).value == Approve(true)
    ensures control.AutoApproveBox? ==>
      Click(control, askApprove, disabled) == if disabled then None else Some(SetAutoApprove(control.checked))
    ensures !askApprove ==> Click(control, askApprove, disabled).None? || Click(control, askApprove, disabled).value.SetAutoApprove?
    ensures Click(control, askApprove, disabled).Some? && Click(control, askApprove, disabled).value.Approve? ==>
      BorderDestructive(askApprove)
  {
  }

  /** What the panel shows. */
  datatype PanelView = Running | Highlighted(language: string, text: string)

  function Panel(busy: bool, content: Option<string>, language: string): (v: PanelView)
    ensures v.Running? <==> busy
    ensures !busy ==> v.text == content.GetOr("") && v.language == language
  {
    if busy then Running else Highlighted(language, content.GetOr(""))
  }
}
