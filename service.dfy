/**
 * The interpreter endpoint of the backend: its configuration, the choice of interpreter, and the
 * websocket loop that runs each received script and answers with one framed message.
 *
 * The interpreter appears here through what its `run_cell` produced for each received script
 * (`CellOutcome`, see the `RProcess` module for the R interpreter), so the loop covers both kinds.
 */
module InterpreterService {
  import opened Common
  import opened EnvVar
  import opened RProcess

  /** `TIMEOUT_MESSAGE`: what is reported for a cell whose wait expired. */
  const TimeoutMessage := "ERROR: TIMEOUT REACHED"
  /** The first message sent once an interpreter exists. */
  const ReadyMessage := "_ready_"
  const SuccessTag := "_success_ "
  const ErrorTag := "_error_ "

  // ---------------------------------------------------------------------------------------------
  // Configuration, read once when the module is imported

  datatype Config = Config(
    workingDirectory: string,
    interpreterType: string,
    rPath: Option<string>,
    ipythonPath: Option<string>,
    timeout: int)

  /** Importing the module fails: a variable is missing, or the timeout is not an integer. */
  datatype StartupFailure = Exited(exit: Exit) | InvalidTimeout(text: string)

  predicate IsDigit(c: char) {
    '0' <= c <= '9'
  }

  /** The value of a string of decimal digits. */
  function DigitsValue(s: string): nat
    requires forall i :: 0 <= i < |s| ==> IsDigit(s[i])
  {
    if s == [] then 0
    else
      assert IsDigit(s[|s| - 1]);
      10 * DigitsValue(s[..|s| - 1]) + (s[|s| - 1] as int - '0' as int)
  }

  predicate AllDigits(s: string) {
    forall i :: 0 <= i < |s| ==> IsDigit(s[i])
  }

  /** A non-empty run of decimal digits, read as a number. */
  function ParseDigits(s: string): Option<nat> {
    if s != [] && AllDigits(s) then Some(DigitsValue(s)) else None
  }

  /** Python's `int(s)` on an optional sign followed by decimal digits. */
  function ParseInt(s: string): Option<int> {
    if s != [] && (s[0] == '-' || s[0] == '+') then
      match ParseDigits(s[1..])
      case None => None
      case Some(v) => Some(if s[0] == '-' then -(v as int) else v)
    else
      match ParseDigits(s)
      case None => None
      case Some(v) => Some(v)
  }

  /**
   * Digits give their value, with a `-` sign its negation and with a `+` sign the same value;
   * anything else (including the empty string and a bare sign) is rejected.
   */
  lemma ParseIntCases(digits: string)
    ensures digits != [] && AllDigits(digits) ==>
      ParseInt(digits) == Some(DigitsValue(digits))
      && ParseInt("-" + digits) == Some(-(DigitsValue(digits) as int))
      && ParseInt("+" + digits) == Some(DigitsValue(digits) as int)
    ensures ParseInt("") == None && ParseInt("-") == None && ParseInt("+") == None
    ensures (exists i :: 0 <= i < |digits| && !IsDigit(digits[i]) && digits[i] != '-' && digits[i] != '+')
      ==> ParseInt(digits) == None
  {
    assert ("-" + digits)[1..] == digits;
    assert ("+" + digits)[1..] == digits;
    if exists i :: 0 <= i < |digits| && !IsDigit(digits[i]) && digits[i] != '-' && digits[i] != '+' {
      var i :| 0 <= i < |digits| && !IsDigit(digits[i]) && digits[i] != '-' && digits[i] != '+';
      if digits[0] == '-' || digits[0] == '+' {
        var rest := digits[1..];
        assert i > 0 && rest[i - 1] == digits[i] && !AllDigits(rest);
      } else {
        assert !AllDigits(digits);
      }
    }
  }

  /** A path variable that is read only for the matching interpreter type. */
  function PathIfUsed(env: map<string, string>, key: string, used: bool): Result<Option<string>, Exit> {
    if !used then Success(None)
    else match GetEnvVar(env, key, None)
      case Success(p) => Success(Some(p))
      case Failure(e) => Failure(e)
  }

  /**
   * The module-level settings, in the order the module reads them: the working directory, the
   * lower-cased interpreter type (default "r"), the R path for "r", the IPython path for "python",
   * and the timeout in seconds (default "120").
   */
  function LoadConfig(env: map<string, string>): Result<Config, StartupFailure> {
    match GetEnvVar(env, "WORKING_DIRECTORY", None)
    case Failure(e) => Failure(Exited(e))
    case Success(wd) =>
      var itype := Lower(GetEnvVar(env, "INTERPRETER_TYPE", Some("r")).value);
      match PathIfUsed(env, "R_PATH", itype == "r")
      case Failure(e) => Failure(Exited(e))
      case Success(rPath) =>
        match PathIfUsed(env, "IPYTHON_PATH", itype == "python")
        case Failure(e) => Failure(Exited(e))
        case Success(ipythonPath) =>
          var text := GetEnvVar(env, "INTERPRETER_TIMEOUT", Some("120")).value;
          match ParseInt(text)
          case None => Failure(InvalidTimeout(text))
          case Some(t) => Success(Config(wd, itype, rPath, ipythonPath, t))
  }

  /** With only the required variables set, the type is "r" and the timeout 120 seconds. */
  lemma ConfigDefaults(env: map<string, string>)
    requires "WORKING_DIRECTORY" in env && "R_PATH" in env
    requires "INTERPRETER_TYPE" !in env && "INTERPRETER_TIMEOUT" !in env
    ensures LoadConfig(env) == Success(Config(env["WORKING_DIRECTORY"], "r", Some(env["R_PATH"]), None, 120))
  {
    assert Lower("r") == "r";
    assert DigitsValue("120") == 120 by {
      assert "120"[..2] == "12" && "12"[..1] == "1" && "1"[..0] == "";
    }
  }

  /** The interpreter type is the set value, lower-cased; the R path is needed exactly for "r". */
  lemma ConfigInterpreterType(env: map<string, string>)
    requires LoadConfig(env).Success?
    ensures "INTERPRETER_TYPE" in env ==> LoadConfig(env).value.interpreterType == Lower(env["INTERPRETER_TYPE"])
    ensures LoadConfig(env).value.rPath.Some? <==> LoadConfig(env).value.interpreterType == "r"
    ensures LoadConfig(env).value.ipythonPath.Some? <==> LoadConfig(env).value.interpreterType == "python"
  {
  }

  /** For type "r" with no R path set, the import exits with status 1 naming `R_PATH`. */
  lemma MissingRPathExits(env: map<string, string>)
    requires "WORKING_DIRECTORY" in env && "R_PATH" !in env
    requires "INTERPRETER_TYPE" !in env || Lower(env["INTERPRETER_TYPE"]) == "r"
    ensures LoadConfig(env) == Failure(Exited(Exit(1, MissingMessage("R_PATH"))))
  {
    assert Lower("r") == "r";
  }

  // ---------------------------------------------------------------------------------------------
  // `get_interpreter`

  datatype InterpreterKind = RInterpreterKind | IPythonInterpreterKind

  /** `get_interpreter`: "r" and "python" select an interpreter, anything else is a `ValueError`. */
  function GetInterpreter(interpreterType: string): (r: Result<InterpreterKind, string>)
    ensures r == Success(RInterpreterKind) <==> interpreterType == "r"
    ensures r == Success(IPythonInterpreterKind) <==> interpreterType == "python"
    ensures r.Failure? ==> r.error == "Unsupported interpreter type: " + interpreterType
  {
    if interpreterType == "r" then Success(RInterpreterKind)
    else if interpreterType == "python" then Success(IPythonInterpreterKind)
    else Failure("Unsupported interpreter type: " + interpreterType)
  }

  // ---------------------------------------------------------------------------------------------
  // Response framing

  /** The message sent back for one script. */
  function Frame(o: CellOutcome): string {
    match o
    case Output(text) => SuccessTag + text
    case TimedOut => SuccessTag + TimeoutMessage
    case Raised(message) => ErrorTag + message
  }

  /** How a client reads a framed message back. */
  datatype Framed = SuccessFrame(payload: string) | ErrorFrame(payload: string)

  function Unframe(message: string): Option<Framed> {
    if StartsWith(message, SuccessTag) then Some(SuccessFrame(message[|SuccessTag|..]))
    else if StartsWith(message, ErrorTag) then Some(ErrorFrame(message[|ErrorTag|..]))
    else None
  }

  /**
   * Every framed message reads back as what the interpreter produced: output and timeouts as
   * success, exceptions as errors; none of them can be mistaken for the ready message.
   */
  lemma UnframeFrame(o: CellOutcome)
    ensures Unframe(Frame(o)) == Some(match o
      case Output(text) => SuccessFrame(text)
      case TimedOut => SuccessFrame(TimeoutMessage)
      case Raised(message) => ErrorFrame(message))
    ensures Frame(o) != ReadyMessage
  {
    var f := Frame(o);
    match o
    case Output(text) =>
      assert f[..|SuccessTag|] == SuccessTag;
    case TimedOut =>
      assert f[..|SuccessTag|] == SuccessTag;
    case Raised(message) =>
      assert f[..|ErrorTag|] == ErrorTag;
      assert f[1] != SuccessTag[1];
  }

  /** A timeout is framed exactly as a script whose output is the timeout text. */
  lemma TimeoutFramedAsOutput()
    ensures Frame(TimedOut) == Frame(Output(TimeoutMessage)) == "_success_ ERROR: TIMEOUT REACHED"
  {
  }

  /** The responses to the scripts, one per script, in receive order. */
  function Responses(outcomes: seq<CellOutcome>): (r: seq<string>)
    ensures |r| == |outcomes|
    ensures forall i :: 0 <= i < |outcomes| ==> r[i] == Frame(outcomes[i])
  {
    seq(|outcomes|, i requires 0 <= i < |outcomes| => Frame(outcomes[i]))
  }

  /** Answering two runs of scripts one after the other answers their concatenation. */
  lemma ResponsesAppend(a: seq<CellOutcome>, b: seq<CellOutcome>)
    ensures Responses(a + b) == Responses(a) + Responses(b)
  {
  }

  // ---------------------------------------------------------------------------------------------
  // The websocket loop

  /**
   * `run`: after the connection is verified, create the interpreter (its type's error, or the
   * error its constructor raised, is sent bare and ends the connection), send the ready message,
   * then answer every received script until the client disconnects, and stop the interpreter.
   * `outcomes` is what `run_cell` produced for each received script, in receive order.
   */
  method Run(verified: bool, interpreterType: string, creationError: Option<string>,
             readySendFails: bool, outcomes: seq<CellOutcome>)
    returns (sent: seq<string>, stopped: bool)
    ensures !verified ==> sent == [] && !stopped
    ensures verified && GetInterpreter(interpreterType).Failure? ==>
      sent == [GetInterpreter(interpreterType).error] && !stopped
    ensures verified && GetInterpreter(interpreterType).Success? && creationError.Some? ==>
      sent == [creationError.value] && !stopped
    ensures verified && GetInterpreter(interpreterType).Success? && creationError.None? ==>
      stopped && sent == if readySendFails then [] else [ReadyMessage] + Responses(outcomes)
  {
    sent, stopped := [], false;
    if !verified {
      return;
    }
    var kind := GetInterpreter(interpreterType);
    if kind.Failure? {
      sent := [kind.error];
      return;
    }
    if creationError.Some? {
      sent := [creationError.value];
      return;
    }
    if readySendFails {
      stopped := true;
      return;
    }
    sent := [ReadyMessage];
    var i := 0;
    while i < |outcomes|
      invariant 0 <= i <= |outcomes|
      invariant |sent| == i + 1 && sent[0] == ReadyMessage
      invariant forall k :: 0 <= k < i ==> sent[k + 1] == Frame(outcomes[k])
    {
      sent := sent + [Frame(outcomes[i])];
      i := i + 1;
    }
    stopped := true;
    assert sent == [ReadyMessage] + Responses(outcomes);
  }
}
