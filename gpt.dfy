/**
 * `GPT.chat`: the request sent to the chat model, and the fold over the streamed chunks that
 * turns each chunk into one `Response(text, code)`.
 *
 * The helpers `fill_dict` (merging a chunk into the accumulated response), `lazy_parse_args`
 * (extracting the code from possibly incomplete call arguments) and `msg_to_gpt_msg` are not part
 * of this model; they are parameters of the operations below.
 */
module Gpt {
  import opened Common

  /** A JSON-like value held in the accumulated response dictionary. */
  datatype Val = Null | Str(s: string) | Obj(fields: map<string, Val>)

  /** The `function_call` attribute of a streamed delta. */
  datatype FunctionCallField =
    | NoFunctionCall          // the delta has no `function_call` attribute
    | NoArguments             // it has one, without an `arguments` attribute
    | Arguments(args: Val)    // it has one, with these arguments

  /** `chunk.choices[0].delta`; a missing or `None` content are the same here. */
  datatype Delta = Delta(content: Option<string>, functionCall: FunctionCallField)

  datatype Chunk = Chunk(choices: seq<Delta>)

  /** One yielded element of the generator. */
  datatype Response = Response(text: Option<Val>, code: Option<string>)

  /** How the generator ends. */
  datatype Ending =
    | Finished
    | LlmException(message: string)   // an `OpenAIError`, re-raised with the same message
    | IndexError                      // a chunk with no choices

  /** The loop variables `response` and `previous_code`. */
  datatype StreamState = StreamState(response: map<string, Val>, previousCode: Option<string>)

  const Initial := StreamState(map[], None)

  /** The merge helper and the argument parser, left as parameters. */
  type Fill = (map<string, Val>, map<string, Val>) -> map<string, Val>
  type Parse = Val -> Option<string>

  /** The request: the system message first, then every history message converted, in order. */
  function BuildMessages<M>(system: Val, convert: M -> Val, history: seq<M>): (r: seq<Val>)
    ensures |r| == |history| + 1 && r[0] == system
    ensures forall i :: 0 <= i < |history| ==> r[i + 1] == convert(history[i])
  {
    [system] + seq(|history|, i requires 0 <= i < |history| => convert(history[i]))
  }

  /** The part of one delta that is merged into the response. */
  function ChunkDict(d: Delta): map<string, Val> {
    var withContent := if d.content.Some? then map["content" := Str(d.content.value)] else map[];
    if d.functionCall.Arguments? then withContent["function_call" := Obj(map["arguments" := d.functionCall.args])]
    else withContent
  }

  /** The response before merging: an empty `function_call` entry is opened on the first call delta. */
  function Prepare(response: map<string, Val>, d: Delta): map<string, Val> {
    if !d.functionCall.NoFunctionCall? && "function_call" !in response then response["function_call" := Obj(map[])]
    else response
  }

  /** The arguments accumulated so far, when the `function_call` entry holds any. */
  function ArgumentsOf(response: map<string, Val>): Option<Val> {
    if "function_call" in response && response["function_call"].Obj? && "arguments" in response["function_call"].fields
    then Some(response["function_call"].fields["arguments"])
    else None
  }

  /** The code of a response: freshly parsed code when there is some, else the previous code. */
  function CodeOf(parse: Parse, response: map<string, Val>, previousCode: Option<string>): Option<string> {
    var parsed := if ArgumentsOf(response).Some? then parse(ArgumentsOf(response).value) else None;
    if parsed.Some? then parsed else previousCode
  }

  /** One iteration of the chunk loop: the new loop state and the yielded response. */
  function Step(fill: Fill, parse: Parse, st: StreamState, d: Delta): (StreamState, Response) {
    var response := fill(Prepare(st.response, d), ChunkDict(d));
    var text := if "content" in response then Some(response["content"]) else None;
    var code := CodeOf(parse, response, st.previousCode);
    (StreamState(response, code), Response(text, code))
  }

  /** What the generator yields from `st` on, and how it ends; `error` is raised after the chunks. */
  function Replay(fill: Fill, parse: Parse, st: StreamState, chunks: seq<Chunk>, error: Option<string>): (seq<Response>, Ending)
    decreases |chunks|
  {
    if chunks == [] then ([], if error.Some? then LlmException(error.value) else Finished)
    else if chunks[0].choices == [] then ([], IndexError)
    else
      var (next, response) := Step(fill, parse, st, chunks[0].choices[0]);
      var (rest, ending) := Replay(fill, parse, next, chunks[1..], error);
      ([response] + rest, ending)
  }

  /**
   * `chat`: the messages sent, the responses yielded and how the stream ended. `error` is the
   * `OpenAIError` raised by the client after the given chunks (with no chunks when creating the
   * stream fails), or `None`.
   */
  method Chat<M>(fill: Fill, parse: Parse, system: Val, convert: M -> Val, history: seq<M>,
                 chunks: seq<Chunk>, error: Option<string>)
    returns (messages: seq<Val>, responses: seq<Response>, ending: Ending)
    ensures messages == BuildMessages(system, convert, history)
    ensures (responses, ending) == Replay(fill, parse, Initial, chunks, error)
  {
    messages := BuildMessages(system, convert, history);
    var response: map<string, Val> := map[];
    var previousCode: Option<string> := None;
    responses := [];
    var i := 0;
    assert chunks[0..] == chunks;
    while i < |chunks|
      invariant 0 <= i <= |chunks|
      invariant Replay(fill, parse, Initial, chunks, error).0
        == responses + Replay(fill, parse, StreamState(response, previousCode), chunks[i..], error).0
      invariant Replay(fill, parse, Initial, chunks, error).1
        == Replay(fill, parse, StreamState(response, previousCode), chunks[i..], error).1
    {
      if chunks[i].choices == [] {
        assert chunks[i..][0] == chunks[i];
        assert Replay(fill, parse, StreamState(response, previousCode), chunks[i..], error) == ([], IndexError);
        assert responses + [] == responses;
        ending := IndexError;
        return;
      }
      var delta := chunks[i].choices[0];
      var chunkDict := ChunkDict(delta);
      response := fill(Prepare(response, delta), chunkDict);
      var text := if "content" in response then Some(response["content"]) else None;
      var code := CodeOf(parse, response, previousCode);
      previousCode := code;
      assert chunks[i..][1..] == chunks[i + 1..];
      responses := responses + [Response(text, code)];
      i := i + 1;
    }
    assert chunks[i..] == [] && responses + [] == responses;
    ending := if error.Some? then LlmException(error.value) else Finished;
  }

  /**
   * With every chunk carrying a choice, exactly one response is yielded per chunk, and the stream
   * ends normally or with the client's error re-raised as `LLMException` with the same message.
   */
  lemma {:induction false} OneResponsePerChunk(fill: Fill, parse: Parse, st: StreamState, chunks: seq<Chunk>, error: Option<string>)
    requires forall i :: 0 <= i < |chunks| ==> chunks[i].choices != []
    ensures |Replay(fill, parse, st, chunks, error).0| == |chunks|
    ensures Replay(fill, parse, st, chunks, error).1 == if error.Some? then LlmException(error.value) else Finished
    decreases |chunks|
  {
    if chunks != [] {
      var (next, _) := Step(fill, parse, st, chunks[0].choices[0]);
      OneResponsePerChunk(fill, parse, next, chunks[1..], error);
    }
  }

  /** A chunk without choices ends the stream there: the earlier chunks' responses, then `IndexError`. */
  lemma {:induction false} EmptyChoicesStop(fill: Fill, parse: Parse, st: StreamState, chunks: seq<Chunk>, error: Option<string>, k: nat)
    requires k < |chunks| && chunks[k].choices == []
    requires forall i :: 0 <= i < k ==> chunks[i].choices != []
    ensures |Replay(fill, parse, st, chunks, error).0| == k
    ensures Replay(fill, parse, st, chunks, error).1 == IndexError
    decreases k
  {
    if k > 0 {
      var (next, _) := Step(fill, parse, st, chunks[0].choices[0]);
      EmptyChoicesStop(fill, parse, next, chunks[1..], error, k - 1);
    }
  }

  /** From a state that has code, every later response has code. */
  lemma {:induction false} CodeStaysOnce(fill: Fill, parse: Parse, st: StreamState, chunks: seq<Chunk>, error: Option<string>)
    requires st.previousCode.Some?
    ensures forall k :: 0 <= k < |Replay(fill, parse, st, chunks, error).0| ==> Replay(fill, parse, st, chunks, error).0[k].code.Some?
    decreases |chunks|
  {
    if chunks != [] && chunks[0].choices != [] {
      var (next, _) := Step(fill, parse, st, chunks[0].choices[0]);
      CodeStaysOnce(fill, parse, next, chunks[1..], error);
    }
  }

  /** Once a yielded response has code, every later response of the stream has code too. */
  lemma {:induction false} CodeCarriedForward(fill: Fill, parse: Parse, st: StreamState, chunks: seq<Chunk>, error: Option<string>, i: nat, j: nat)
    requires i < j < |Replay(fill, parse, st, chunks, error).0|
    requires Replay(fill, parse, st, chunks, error).0[i].code.Some?
    ensures Replay(fill, parse, st, chunks, error).0[j].code.Some?
    decreases |chunks|
  {
    var (next, first) := Step(fill, parse, st, chunks[0].choices[0]);
    var rest := Replay(fill, parse, next, chunks[1..], error).0;
    assert Replay(fill, parse, st, chunks, error).0 == [first] + rest;
    if i == 0 {
      CodeStaysOnce(fill, parse, next, chunks[1..], error);
      assert rest[j - 1].code.Some?;
    } else {
      CodeCarriedForward(fill, parse, next, chunks[1..], error, i - 1, j - 1);
    }
  }

  /**
   * One step: code parsed from the accumulated arguments replaces the previous code, otherwise the
   * previous code is kept; the new `previous_code` is the yielded code; and the text is absent
   * exactly when the accumulated response has no `content` key.
   */
  lemma StepResponse(fill: Fill, parse: Parse, st: StreamState, d: Delta)
    ensures var (next, r) := Step(fill, parse, st, d);
      var args := ArgumentsOf(next.response);
      (args.Some? && parse(args.value).Some? ==> r.code == parse(args.value))
      && (args.None? || parse(args.value).None? ==> r.code == st.previousCode)
      && next.previousCode == r.code
      && (r.text.None? <==> "content" !in next.response)
      && (r.text.Some? ==> r.text.value == next.response["content"])
  {
  }
}
