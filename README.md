# R-Pilot, modelled in Dafny

R-Pilot is a chat assistant. It proposes R code, asks the user to approve it, and runs it in a
persistent R process on the backend. This project models and proves the deterministic logic of
that system.

**Backend (Python)**
- The R interpreter's output-capture protocol (`RProcess`). Each cell is wrapped in a `tryCatch`
  that ends by printing an end marker. Stdout lines are read from a queue up to the marker. An
  expired wait kills and restarts the process. Stderr is drained and appended.
- The configuration and the websocket loop of the interpreter endpoint (`InterpreterService`).
  Each received script gets exactly one framed reply.
- Environment lookup (`EnvVar`).
- The fold over the model's streamed chunks, including the carried-forward code (`Gpt`).
- The choice of model adapter (`LlmSelector`).
- The startup banner (`Welcome`).

**Web app (TypeScript/React)**
- Where the backend is found and how API URLs are joined (`ServicesUrl`).
- The upload route, with its file-name sanitiser (`Upload`).
- The transcript view: the message filter, sandbox URL rewriting, code highlighting, the
  placeholder and the copy button (`ChatHistory`).
- The session screen (`Session`) and its header's error alert and New chat / Reset buttons
  (`ChatHeader`).
- The message box (`ChatInput`).
- The interpreter panels and their approval controls (`InterpreterIO`).
- The token provider (`Authentication`).

## How things are modelled

- There is one module per source file. `Common` holds Option/Result and string helpers, and
  `Messages` holds the chat message shape.
- Code that updates state in place becomes a class whose methods update fields, each method
  proved against specification functions. This covers the R interpreter, the session, the
  message box and the token provider. Pure code becomes functions and lemmas.
- In the R interpreter:
  - Reader threads and the clock are replaced by `Deliver`, which appends to the two queues.
  - A timed-out wait is an explicit `Expired` event.
  - A queue that runs dry reads as an expired wait.
- The interpreter endpoint sees the interpreter only through what `run_cell` produced for each
  script (`CellOutcome`). The same loop therefore covers the R and the IPython interpreter.
- Helpers whose source is not part of this model are parameters: `fill_dict`,
  `lazy_parse_args`, `msg_to_gpt_msg` and the system message.
- Browser state is held as fields or inputs: `localStorage`, `window.location`, the hash's
  decoded `token` parameter, and `scrollHeight`.
- Upload file names are sequences of UTF-16 code units, because the sanitising regular
  expression works unit by unit.

About timeouts:
- A timeout is framed by the backend as `_success_ ERROR: TIMEOUT REACHED`. A client cannot
  tell it from output that prints that text (`TimeoutFramedAsOutput`).
- The timeout is enforced by the backend's read of the R process, whose wait on the stdout queue expires (`apps/api/services/services/interpreter/r_interpreter.py:103-111`). The browser-side interpreter client is not part of this model.

## Model

| member | source | states |
|---|---|---|
| RProcess.CaptureIsTextBeforeMarker | apps/api/services/services/interpreter/r_interpreter.py:99-117 | The read returns text iff an end-marker line arrives before any expiry. The text is then the FIFO concatenation of the lines before that line; the marker line, including any text before the marker on it, is left out. |
| RProcess.Capture | apps/api/services/services/interpreter/r_interpreter.py:99-117 | What `_read_stdout` returns for the queue contents: the concatenated lines before the first marker line, or `None` when an expiry comes first. Its properties are the `Capture…` lemmas. |
| RProcess.Consumed | apps/api/services/services/interpreter/r_interpreter.py:99-117 | How many events `_read_stdout` takes: everything up to and including the first stopping event, or the whole queue when there is none. |
| RProcess.CellResult | apps/api/services/services/interpreter/r_interpreter.py:179-187 | The outcome of `_fetch_result`: a timeout when the capture is `None`, otherwise the captured stdout followed by the stderr lines. `RunCell` is proved to return it. |
| RProcess.CaptureNoneIffExpiresFirst | apps/api/services/services/interpreter/r_interpreter.py:103-111 | The read gives `None`, never partial output, exactly when no marker line precedes the first expiry. |
| RProcess.CaptureIgnoresLaterLines | apps/api/services/services/interpreter/r_interpreter.py:99-117 | Events queued after the marker line do not change the read. They stay in the queue, in order, for the next read. |
| RProcess.CaptureOfCellOutput | apps/api/services/services/interpreter/r_interpreter.py:113-117 | For marker-free lines followed by the marker line, the read returns exactly those lines in order and consumes them plus the marker line. |
| RProcess.WrapScript | apps/api/services/services/interpreter/r_interpreter.py:153-167 | The wrapped cell starts with the `tryCatch` header and ends with the end-marker command. |
| RProcess.WrapScriptRoundTrip | apps/api/services/services/interpreter/r_interpreter.py:153-167 | The cell can be recovered from its wrapping. The error branch prints `Error: <message>`, and the last command prints the end marker. |
| RProcess.RInterpreter.constructor | apps/api/services/services/interpreter/r_interpreter.py:16-37 | A new interpreter is running its first process. The probe was written to stdin and the probe's reply was consumed. |
| RProcess.RInterpreter.Start | apps/api/services/services/interpreter/r_interpreter.py:42-83 | A new process starts with fresh queues and a new stdin. It is probed, and the interpreter is running afterwards. |
| RProcess.RInterpreter.Stop | apps/api/services/services/interpreter/r_interpreter.py:85-91 | It kills the process and stops the threads only when running. The interpreter is not running afterwards, so a second call changes nothing. |
| RProcess.RInterpreter.Deliver | apps/api/services/services/interpreter/r_interpreter.py:93-97 | Lines read by the reader threads join the queues in arrival order. |
| RProcess.RInterpreter.WriteStdin | apps/api/services/services/interpreter/r_interpreter.py:125-127 | The text is appended to what the process received on stdin. |
| RProcess.RInterpreter.ReadStdout | apps/api/services/services/interpreter/r_interpreter.py:99-117 | Returns the capture of the stdout queue. It removes exactly the events up to and including the marker line or the expiry. |
| RProcess.RInterpreter.ReadStderr | apps/api/services/services/interpreter/r_interpreter.py:119-123 | Returns the stderr lines concatenated in FIFO order and leaves the queue empty. |
| RProcess.RInterpreter.FetchResult | apps/api/services/services/interpreter/r_interpreter.py:179-187 | On expiry it stops and restarts the process (running again, a new generation) and returns `None`; when starting the new process raises, that exception is passed on and the interpreter stays stopped. Otherwise it returns stdout followed by the drained stderr. |
| RProcess.RInterpreter.RunCell | apps/api/services/services/interpreter/r_interpreter.py:189-202 | A failure creating the script file is raised before anything is written, sent or deleted. A failing stdin write is raised after the file exists. A restart that raises after an expired wait is raised, with the script already sent and the interpreter left stopped. Otherwise the outcome is the capture of the replies, and a timeout restarts the process. The temporary file is deleted on every path unless the delete fails. |
| EnvVar.GetEnvVar | apps/api/services/services/utils/env_var.py:9-18 | Returns a value iff the key is set or a default is given. A set value wins, even when empty. Otherwise it exits with status 1 and the missing-variable message. |
| EnvVar.SetValueWinsOverDefault | apps/api/services/services/utils/env_var.py:10-12 | A set value, including the empty string, is returned even when a default is given. |
| EnvVar.ExitOnlyWhenUnsetWithoutDefault | apps/api/services/services/utils/env_var.py:14-18 | The process exits exactly when the key is unset and there is no default. |
| InterpreterService.ParseIntCases | apps/api/services/services/interpreter/service.py:17 | `int()` of the timeout: digits give their value, a `-` sign negates it and a `+` sign keeps it; the empty string, a bare sign and text with any other character are rejected. |
| InterpreterService.LoadConfig | apps/api/services/services/interpreter/service.py:13-17 | The module-level settings read in source order: the working directory, the lower-cased type (default `r`), the R or IPython path for its type, and the timeout (default `120`). Its properties are `ConfigDefaults`, `ConfigInterpreterType` and `MissingRPathExits`. |
| InterpreterService.ConfigDefaults | apps/api/services/services/interpreter/service.py:13-17 | With only the required variables set, the type is `r`, the R path is read, and the timeout is 120. |
| InterpreterService.ConfigInterpreterType | apps/api/services/services/interpreter/service.py:14-16 | The type is the set value lower-cased. The R path is read iff the type is `r`, and the IPython path iff it is `python`. |
| InterpreterService.MissingRPathExits | apps/api/services/services/interpreter/service.py:15 | For type `r` with no `R_PATH`, importing the module exits with status 1 naming `R_PATH`. |
| InterpreterService.GetInterpreter | apps/api/services/services/interpreter/service.py:24-40 | `r` selects the R interpreter and `python` the IPython one. Any other type fails with `Unsupported interpreter type: <type>`. |
| InterpreterService.UnframeFrame | apps/api/services/services/interpreter/service.py:72-78 | A reply reads back as what `run_cell` produced: output and timeouts as success, exceptions as errors. No reply equals `_ready_`. |
| InterpreterService.Frame | apps/api/services/services/interpreter/service.py:73-78 | The reply to one script: `_success_ ` with the output or the timeout text, or `_error_ ` with the exception message. Its read-back is `UnframeFrame`. |
| InterpreterService.TimeoutFramedAsOutput | apps/api/services/services/interpreter/service.py:73-76 | A timeout is sent as `_success_ ERROR: TIMEOUT REACHED`, the same message as output with that text. |
| InterpreterService.Responses | apps/api/services/services/interpreter/service.py:70-79 | There is one reply per script, in receive order, each the frame of its outcome. |
| InterpreterService.ResponsesAppend | apps/api/services/services/interpreter/service.py:69-81 | Replying to two runs of scripts in turn is replying to their concatenation. |
| InterpreterService.Run | apps/api/services/services/interpreter/service.py:43-83 | An unverified connection gets nothing. A creation error is sent bare, and no script is run. A failed ready send stops the interpreter. Otherwise `_ready_` is sent, then one reply per script, and the interpreter is stopped. |
| Gpt.BuildMessages | apps/api/services/services/llm/gpt/gpt.py:17-18 | The request is the system message followed by every converted history message, in order. |
| Gpt.Chat | apps/api/services/services/llm/gpt/gpt.py:15-66 | The chunk loop yields exactly the responses of the stream fold and ends as it does. |
| Gpt.Step | apps/api/services/services/llm/gpt/gpt.py:46-63 | One chunk: the delta is merged into the accumulated response, and the response carries its `content` and the newest parsed code. Its properties are `StepResponse`. |
| Gpt.Replay | apps/api/services/services/llm/gpt/gpt.py:30-66 | The stream as a fold over the chunks: one response per chunk until a chunk has no choices (index error), then the client error re-raised or a normal end. `Chat` is proved equal to it. |
| Gpt.OneResponsePerChunk | apps/api/services/services/llm/gpt/gpt.py:30-66 | There is one response per chunk. The stream ends normally, or with the client's error re-raised as `LLMException` with the same message. |
| Gpt.EmptyChoicesStop | apps/api/services/services/llm/gpt/gpt.py:33 | A chunk without choices ends the stream with an index error after the earlier chunks' responses. |
| Gpt.CodeStaysOnce | apps/api/services/services/llm/gpt/gpt.py:59-61 | From a state holding code, every later response has code. |
| Gpt.CodeCarriedForward | apps/api/services/services/llm/gpt/gpt.py:52-61 | Once a response has code, every later response of the stream has code. |
| Gpt.StepResponse | apps/api/services/services/llm/gpt/gpt.py:46-63 | Freshly parsed code replaces the previous code, which is otherwise kept. The text is absent exactly when the accumulated response has no `content`. |
| LlmSelector.FirstMatch | apps/api/services/services/llm/selector.py:12-13 | The index found is the first entry whose key starts the setting, or the end when none does. |
| LlmSelector.GetLlm | apps/api/services/services/llm/selector.py:11-16 | The scan returns the first matching adapter, or the unknown-setting error. |
| LlmSelector.SelectLlm | apps/api/services/services/llm/selector.py:11-16 | The adapter of the first `MAP_LLM` entry whose key starts the setting, built with the text after the key and one separator, or the unknown-setting error. Its properties are `SelectLlmIsFirstMatch`. |
| LlmSelector.SelectLlmIsFirstMatch | apps/api/services/services/llm/selector.py:11-16 | A setting is accepted iff some `MAP_LLM` key starts it. The first such entry wins and receives the setting after the key and one separator. Otherwise the error is `Unknown LLM setting: <setting>`. |
| LlmSelector.SelectOpenAI | apps/api/services/services/llm/selector.py:5-14 | `gpt-openai…` selects the OpenAI adapter with the text after one more character. |
| LlmSelector.SelectAzure | apps/api/services/services/llm/selector.py:5-14 | `gpt-azure…` selects the Azure adapter with the text after one more character. |
| LlmSelector.BarePrefixGivesEmptyName | apps/api/services/services/llm/selector.py:14 | A bare key gives an empty model name. |
| Welcome.BannerShape | apps/api/services/services/auth/welcome.py:10-24 | The banner starts and ends with `***`. The heading is singular iff exactly one host is allowed. There is exactly one URL line, and it ends in the token. |
| Welcome.Banner | apps/api/services/services/auth/welcome.py:10-24 | The five banner lines printed at start-up. Their shape is `BannerShape` and their host is `BannerHost`. |
| Welcome.BannerHost | apps/api/services/services/auth/welcome.py:14 | The URL uses the first allowed host, or `localhost:3000` when none is configured. |
| ServicesUrl.StripTrailingSlash | apps/web/src/app/services.ts:23 | The result is the URL, or the URL less one final `/`, removed exactly when present. |
| ServicesUrl.ServicesUrlSources | apps/web/src/app/services.ts:1-24 | A non-empty configured URL is used. Otherwise the browser fallback is used, or `http://localhost:8000` without a window. One trailing `/` is removed. |
| ServicesUrl.GetServicesUrl | apps/web/src/app/services.ts:1-24 | The configured URL when non-empty, else the browser fallback, else `http://localhost:8000`, less one trailing `/`. Its cases are `ServicesUrlSources`. |
| ServicesUrl.BrowserFallback | apps/web/src/app/services.ts:12-16 | The URL built from the window location. Its form is `BrowserFallbackPort`. |
| ServicesUrl.BrowserFallbackPort | apps/web/src/app/services.ts:12-16 | The fallback is `protocol//hostname`, plus `:8000` exactly for `localhost`. |
| ServicesUrl.StripRemovesOneSlashOnly | apps/web/src/app/services.ts:23 | Only one trailing slash is removed. |
| ServicesUrl.NormalizedPath | apps/web/src/app/services.ts:36 | The path starts with `/`, and one is prepended only when missing. |
| ServicesUrl.FullApiUrlCases | apps/web/src/app/services.ts:29-45 | Absolute paths are kept. Otherwise the result is the normalised path, prefixed by the services URL only when that URL is absolute. Applying it twice changes nothing. |
| ServicesUrl.GetFullApiUrl | apps/web/src/app/services.ts:29-45 | The URL of an API path. Its cases are `FullApiUrlCases`. |
| Upload.Sanitize | apps/web/src/app/api/upload/route.ts:25 | Length is preserved. Each allowed unit is kept in place and every other unit becomes `_`. |
| Upload.SanitizeProperties | apps/web/src/app/api/upload/route.ts:25 | The output holds only `[a-zA-Z0-9._-]`. Sanitising is idempotent, and a name is unchanged iff it already holds only those units. |
| Upload.SanitizedHasNoSeparator | apps/web/src/app/api/upload/route.ts:25-26 | No `/` or `\` survives, so the write path stays inside the workspace. |
| Upload.PostContract | apps/web/src/app/api/upload/route.ts:6-43 | No file (or an empty field) gives 400 and writes nothing. A 200 names the sanitised name under which exactly the uploaded bytes were written, and nothing else changes. |
| Upload.Post | apps/web/src/app/api/upload/route.ts:6-43 | The handler with `NextResponse` imported and the workspace created before the write. Its contract is `PostContract`. |
| Upload.AsWrittenNeverReplies | apps/web/src/app/api/upload/route.ts:11-16 | As written, no request gets a reply, while the corrected handler answers a missing file with 400. |
| Upload.PostAsWritten | apps/web/src/app/api/upload/route.ts:1-43 | The handler as written: no reply on any path, and a write into a missing workspace stores nothing. Its behaviour is `AsWrittenNeverReplies` and `AsWrittenLosesFirstUpload`. |
| Upload.AsWrittenLosesFirstUpload | apps/web/src/app/api/upload/route.ts:20-29 | As written, an upload into a missing workspace stores nothing. The corrected handler stores it. |
| ChatHistory.FilteredByVisibility | apps/web/src/app/session/chat/chat_history.tsx:20-25 | Every message but the last is shown iff it is a user message or has text. The last one is also shown while thinking. |
| ChatHistory.Kept | apps/web/src/app/session/chat/chat_history.tsx:21-24 | The filter test for one message: a user message, or a model message with text, or the last message while thinking. |
| ChatHistory.HistoryFiltered | apps/web/src/app/session/chat/chat_history.tsx:20-25 | The shown messages, in history order. Its properties are the `Filtered…` lemmas. |
| ChatHistory.FilteredKeepsUsers | apps/web/src/app/session/chat/chat_history.tsx:20-22 | The user messages shown are exactly the history's user messages, in order. |
| ChatHistory.ThinkingShowsLastMessage | apps/web/src/app/session/chat/chat_history.tsx:23-24 | While thinking, the last history message is the last one shown. |
| ChatHistory.ShowsThinking | apps/web/src/app/session/chat/chat_history.tsx:51-58 | The thinking indicator is drawn beside a shown model message that is the last one shown, while thinking. |
| ChatHistory.ThinkingIndicator | apps/web/src/app/session/chat/chat_history.tsx:20-64 | The indicator is drawn somewhere iff the model is thinking and the history ends with a model message, and then it is drawn on that message. |
| ChatHistory.FilteredIdempotent | apps/web/src/app/session/chat/chat_history.tsx:20-25 | Filtering the shown messages again changes nothing. |
| ChatHistory.UrlTransformSpec | apps/web/src/app/session/chat/chat_history.tsx:81-87 | A `sandbox:/workspace/` URL becomes `/api/files/` plus the rest, and other URLs are kept. Images follow the same rule. The rewrite is idempotent. |
| ChatHistory.UrlTransform | apps/web/src/app/session/chat/chat_history.tsx:81-87 | The link rewrite. Its properties are `UrlTransformSpec`. |
| ChatHistory.ImgSrc | apps/web/src/app/session/chat/chat_history.tsx:146-150 | The image `src` rewrite: the link rewrite applied to `src`, with a missing `src` read as the empty string. |
| ChatHistory.WordRunEnd | apps/web/src/app/session/chat/chat_history.tsx:90 | The greedy `\w+` run ends at the first non-word character. |
| ChatHistory.FirstMatchFrom | apps/web/src/app/session/chat/chat_history.tsx:90 | Finds the leftmost position where `language-` is followed by a word character. |
| ChatHistory.LanguageOf | apps/web/src/app/session/chat/chat_history.tsx:90-92 | A found language is a non-empty run of word characters. |
| ChatHistory.LanguageOfSpec | apps/web/src/app/session/chat/chat_history.tsx:90-92 | There is no language iff no `language-` is followed by a word character. Otherwise it is the whole word run after the leftmost such `language-`. |
| ChatHistory.StripTrailingNewline | apps/web/src/app/session/chat/chat_history.tsx:111 | Exactly one final line break is removed, if present. |
| ChatHistory.RenderCodeSpec | apps/web/src/app/session/chat/chat_history.tsx:89-125 | Code is a highlighted block iff its class names a language, and the block carries that language. It shows the code less one final line break and copies it whole. Inline code is kept as is. |
| ChatHistory.RenderCode | apps/web/src/app/session/chat/chat_history.tsx:89-125 | The code element view. Its properties are `RenderCodeSpec`. |
| ChatHistory.PlaceholderOrCopy | apps/web/src/app/session/chat/chat_history.tsx:75-167 | A model message shows either the `...` placeholder or a copy button, never both. A user message never has a copy button. |
| ChatHistory.ShowsPlaceholder | apps/web/src/app/session/chat/chat_history.tsx:75-76 | An empty or missing text is shown as `...`. |
| ChatHistory.HasCopyButton | apps/web/src/app/session/chat/chat_history.tsx:163-167 | A model message with non-empty text gets a copy button. |
| Session.LastCode | apps/web/src/app/session/session.tsx:44 | The code is that of the last message with code, or absent when no message has code. |
| Session.NoSendWhileBusy | apps/web/src/app/session/session.tsx:100-109 | Thinking and a busy result panel exclude each other. A message can be sent iff the round is not active, no error is shown and the message is non-empty. |
| Session.InputDisabled | apps/web/src/app/session/session.tsx:109 | The input is disabled while a round is active or an error is shown. |
| Session.Thinking | apps/web/src/app/session/session.tsx:102 | The `thinking` flag passed to the history is set exactly while the round waits for the model. Where the indicator then appears is `ThinkingIndicatorShown`. |
| Session.ResultBusy | apps/web/src/app/session/session.tsx:148 | The result panel is busy while the round waits for the interpreter. |
| Session.ShowNew | apps/web/src/app/session/session.tsx:91 | The `showNew` prop is true iff the history is non-empty. |
| ChatHeader.Header | apps/web/src/app/session/chat/header.tsx:19-45 | An error is shown as `Error: <error>` with a Reset button in place of New chat; without an error, New chat follows `showNew`. |
| Session.NewChatOffered | apps/web/src/app/session/chat/header.tsx:19-45 | New chat is shown iff there is a history and no error, Reset iff an error is shown. The two never appear together, and one of them is shown iff there is a history or an error. |
| Session.ThinkingIndicatorShown | apps/web/src/app/session/session.tsx:97-104 | The history, drawn only when non-empty, shows the thinking indicator iff the round waits for the model and the history ends with a model message. |
| Session.PanelLanguages | apps/web/src/app/session/session.tsx:127-150 | The code panel is highlighted as R whatever the interpreter type, and the result panel as text. |
| Session.Session.constructor | apps/web/src/app/session/session.tsx:26-35 | A session starts with an empty history, no error, the IO panel hidden, no round active and no interpreter. |
| Session.Session.Render | apps/web/src/app/session/session.tsx:37-49 | The interpreter client is created on the first render only and then kept. The IO panel opens once a message carries code. |
| Session.Session.StartChatRound | apps/web/src/app/session/session.tsx:56-70 | Without a token, the auth error is set and no round starts. Otherwise a round is built on the current history, the session's single interpreter and the token. |
| Session.Session.RoundFailed | apps/web/src/app/session/session.tsx:71-76 | A rejected round's message becomes the session error. |
| Session.Session.OpenIOPanel | apps/web/src/app/session/session.tsx:123 | Clicking the IO panel shows it. |
| ChatInput.Height | apps/web/src/app/session/chat/chat_input.tsx:23 | The height is the content height capped at 96 pixels. |
| ChatInput.CanSend | apps/web/src/app/session/chat/chat_input.tsx:17 | A message can be sent when the input is enabled and the message is non-empty. `OnSend` keeps no empty message sent. |
| ChatInput.ChatInput.constructor | apps/web/src/app/session/chat/chat_input.tsx:15 | The box starts empty, and nothing has been sent. |
| ChatInput.ChatInput.AdjustSize | apps/web/src/app/session/chat/chat_input.tsx:19-25 | The height follows the content up to the cap. |
| ChatInput.ChatInput.OnChange | apps/web/src/app/session/chat/chat_input.tsx:43-46 | The message follows the textarea, and the box is resized. |
| ChatInput.ChatInput.OnSend | apps/web/src/app/session/chat/chat_input.tsx:27-34 | When sending is allowed, the message is delivered once and the box is emptied. Otherwise nothing changes. No empty message is ever sent. |
| ChatInput.ChatInput.OnKeyDown | apps/web/src/app/session/chat/chat_input.tsx:47-49 | Enter goes through the same guard as the send button, emptying and resizing the box when it sends. Other keys change nothing. |
| InterpreterIO.InterpreterType | apps/web/src/app/session/approval/interpreter_io.tsx:22 | The type is the environment value lower-cased, or `r` when it is unset or empty. |
| InterpreterIO.Language | apps/web/src/app/session/approval/interpreter_io.tsx:48 | A non-empty provided language wins. Otherwise it is `r` iff the interpreter type is `r`, else `python`. |
| InterpreterIO.ClickSpec | apps/web/src/app/session/approval/interpreter_io.tsx:75-102 | Reject approves `false` and Approve approves `true`, only while approval is asked and the panel is enabled. The checkbox forwards its value when enabled. |
| InterpreterIO.Click | apps/web/src/app/session/approval/interpreter_io.tsx:75-102 | What clicking a control tells the approver. Its cases are `ClickSpec`. |
| InterpreterIO.BorderDestructive | apps/web/src/app/session/approval/interpreter_io.tsx:53 | The card border is red while approval is asked; `ClickSpec` shows a decision is only made then. |
| InterpreterIO.Panel | apps/web/src/app/session/approval/interpreter_io.tsx:58-69 | The running indicator shows iff busy. Otherwise the content is shown, with `null` as the empty string. |
| Authentication.ResolveTokenPrecedence | apps/web/src/app/authentication.tsx:20-27 | The hash token wins over the stored one, which is the fallback. There is no token only when both are missing. |
| Authentication.ResolveToken | apps/web/src/app/authentication.tsx:20-27 | The token to verify: the fragment token, else the stored one. Its precedence is `ResolveTokenPrecedence`. |
| Authentication.Authentication.constructor | apps/web/src/app/authentication.tsx:17 | The published token starts as `null`, and no request has been sent. |
| Authentication.Authentication.Mount | apps/web/src/app/authentication.tsx:19-41 | A hash token clears the hash and is stored under `auth_token`. The resolved token, if any, is sent for verification, and no request is sent without one. |
| Authentication.Authentication.VerifySettled | apps/web/src/app/authentication.tsx:33-39 | The awaited token is published only on success. A failure leaves the published token unchanged. |

## Findings

| source | as written | input that shows it | evidently intended | confidence | as-written member | corrected member |
|---|---|---|---|---|---|---|
| apps/web/src/app/api/upload/route.ts:11-16 | `NextResponse` is used in every `return` but not imported (the imports at lines 1-4 bring only `NextRequest`), so every return throws, including the one in `catch`. | A form without a `file` field: no 400 reply, the handler rejects. | `import { NextRequest, NextResponse } from 'next/server'`, giving 400 / 200 / 500 replies. | not executed | Upload.AsWrittenNeverReplies | Upload.PostContract |
| apps/web/src/app/api/upload/route.ts:20-29 | The comment says the workspace directory is ensured, and `mkdir` is imported, but it is never called; writing into a missing directory fails. | First upload when `public/workspace` does not exist: nothing is stored. | `await mkdir(workspacePath, { recursive: true })` before the write. | not executed | Upload.AsWrittenLosesFirstUpload | Upload.PostContract |

## Left out

- Processes, pipes, reader threads and the clock of the R interpreter are not modelled. Reads take pre-delivered queue contents, and timeouts are explicit events.
- A `None` timeout, which blocks forever on an empty queue, is not modelled; an exhausted queue reads as expired.
- The Windows branches of `_start`, `_create_script` and `_run_script` (platform specific) are not modelled.
- Failures of temporary-file creation are modelled only as the exception `run_cell` raises (`CellEnv.createError`); the file system's own error kinds are not modelled.
- `__del__` is not modelled (garbage-collector timing).
- RProcess.RInterpreter.FetchResult: a restart that raises is modelled as the new process failing to start, before any of its state exists; a probe write that raises once the new process exists is not modelled separately.
- `IPythonInterpreter` is not part of this model. The endpoint sees any interpreter only through the outcomes of `run_cell`.
- The websocket transport is abstracted: accepting, verifying and receiving are inputs, and a failed reply send is not modelled (it ends the loop as a disconnect does).
- The OpenAI and Azure clients (`gpt_openai.py`, `gpt_azure.py`) are thin client construction and are not modelled. `gpt_openai.py` passes a `required` argument that `get_env_var` does not accept.
- `fill_dict`, `lazy_parse_args`, `msg_to_gpt_msg` and `get_system_message` are not part of this model; they are parameters.
- Gpt.Chat: the accumulated `function_call` entry is read only while it is a dictionary, since what `fill_dict` stores there is unseen.
- `load_dotenv` is not modelled (file I/O); the environment is a map.
- InterpreterService.ParseIntCases: `ParseInt` accepts an optional sign and decimal digits only, not Python `int()`'s surrounding whitespace, digit separators or non-ASCII decimal digits (such as full-width `１２０`).
- Lower-casing covers ASCII letters only, not full Unicode case mapping.
- `BASE_SERVICES_URL` is the same value as `SERVICES_URL`; both are `ServicesUrl.GetServicesUrl`.
- The `URLSearchParams` parser of the URL fragment is not modelled; the decoded `token` parameter is an input.
- `path.join` normalisation is modelled only for the names that denote a directory (empty, `.`, `..`).
- The chat round, the approver and the browser-side interpreter client (`communication/chat_round`, `approval/approver`, `communication/interpreter`) are not part of this model. A round is recorded by what it is constructed with.
- Markdown and syntax-highlighting rendering, the clipboard and the `setTimeout` of the copy button, focus handling and scrolling are presentation and are not modelled.
- The textarea's default action on Enter (inserting a line break after the send) is not modelled.
- The header's theme toggle, layout, theme, brand, page, running indicator and animation components, `session_manager.tsx`, the setup script and the prompt constant are not modelled: presentation, setup I/O or constants.
